/** String helpers with JavaScript semantics: `String.prototype.trim` and `Array.prototype.join`. */
module Texto {
  import opened Comun

  /** The characters `trim` removes: ECMAScript WhiteSpace and LineTerminator. */
  predicate EsEspacio(c: char)
  {
    || c == '\t' || c == '\n' || c == '\U{000B}' || c == '\U{000C}' || c == '\r' || c == ' '
    || c == '\U{00A0}' || c == '\U{1680}' || ('\U{2000}' <= c <= '\U{200A}')
    || c == '\U{2028}' || c == '\U{2029}' || c == '\U{202F}' || c == '\U{205F}'
    || c == '\U{3000}' || c == '\U{FEFF}'
  }

  predicate EnBlanco(s: string)
  {
    forall i :: 0 <= i < |s| ==> EsEspacio(s[i])
  }

  /** Drops the leading whitespace: the result is a suffix of `s`. */
  function RecortarInicio(s: string): (r: string)
    ensures |r| <= |s| && r == s[|s| - |r|..]
    ensures r == [] || !EsEspacio(r[0])
    ensures EnBlanco(s[..|s| - |r|])
  {
    if s != [] && EsEspacio(s[0]) then RecortarInicio(s[1..]) else s
  }

  /** Drops the trailing whitespace: the result is a prefix of `s`. */
  function RecortarFin(s: string): (r: string)
    ensures |r| <= |s| && r == s[..|r|]
    ensures r == [] || !EsEspacio(r[|r| - 1])
    ensures EnBlanco(s[|r|..])
  {
    if s != [] && EsEspacio(s[|s| - 1]) then RecortarFin(s[..|s| - 1]) else s
  }

  /** The string without its leading and trailing white space. */
  function Recortar(s: string): string
  {
    RecortarFin(RecortarInicio(s))
  }

  lemma {:induction false} InicioVacio(s: string)
    ensures RecortarInicio(s) == [] <==> EnBlanco(s)
  {
    if s != [] && EsEspacio(s[0]) {
      InicioVacio(s[1..]);
      assert EnBlanco(s[1..]) ==> EnBlanco(s) by {
        if EnBlanco(s[1..]) {
          forall i | 0 < i < |s| ensures EsEspacio(s[i]) { assert s[i] == s[1..][i - 1]; }
        }
      }
    }
  }

  lemma {:induction false} FinVacio(s: string)
    ensures RecortarFin(s) == [] <==> EnBlanco(s)
  {
    if s != [] && EsEspacio(s[|s| - 1]) {
      var p := s[..|s| - 1];
      FinVacio(p);
      assert EnBlanco(p) ==> EnBlanco(s) by {
        if EnBlanco(p) {
          forall i | 0 <= i < |s| - 1 ensures EsEspacio(s[i]) { assert s[i] == p[i]; }
        }
      }
    }
  }

  /** A string trims to the empty string exactly when it holds nothing but whitespace. */
  lemma RecortarVacio(s: string)
    ensures Recortar(s) == [] <==> EnBlanco(s)
  {
    var t := RecortarInicio(s);
    InicioVacio(s);
    FinVacio(t);
    if t != [] {
      assert !EsEspacio(t[0]);
    }
  }

  /** `!x || x.trim() === ''` negated: the field is given and not blank. */
  predicate Presente(x: Option<string>)
  {
    x.Some? && Recortar(x.value) != []
  }

  /** The strings in order, with `sep` between each two neighbours. */
  function Unir(xs: seq<string>, sep: string): string
  {
    if xs == [] then ""
    else if |xs| == 1 then xs[0]
    else xs[0] + sep + Unir(xs[1..], sep)
  }
}
