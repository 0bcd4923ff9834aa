/** What the relational store does to result rows: `WHERE` (a filter), `rows[0]`
    (the first match) and `ORDER BY` (a sort on an integer key). */
module Colecciones {
  import opened Comun

  /** The first element satisfying `p`, if any. */
  function Primero<T>(s: seq<T>, p: T -> bool): (r: Option<T>)
    ensures r.Some? ==> r.value in s && p(r.value)
    ensures r.None? <==> forall i :: 0 <= i < |s| ==> !p(s[i])
  {
    if s == [] then None
    else if p(s[0]) then Some(s[0])
    else
      var r := Primero(s[1..], p);
      assert forall i :: 0 < i < |s| ==> s[i] == s[1..][i - 1];
      r
  }

  /** Appending a row changes the first match only when there was none before. */
  lemma {:induction false} PrimeroAgregado<T>(s: seq<T>, x: T, p: T -> bool)
    ensures Primero(s + [x], p) ==
              if Primero(s, p).Some? then Primero(s, p) else if p(x) then Some(x) else None
  {
    if s == [] {
      assert [x][1..] == [];
    } else {
      assert (s + [x])[1..] == s[1..] + [x];
      PrimeroAgregado(s[1..], x, p);
    }
  }

  /** Counting copies: a sequence holding every element satisfying `p` as often as `s`
      does, and nothing else, is contained in `s`, and shares its members that satisfy `p`. */
  lemma CuentaFiltrada<T(!new)>(s: seq<T>, r: seq<T>, p: T -> bool)
    requires forall x :: multiset(r)[x] == if p(x) then multiset(s)[x] else 0
    ensures multiset(r) <= multiset(s)
    ensures forall i :: 0 <= i < |r| ==> r[i] in s && p(r[i])
    ensures forall i :: 0 <= i < |s| && p(s[i]) ==> s[i] in r
  {
    assert forall i :: 0 <= i < |r| ==> r[i] in multiset(r);
    assert forall i :: 0 <= i < |s| ==> s[i] in multiset(s);
  }

  /** The elements satisfying `p`, in their original order, each as often as in `s`. */
  function Filtrar<T(!new)>(s: seq<T>, p: T -> bool): (r: seq<T>)
    ensures |r| <= |s|
    ensures forall x :: multiset(r)[x] == if p(x) then multiset(s)[x] else 0
    ensures multiset(r) <= multiset(s)
    ensures forall i :: 0 <= i < |r| ==> r[i] in s && p(r[i])
    ensures forall i :: 0 <= i < |s| && p(s[i]) ==> s[i] in r
  {
    if s == [] then []
    else
      var r := Filtrar(s[1..], p);
      var cabeza := if p(s[0]) then [s[0]] else [];
      var f := cabeza + r;
      assert s == [s[0]] + s[1..];
      assert multiset(s) == multiset([s[0]]) + multiset(s[1..]);
      assert multiset(f) == multiset(cabeza) + multiset(r);
      CuentaFiltrada(s, f, p);
      f
  }

  /** Every adjacent pair is in order by `clave`. */
  predicate Ordenada<T>(s: seq<T>, clave: T -> int)
  {
    forall i :: 0 < i < |s| ==> clave(s[i - 1]) <= clave(s[i])
  }

  /** Adjacent order gives order between any two positions. */
  lemma {:induction false} OrdenadaEntrePares<T>(s: seq<T>, clave: T -> int, i: int, j: int)
    requires Ordenada(s, clave)
    requires 0 <= i <= j < |s|
    ensures clave(s[i]) <= clave(s[j])
    decreases j - i
  {
    if i < j {
      OrdenadaEntrePares(s, clave, i, j - 1);
    }
  }

  /** In an ordered non-empty sequence the last element has the greatest key. */
  lemma UltimoEsMaximo<T>(s: seq<T>, clave: T -> int)
    requires Ordenada(s, clave) && s != []
    ensures forall x :: x in s ==> clave(x) <= clave(s[|s| - 1])
  {
    forall x | x in s ensures clave(x) <= clave(s[|s| - 1]) {
      var i :| 0 <= i < |s| && s[i] == x;
      OrdenadaEntrePares(s, clave, i, |s| - 1);
    }
  }

  /** Inserts `x` before the first element whose key is not smaller. */
  function Insertar<T(==)>(x: T, s: seq<T>, clave: T -> int): (r: seq<T>)
    ensures multiset(r) == multiset(s) + multiset{x}
    ensures r[0] == x || (s != [] && r[0] == s[0])
    ensures Ordenada(s, clave) ==> Ordenada(r, clave)
  {
    if s == [] || clave(x) <= clave(s[0]) then [x] + s
    else
      assert s == [s[0]] + s[1..];
      [s[0]] + Insertar(x, s[1..], clave)
  }

  /** `ORDER BY clave ASC`: an ordered permutation of the rows. */
  function OrdenarPor<T(==)>(s: seq<T>, clave: T -> int): (r: seq<T>)
    ensures multiset(r) == multiset(s)
    ensures Ordenada(r, clave)
  {
    if s == [] then []
    else
      assert s == [s[0]] + s[1..];
      Insertar(s[0], OrdenarPor(s[1..], clave), clave)
  }
}
