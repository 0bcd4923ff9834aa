/** The shape shared by the three field validators: a fixed, ordered table of rules,
    each a condition and the message pushed onto `errores` when it fails. */
module Validacion {
  import opened Texto

  datatype Regla = Regla(cumple: bool, mensaje: string)

  /** What checking one rule pushes: its message when it fails, nothing otherwise. */
  function Reporte(r: Regla): seq<string>
  {
    if r.cumple then [] else [r.mensaje]
  }

  /** Every rule of the table holds. */
  predicate Cumplidas(reglas: seq<Regla>)
  {
    forall i :: 0 <= i < |reglas| ==> reglas[i].cumple
  }

  /** The messages of the failing rules, in table order (the final `errores`). */
  function Violaciones(reglas: seq<Regla>): (msgs: seq<string>)
    ensures |msgs| <= |reglas|
    ensures msgs == [] <==> Cumplidas(reglas)
    ensures forall k :: 0 <= k < |msgs| ==>
              exists i :: 0 <= i < |reglas| && !reglas[i].cumple && reglas[i].mensaje == msgs[k]
  {
    if reglas == [] then []
    else
      var previas := reglas[..|reglas| - 1];
      var ultima := reglas[|reglas| - 1];
      assert forall i :: 0 <= i < |previas| ==> previas[i] == reglas[i];
      Violaciones(previas) + Reporte(ultima)
  }

  /** Checking one more rule appends its message exactly when it fails. */
  lemma AgregarRegla(reglas: seq<Regla>, r: Regla)
    ensures Violaciones(reglas + [r]) == Violaciones(reglas) + Reporte(r)
  {
    assert (reglas + [r])[..|reglas|] == reglas;
  }

  /** Checking the rules one at a time: after rule `k` the messages are those of the
      first `k + 1` rules. */
  lemma SiguienteRegla(reglas: seq<Regla>, k: int)
    requires 0 <= k < |reglas|
    ensures Violaciones(reglas[..k + 1]) == Violaciones(reglas[..k]) + Reporte(reglas[k])
  {
    assert reglas[..k + 1] == reglas[..k] + [reglas[k]];
    AgregarRegla(reglas[..k], reglas[k]);
  }

  /** A table checked rule by rule: the messages of a table of four, six or seven
      rules are the pushes of its rules in order. */
  lemma ViolacionesCuatro(reglas: seq<Regla>)
    requires |reglas| == 4
    ensures Violaciones(reglas) ==
              Reporte(reglas[0]) + Reporte(reglas[1]) + Reporte(reglas[2]) + Reporte(reglas[3])
  {
    assert reglas[..0] == [];
    SiguienteRegla(reglas, 0);
    assert Violaciones(reglas[..1]) == Reporte(reglas[0]);
    SiguienteRegla(reglas, 1);
    assert Violaciones(reglas[..2]) == Reporte(reglas[0]) + Reporte(reglas[1]);
    SiguienteRegla(reglas, 2);
    assert Violaciones(reglas[..3]) == Reporte(reglas[0]) + Reporte(reglas[1]) + Reporte(reglas[2]);
    SiguienteRegla(reglas, 3);
    assert reglas[..4] == reglas;
  }

  lemma ViolacionesSeis(reglas: seq<Regla>)
    requires |reglas| == 6
    ensures Violaciones(reglas) ==
              Reporte(reglas[0]) + Reporte(reglas[1]) + Reporte(reglas[2]) + Reporte(reglas[3])
              + Reporte(reglas[4]) + Reporte(reglas[5])
  {
    ViolacionesCuatro(reglas[..4]);
    SiguienteRegla(reglas, 4);
    SiguienteRegla(reglas, 5);
    assert reglas[..6] == reglas;
  }

  lemma ViolacionesSiete(reglas: seq<Regla>)
    requires |reglas| == 7
    ensures Violaciones(reglas) ==
              Reporte(reglas[0]) + Reporte(reglas[1]) + Reporte(reglas[2]) + Reporte(reglas[3])
              + Reporte(reglas[4]) + Reporte(reglas[5]) + Reporte(reglas[6])
  {
    ViolacionesSeis(reglas[..6]);
    SiguienteRegla(reglas, 6);
    assert reglas[..7] == reglas;
  }

  /** The error a command raises on failed validation: a fixed prefix and the
      messages joined by a comma and a space. */
  function MensajeValidacion(errores: seq<string>): string
  {
    "Validación fallida: " + Unir(errores, ", ")
  }

  /** The rules are checked in a fixed order: the messages of a table split in two
      are those of the first part followed by those of the second. */
  lemma {:induction false} ViolacionesConcatenadas(a: seq<Regla>, b: seq<Regla>)
    ensures Violaciones(a + b) == Violaciones(a) + Violaciones(b)
  {
    if b == [] {
      assert a + b == a;
    } else {
      var b' := b[..|b| - 1];
      var r := b[|b| - 1];
      calc {
        Violaciones(a + b);
        == { assert a + b == (a + b') + [r]; }
        Violaciones((a + b') + [r]);
        == { AgregarRegla(a + b', r); }
        Violaciones(a + b') + Reporte(r);
        == { ViolacionesConcatenadas(a, b'); }
        (Violaciones(a) + Violaciones(b')) + Reporte(r);
        == { AgregarRegla(b', r); assert b' + [r] == b; }
        Violaciones(a) + Violaciones(b);
      }
    }
  }

  predicate MensajesDistintos(reglas: seq<Regla>)
  {
    forall i, j :: 0 <= i < j < |reglas| ==> reglas[i].mensaje != reglas[j].mensaje
  }

  /** With distinct messages, a rule's message is reported exactly when that rule
      fails, whatever the other rules do. */
  lemma {:induction false} MensajeReportado(reglas: seq<Regla>, i: int)
    requires MensajesDistintos(reglas)
    requires 0 <= i < |reglas|
    ensures reglas[i].mensaje in Violaciones(reglas) <==> !reglas[i].cumple
  {
    var previas := reglas[..|reglas| - 1];
    var ultima := reglas[|reglas| - 1];
    assert reglas == previas + [ultima];
    AgregarRegla(previas, ultima);
    if i == |reglas| - 1 {
      assert reglas[i].mensaje !in Violaciones(previas);
    } else {
      assert MensajesDistintos(previas);
      assert previas[i] == reglas[i];
      MensajeReportado(previas, i);
    }
  }
}
