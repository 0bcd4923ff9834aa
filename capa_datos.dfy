/** The data tier as an in-memory record store: three tables, the lookups and
    listings the services use, and one insert per table. */
module CapaDatos {
  import opened Comun
  import opened Modelo
  import opened Colecciones

  // Row predicates and sort keys, named so that every use denotes the same function.

  function ConId(id: Id): Lote -> bool { (l: Lote) => l.id == id }
  function ConCodigo(codigo: string): Lote -> bool { (l: Lote) => l.datos.codigoLote == Some(codigo) }
  function ProcesoDe(loteId: Id): Proceso -> bool { (p: Proceso) => p.loteId == Some(loteId) }
  function EnvioDe(loteId: Id): Logistica -> bool { (e: Logistica) => e.datos.loteId == Some(loteId) }

  function FechaProceso(p: Proceso): int { p.fecha }
  function FechaProcesoDesc(p: Proceso): int { -p.fecha }
  function FechaSalida(e: Logistica): int { e.datos.fechaSalida }
  function FechaSalidaDesc(e: Logistica): int { -e.datos.fechaSalida }
  function CosechaDesc(l: Lote): int { -l.datos.fechaCosecha }

  function IdsDe(ls: seq<Lote>): set<Id>
  {
    set l | l in ls :: l.id
  }

  /** Primary keys: no id occurs twice in a table. */
  ghost predicate IdsUnicos(ls: seq<Lote>, ps: seq<Proceso>, es: seq<Logistica>)
  {
    && (forall i, j :: 0 <= i < j < |ls| ==> ls[i].id != ls[j].id)
    && (forall i, j :: 0 <= i < j < |ps| ==> ps[i].id != ps[j].id)
    && (forall i, j :: 0 <= i < j < |es| ==> es[i].id != es[j].id)
  }

  /** Every process and every shipment names a stored batch. */
  ghost predicate Referencias(ls: seq<Lote>, ps: seq<Proceso>, es: seq<Logistica>)
  {
    && (forall p :: p in ps ==> p.loteId.Some? && p.loteId.value in IdsDe(ls))
    && (forall e :: e in es ==> e.datos.loteId.Some? && e.datos.loteId.value in IdsDe(ls))
  }

  /** No process and no shipment is dated before the harvest of its batch. */
  ghost predicate Coherente(ls: seq<Lote>, ps: seq<Proceso>, es: seq<Logistica>)
  {
    && (forall p, l :: p in ps && l in ls && p.loteId == Some(l.id) ==>
          l.datos.fechaCosecha <= p.fecha)
    && (forall e, l :: e in es && l in ls && e.datos.loteId == Some(l.id) ==>
          l.datos.fechaCosecha <= e.datos.fechaSalida)
  }

  /** Every shipment is of a batch that has at least one process. */
  ghost predicate EnviosProcesados(ps: seq<Proceso>, es: seq<Logistica>)
  {
    forall e :: e in es ==> exists p :: p in ps && p.loteId == e.datos.loteId
  }

  ghost predicate TablasValidas(ls: seq<Lote>, ps: seq<Proceso>, es: seq<Logistica>)
  {
    IdsUnicos(ls, ps, es) && Referencias(ls, ps, es) && Coherente(ls, ps, es) && EnviosProcesados(ps, es)
  }

  /** With unique ids, a lookup by id finds the one row that has it. */
  lemma IdDetermina(ls: seq<Lote>, ps: seq<Proceso>, es: seq<Logistica>, l: Lote)
    requires IdsUnicos(ls, ps, es) && l in ls
    ensures Primero(ls, ConId(l.id)) == Some(l)
  {
    var r := Primero(ls, ConId(l.id));
    var j :| 0 <= j < |ls| && ls[j] == l;
    assert ConId(l.id)(ls[j]);
    var i :| 0 <= i < |ls| && ls[i] == r.value;
    assert ls[i].id == ls[j].id;
  }

  /** Storing a batch under an unused id keeps the tables valid. */
  lemma AgregarLoteConserva(ls: seq<Lote>, ps: seq<Proceso>, es: seq<Logistica>, l: Lote)
    requires TablasValidas(ls, ps, es)
    requires l.id !in IdsDe(ls)
    ensures TablasValidas(ls + [l], ps, es)
  {
    var ls' := ls + [l];
    assert IdsDe(ls') == IdsDe(ls) + {l.id};
    forall i, j | 0 <= i < j < |ls'| ensures ls'[i].id != ls'[j].id {
      if j == |ls| {
        assert ls'[i] in ls;
      }
    }
  }

  /** Storing a process under an unused id, for a stored batch harvested no later than
      the process date, keeps the tables valid. */
  lemma AgregarProcesoConserva(ls: seq<Lote>, ps: seq<Proceso>, es: seq<Logistica>, p: Proceso, l: Lote)
    requires TablasValidas(ls, ps, es)
    requires forall q :: q in ps ==> q.id != p.id
    requires l in ls && p.loteId == Some(l.id) && l.datos.fechaCosecha <= p.fecha
    ensures TablasValidas(ls, ps + [p], es)
  {
    var ps' := ps + [p];
    forall i, j | 0 <= i < j < |ps'| ensures ps'[i].id != ps'[j].id {
      if j == |ps| {
        assert ps'[i] in ps;
      }
    }
    forall q, k | q in ps' && k in ls && q.loteId == Some(k.id)
      ensures k.datos.fechaCosecha <= q.fecha
    {
      if q == p {
        IdDetermina(ls, ps, es, k);
        IdDetermina(ls, ps, es, l);
      }
    }
    forall f | f in es ensures exists q :: q in ps' && q.loteId == f.datos.loteId {
      var q :| q in ps && q.loteId == f.datos.loteId;
      assert q in ps';
    }
  }

  /** Storing a shipment under an unused id, for a stored batch that has a process and
      was harvested no later than the departure date, keeps the tables valid. */
  lemma AgregarEnvioConserva(ls: seq<Lote>, ps: seq<Proceso>, es: seq<Logistica>, e: Logistica, l: Lote)
    requires TablasValidas(ls, ps, es)
    requires forall f :: f in es ==> f.id != e.id
    requires l in ls && e.datos.loteId == Some(l.id) && l.datos.fechaCosecha <= e.datos.fechaSalida
    requires exists p :: p in ps && p.loteId == e.datos.loteId
    ensures TablasValidas(ls, ps, es + [e])
  {
    var es' := es + [e];
    forall i, j | 0 <= i < j < |es'| ensures es'[i].id != es'[j].id {
      if j == |es| {
        assert es'[i] in es;
      }
    }
    forall f, k | f in es' && k in ls && f.datos.loteId == Some(k.id)
      ensures k.datos.fechaCosecha <= f.datos.fechaSalida
    {
      if f == e {
        IdDetermina(ls, ps, es, k);
        IdDetermina(ls, ps, es, l);
      }
    }
  }

  class Almacen {
    var lotes: seq<Lote>
    var procesos: seq<Proceso>
    var logistica: seq<Logistica>

    ghost predicate Valid()
      reads this
    {
      TablasValidas(lotes, procesos, logistica)
    }

    constructor ()
      ensures lotes == [] && procesos == [] && logistica == []
      ensures Valid()
    {
      lotes, procesos, logistica := [], [], [];
    }

    /** A uuid that no stored row carries. */
    predicate IdLibre(id: Id)
      reads this
    {
      && id !in IdsDe(lotes)
      && (forall p :: p in procesos ==> p.id != id)
      && (forall e :: e in logistica ==> e.id != id)
    }

    /** `GET /data/lotes/:id`: the batch with that id, if one is stored. */
    function LotePorId(id: Id): (r: Option<Lote>)
      reads this
      ensures r.Some? ==> r.value in lotes && r.value.id == id
      ensures r.None? <==> id !in IdsDe(lotes)
    {
      Primero(lotes, ConId(id))
    }

    /** `GET /data/lotes/codigo/:codigoLote`: a stored batch with that code. */
    function LotePorCodigo(codigo: string): (r: Option<Lote>)
      reads this
      ensures r.Some? ==> r.value in lotes && r.value.datos.codigoLote == Some(codigo)
      ensures r.None? <==> forall i :: 0 <= i < |lotes| ==> lotes[i].datos.codigoLote != Some(codigo)
    {
      Primero(lotes, ConCodigo(codigo))
    }

    /** `GET /data/lotes`: every batch, latest harvest first. */
    function TodosLosLotes(): (r: seq<Lote>)
      reads this
      ensures multiset(r) == multiset(lotes)
      ensures forall i :: 0 < i < |r| ==> r[i - 1].datos.fechaCosecha >= r[i].datos.fechaCosecha
    {
      OrdenarPor(lotes, CosechaDesc)
    }

    /** `GET /data/procesos/lote/:loteId`: the batch's processes, earliest first. */
    function ProcesosPorLote(loteId: Id): (r: seq<Proceso>)
      reads this
      ensures multiset(r) == multiset(Filtrar(procesos, ProcesoDe(loteId)))
      ensures forall p :: p in r ==> p in procesos && p.loteId == Some(loteId)
      ensures forall i :: 0 <= i < |procesos| && procesos[i].loteId == Some(loteId) ==> procesos[i] in r
      ensures Ordenada(r, FechaProceso)
    {
      var f := Filtrar(procesos, ProcesoDe(loteId));
      var r := OrdenarPor(f, FechaProceso);
      assert forall p :: p in r ==> p in multiset(f);
      assert forall i :: 0 <= i < |procesos| && procesos[i].loteId == Some(loteId) ==> procesos[i] in multiset(r);
      r
    }

    /** `GET /data/procesos`: every process, latest first. */
    function TodosLosProcesos(): (r: seq<Proceso>)
      reads this
      ensures multiset(r) == multiset(procesos)
      ensures forall i :: 0 < i < |r| ==> r[i - 1].fecha >= r[i].fecha
    {
      OrdenarPor(procesos, FechaProcesoDesc)
    }

    /** `GET /data/logistica/lote/:loteId`: the batch's shipments, earliest departure first. */
    function LogisticaPorLote(loteId: Id): (r: seq<Logistica>)
      reads this
      ensures multiset(r) == multiset(Filtrar(logistica, EnvioDe(loteId)))
      ensures forall e :: e in r ==> e in logistica && e.datos.loteId == Some(loteId)
      ensures forall i :: 0 <= i < |logistica| && logistica[i].datos.loteId == Some(loteId) ==> logistica[i] in r
      ensures Ordenada(r, FechaSalida)
    {
      var f := Filtrar(logistica, EnvioDe(loteId));
      var r := OrdenarPor(f, FechaSalida);
      assert forall e :: e in r ==> e in multiset(f);
      assert forall i :: 0 <= i < |logistica| && logistica[i].datos.loteId == Some(loteId) ==> logistica[i] in multiset(r);
      r
    }

    /** `GET /data/logistica`: every shipment, latest departure first. */
    function TodaLaLogistica(): (r: seq<Logistica>)
      reads this
      ensures multiset(r) == multiset(logistica)
      ensures forall i :: 0 < i < |r| ==> r[i - 1].datos.fechaSalida >= r[i].datos.fechaSalida
    {
      OrdenarPor(logistica, FechaSalidaDesc)
    }

    /** `POST /data/lotes`: one row appended, nothing else touched. */
    method InsertarLote(l: Lote) returns (ack: Ack)
      modifies this
      ensures lotes == old(lotes) + [l]
      ensures procesos == old(procesos) && logistica == old(logistica)
      ensures ack == Ack(l.id, 1)
    {
      lotes := lotes + [l];
      ack := Ack(l.id, 1);
    }

    /** `POST /data/procesos` */
    method InsertarProceso(p: Proceso) returns (ack: Ack)
      modifies this
      ensures procesos == old(procesos) + [p]
      ensures lotes == old(lotes) && logistica == old(logistica)
      ensures ack == Ack(p.id, 1)
    {
      procesos := procesos + [p];
      ack := Ack(p.id, 1);
    }

    /** `POST /data/logistica` */
    method InsertarLogistica(e: Logistica) returns (ack: Ack)
      modifies this
      ensures logistica == old(logistica) + [e]
      ensures lotes == old(lotes) && procesos == old(procesos)
      ensures ack == Ack(e.id, 1)
    {
      logistica := logistica + [e];
      ack := Ack(e.id, 1);
    }
  }
}
