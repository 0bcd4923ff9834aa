/** The full traceability report of a batch: its origin (backwards), its processes
    (internal) and its shipments (forwards), with a completeness status. */
module TrazabilidadService {
  import opened Comun
  import opened Modelo
  import opened Colecciones
  import opened CapaDatos

  // ---- the report ----

  datatype Nivel = Incompleto | Parcial | Completo

  /** `calcularEstadoTrazabilidad`'s result. */
  datatype EstadoTrazabilidad = EstadoTrazabilidad(
    estado: Nivel,
    porcentaje: int,
    tieneOrigen: bool,
    tieneProcesos: bool,
    tieneLogistica: bool,
    mensaje: string)

  /** `trazabilidadHaciaAtras`: where the batch comes from. */
  datatype Origen = Origen(
    tipo: string,
    producto: Option<string>,
    finca: Option<string>,
    ubicacion: Option<string>,
    fechaCosecha: Day,
    responsable: Option<string>,
    cantidadKg: Option<real>)

  /** One entry of `trazabilidadInterna.procesos`. */
  datatype ProcesoVista = ProcesoVista(
    id: Id,
    tipoProceso: Option<string>,
    fecha: Day,
    responsable: Option<string>,
    parametros: Json,
    observaciones: Option<string>)

  /** One entry of `trazabilidadHaciaAdelante.envios`. */
  datatype EnvioVista = EnvioVista(
    id: Id,
    fechaSalida: Day,
    destino: Option<string>,
    transportista: Option<string>,
    temperaturaTransporte: Option<real>,
    fechaEntrega: Option<Day>)

  datatype Interna = Interna(tipo: string, totalProcesos: nat, procesos: seq<ProcesoVista>)

  datatype Adelante = Adelante(tipo: string, totalEnvios: nat, envios: seq<EnvioVista>)

  datatype Trazabilidad = Trazabilidad(
    loteId: Id,
    codigoLote: Option<string>,
    haciaAtras: Origen,
    interna: Interna,
    haciaAdelante: Adelante,
    estadoTrazabilidad: EstadoTrazabilidad)

  const MsgCompleta := "Trazabilidad completa registrada"
  const MsgFaltaDistribucion := "Falta registrar distribución"
  const MsgFaltaTransformacion := "Falta registrar transformación y distribución"
  const MsgSinProcesosNiDistribucion := "Lote registrado, sin procesos ni distribución"
  const PrefijoError := "Error al obtener trazabilidad: "
  const MsgNoEncontrado := "Lote no encontrado"

  // ---- generarMensajeEstado ----

  /** `generarMensajeEstado`: the first matching case of the chain of tests. A batch
      with an origin and shipments but no process gets the "transformation and
      distribution missing" text. */
  function GenerarMensajeEstado(origen: bool, procesos: bool, logistica: bool): (m: string)
    ensures m == MsgCompleta <==> origen && procesos && logistica
    ensures m == MsgFaltaDistribucion <==> origen && procesos && !logistica
    ensures m == MsgFaltaTransformacion <==> origen && !procesos
    ensures m == MsgSinProcesosNiDistribucion <==> !origen
  {
    // Lengths 32, 28, 45 and 45; the last two differ in their 32nd character.
    assert |MsgCompleta| == 32 && |MsgFaltaDistribucion| == 28;
    assert |MsgFaltaTransformacion| == |MsgSinProcesosNiDistribucion| == 45;
    assert MsgFaltaTransformacion[31] != MsgSinProcesosNiDistribucion[31];
    if origen && procesos && logistica then MsgCompleta
    else if origen && procesos then MsgFaltaDistribucion
    else if origen then MsgFaltaTransformacion
    else MsgSinProcesosNiDistribucion
  }

  // ---- calcularEstadoTrazabilidad ----

  /** How many of the three stages are present: the reference the status is
      checked against. */
  function Presentes(origen: bool, procesos: bool, logistica: bool): nat
  {
    (if origen then 1 else 0) + (if procesos then 1 else 0) + (if logistica then 1 else 0)
  }

  /** `calcularEstadoTrazabilidad`: 33 points for an origin, 33 for processes, 34 for
      shipments; COMPLETO at 100, PARCIAL from 66, INCOMPLETO below. */
  function CalcularEstadoTrazabilidad(lote: Option<Lote>, procesos: seq<Proceso>, logistica: seq<Logistica>)
    : (e: EstadoTrazabilidad)
    ensures e.tieneOrigen == lote.Some?
    ensures e.tieneProcesos == (|procesos| > 0) && e.tieneLogistica == (|logistica| > 0)
    ensures 0 <= e.porcentaje <= 100
    ensures e.porcentaje == 33 * Presentes(e.tieneOrigen, e.tieneProcesos, e.tieneLogistica)
                            + (if e.tieneLogistica then 1 else 0)
    ensures e.porcentaje == 100 <==> Presentes(e.tieneOrigen, e.tieneProcesos, e.tieneLogistica) == 3
    ensures e.estado == Completo <==> Presentes(e.tieneOrigen, e.tieneProcesos, e.tieneLogistica) == 3
    ensures e.estado == Parcial <==> Presentes(e.tieneOrigen, e.tieneProcesos, e.tieneLogistica) == 2
    ensures e.estado == Incompleto <==> Presentes(e.tieneOrigen, e.tieneProcesos, e.tieneLogistica) <= 1
    ensures e.mensaje == GenerarMensajeEstado(e.tieneOrigen, e.tieneProcesos, e.tieneLogistica)
  {
    var tieneOrigen := lote.Some?;
    var tieneProcesos := |procesos| > 0;
    var tieneLogistica := |logistica| > 0;
    var porcentaje := (if tieneOrigen then 33 else 0) + (if tieneProcesos then 33 else 0)
                      + (if tieneLogistica then 34 else 0);
    var estado := if porcentaje == 100 then Completo else if porcentaje >= 66 then Parcial else Incompleto;
    EstadoTrazabilidad(estado, porcentaje, tieneOrigen, tieneProcesos, tieneLogistica,
                       GenerarMensajeEstado(tieneOrigen, tieneProcesos, tieneLogistica))
  }

  // ---- obtenerTrazabilidadCompleta ----

  function VistaProceso(p: Proceso): ProcesoVista
  {
    ProcesoVista(p.id, p.tipoProceso, p.fecha, p.responsable, p.parametros, p.observaciones)
  }

  function VistaEnvio(e: Logistica): EnvioVista
  {
    EnvioVista(e.id, e.datos.fechaSalida, e.datos.destino, e.datos.transportista,
               e.datos.temperaturaTransporte, e.datos.fechaEntrega)
  }

  /** The report's view of each process, in the order of the listing. */
  function VistasProcesos(ps: seq<Proceso>): seq<ProcesoVista>
  {
    seq(|ps|, i requires 0 <= i < |ps| => VistaProceso(ps[i]))
  }

  /** The report's view of each shipment, in the order of the listing. */
  function VistasEnvios(es: seq<Logistica>): seq<EnvioVista>
  {
    seq(|es|, i requires 0 <= i < |es| => VistaEnvio(es[i]))
  }

  /** The report assembled from the batch and the two listings the data tier returns. */
  function Componer(lote: Lote, procesos: seq<Proceso>, logistica: seq<Logistica>): Trazabilidad
  {
    Trazabilidad(
      lote.id,
      lote.datos.codigoLote,
      Origen("ORIGEN", lote.datos.producto, lote.datos.finca, lote.datos.ubicacion,
             lote.datos.fechaCosecha, lote.datos.responsable, lote.datos.cantidadKg),
      Interna("TRANSFORMACIÓN", |procesos|, VistasProcesos(procesos)),
      Adelante("DISTRIBUCIÓN", |logistica|, VistasEnvios(logistica)),
      CalcularEstadoTrazabilidad(Some(lote), procesos, logistica))
  }

  /** The `catch` of both entry points: any error is rethrown with the prefix
      "Error al obtener trazabilidad: ". */
  function Envolver(r: Result<Trazabilidad>): Result<Trazabilidad>
  {
    match r
    case Ok(_) => r
    case Err(m) => Err(PrefijoError + m)
  }

  /** `obtenerTrazabilidadCompleta(loteId)`: the batch, its processes earliest first
      and its shipments earliest departure first; every failure is rethrown with the
      "Error al obtener trazabilidad: " prefix. */
  function ObtenerTrazabilidadCompleta(almacen: Almacen, loteId: Id): (r: Result<Trazabilidad>)
    reads almacen
    ensures r.Err? <==> loteId !in IdsDe(almacen.lotes)
    ensures r.Err? ==> r.message == PrefijoError + MsgNoEncontrado
    ensures r.Ok? ==>
              && r.value.loteId == loteId
              && (exists l :: l in almacen.lotes && l.id == loteId
                    && r.value.codigoLote == l.datos.codigoLote
                    && r.value.haciaAtras == Origen("ORIGEN", l.datos.producto, l.datos.finca, l.datos.ubicacion,
                                                    l.datos.fechaCosecha, l.datos.responsable, l.datos.cantidadKg))
              && r.value.interna.totalProcesos == |Filtrar(almacen.procesos, ProcesoDe(loteId))|
              && r.value.haciaAdelante.totalEnvios == |Filtrar(almacen.logistica, EnvioDe(loteId))|
              && r.value.estadoTrazabilidad.tieneOrigen
              && (r.value.estadoTrazabilidad.tieneProcesos <==> r.value.interna.totalProcesos > 0)
              && (r.value.estadoTrazabilidad.tieneLogistica <==> r.value.haciaAdelante.totalEnvios > 0)
              && r.value.interna.totalProcesos == |r.value.interna.procesos|
              && r.value.haciaAdelante.totalEnvios == |r.value.haciaAdelante.envios|
              && (forall v :: v in r.value.interna.procesos <==>
                    exists p :: p in almacen.procesos && p.loteId == Some(loteId) && v == VistaProceso(p))
              && (forall v :: v in r.value.haciaAdelante.envios <==>
                    exists e :: e in almacen.logistica && e.datos.loteId == Some(loteId) && v == VistaEnvio(e))
              && (forall i, j :: 0 <= i < j < |r.value.interna.procesos| ==>
                    r.value.interna.procesos[i].fecha <= r.value.interna.procesos[j].fecha)
              && (forall i, j :: 0 <= i < j < |r.value.haciaAdelante.envios| ==>
                    r.value.haciaAdelante.envios[i].fechaSalida <= r.value.haciaAdelante.envios[j].fechaSalida)
  {
    Envolver(
      match almacen.LotePorId(loteId)
      case None => Err(MsgNoEncontrado)
      case Some(lote) =>
        var procesos := almacen.ProcesosPorLote(loteId);
        var logistica := almacen.LogisticaPorLote(loteId);
        ListadoProcesos(almacen.procesos, procesos, loteId);
        ListadoEnvios(almacen.logistica, logistica, loteId);
        assert |procesos| == |multiset(procesos)| == |Filtrar(almacen.procesos, ProcesoDe(loteId))|;
        assert |logistica| == |multiset(logistica)| == |Filtrar(almacen.logistica, EnvioDe(loteId))|;
        Ok(Componer(lote, procesos, logistica)))
  }

  /** The processes of the report are exactly the batch's stored processes, earliest
      first. */
  lemma {:induction false} ListadoProcesos(todos: seq<Proceso>, procesos: seq<Proceso>, loteId: Id)
    requires forall p :: p in procesos ==> p in todos && p.loteId == Some(loteId)
    requires forall i :: 0 <= i < |todos| && todos[i].loteId == Some(loteId) ==> todos[i] in procesos
    requires Ordenada(procesos, FechaProceso)
    ensures forall v :: v in VistasProcesos(procesos) <==>
              exists p :: p in todos && p.loteId == Some(loteId) && v == VistaProceso(p)
    ensures forall i, j :: 0 <= i < j < |procesos| ==>
              VistasProcesos(procesos)[i].fecha <= VistasProcesos(procesos)[j].fecha
  {
    var vs := VistasProcesos(procesos);
    forall v | v in vs ensures exists p :: p in todos && p.loteId == Some(loteId) && v == VistaProceso(p) {
      var i :| 0 <= i < |vs| && vs[i] == v;
      assert procesos[i] in procesos;
    }
    forall p | p in todos && p.loteId == Some(loteId) ensures VistaProceso(p) in vs {
      var k :| 0 <= k < |todos| && todos[k] == p;
      var i :| 0 <= i < |procesos| && procesos[i] == p;
      assert vs[i] == VistaProceso(p);
    }
    forall i, j | 0 <= i < j < |procesos| ensures vs[i].fecha <= vs[j].fecha {
      OrdenadaEntrePares(procesos, FechaProceso, i, j);
    }
  }

  /** The shipments of the report are exactly the batch's stored shipments, earliest
      departure first. */
  lemma {:induction false} ListadoEnvios(todos: seq<Logistica>, envios: seq<Logistica>, loteId: Id)
    requires forall e :: e in envios ==> e in todos && e.datos.loteId == Some(loteId)
    requires forall i :: 0 <= i < |todos| && todos[i].datos.loteId == Some(loteId) ==> todos[i] in envios
    requires Ordenada(envios, FechaSalida)
    ensures forall v :: v in VistasEnvios(envios) <==>
              exists e :: e in todos && e.datos.loteId == Some(loteId) && v == VistaEnvio(e)
    ensures forall i, j :: 0 <= i < j < |envios| ==>
              VistasEnvios(envios)[i].fechaSalida <= VistasEnvios(envios)[j].fechaSalida
  {
    var vs := VistasEnvios(envios);
    forall v | v in vs ensures exists e :: e in todos && e.datos.loteId == Some(loteId) && v == VistaEnvio(e) {
      var i :| 0 <= i < |vs| && vs[i] == v;
      assert envios[i] in envios;
    }
    forall e | e in todos && e.datos.loteId == Some(loteId) ensures VistaEnvio(e) in vs {
      var k :| 0 <= k < |todos| && todos[k] == e;
      var i :| 0 <= i < |envios| && envios[i] == e;
      assert vs[i] == VistaEnvio(e);
    }
    forall i, j | 0 <= i < j < |envios| ensures vs[i].fechaSalida <= vs[j].fechaSalida {
      OrdenadaEntrePares(envios, FechaSalida, i, j);
    }
  }

  /** On a valid store the report of a stored batch is never below PARCIAL when it has
      shipments, and its message never claims distribution is missing while shipments
      exist: a shipment is only stored for a processed batch. */
  lemma EstadoEnAlmacenValido(almacen: Almacen, loteId: Id)
    requires almacen.Valid() && loteId in IdsDe(almacen.lotes)
    ensures var r := ObtenerTrazabilidadCompleta(almacen, loteId);
      && r.Ok?
      && (r.value.estadoTrazabilidad.tieneLogistica ==> r.value.estadoTrazabilidad.tieneProcesos)
      && r.value.estadoTrazabilidad.porcentaje in {33, 66, 100}
      && r.value.estadoTrazabilidad.mensaje != MsgSinProcesosNiDistribucion
      && (r.value.estadoTrazabilidad.mensaje == MsgFaltaTransformacion ==>
            r.value.haciaAdelante.envios == [])
  {
    var r := ObtenerTrazabilidadCompleta(almacen, loteId);
    var t := r.value;
    if t.estadoTrazabilidad.tieneLogistica {
      var v := t.haciaAdelante.envios[0];
      assert v in t.haciaAdelante.envios;
      var e :| e in almacen.logistica && e.datos.loteId == Some(loteId) && v == VistaEnvio(e);
      var p :| p in almacen.procesos && p.loteId == e.datos.loteId;
      assert VistaProceso(p) in t.interna.procesos;
    }
  }

  // ---- obtenerTrazabilidadPorCodigo ----

  /** `obtenerTrazabilidadPorCodigo(codigoLote)`: look the batch up by code, then build
      its report by id; a failure of that inner call would be prefixed a second time. */
  function ObtenerTrazabilidadPorCodigo(almacen: Almacen, codigo: string): (r: Result<Trazabilidad>)
    reads almacen
    ensures r.Err? <==> forall l :: l in almacen.lotes ==> l.datos.codigoLote != Some(codigo)
    ensures r.Err? ==> r.message == PrefijoError + MsgNoEncontrado
    ensures r.Ok? ==> exists l :: l in almacen.lotes && l.datos.codigoLote == Some(codigo)
                                   && r == ObtenerTrazabilidadCompleta(almacen, l.id)
  {
    Envolver(
      match almacen.LotePorCodigo(codigo)
      case None => Err(MsgNoEncontrado)
      case Some(lote) => ObtenerTrazabilidadCompleta(almacen, lote.id))
  }

  /** On a valid store the report found by code is the report of a batch carrying
      that code. */
  lemma PorCodigoEsDelLote(almacen: Almacen, codigo: string)
    requires almacen.Valid()
    ensures var r := ObtenerTrazabilidadPorCodigo(almacen, codigo);
      r.Ok? ==> r.value.codigoLote == Some(codigo) && r.value.loteId in IdsDe(almacen.lotes)
  {
    var lote := almacen.LotePorCodigo(codigo);
    if lote.Some? {
      IdDetermina(almacen.lotes, almacen.procesos, almacen.logistica, lote.value);
    }
  }
}
