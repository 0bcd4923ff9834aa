/** Business rules for processing steps (procesos): field validation, temporal
    coherence with the batch's harvest, and the create command. */
module ProcesoService {
  import opened Comun
  import opened Texto
  import opened Validacion
  import opened Modelo
  import opened CapaDatos

  // ---- validarProceso ----

  /** The accepted process kinds, in the order the message lists them. */
  const TiposValidos: seq<string> := ["lavado", "empaquetado", "control_calidad", "clasificacion", "secado"]

  const MsgLoteId := "El ID del lote es obligatorio"
  const MsgTipo := "Tipo de proceso debe ser uno de: " + Unir(TiposValidos, ", ")
  const MsgFechaFutura := "La fecha del proceso no puede ser en el futuro"
  const MsgResponsable := "El responsable es obligatorio"
  const MsgLoteInexistente := "El lote especificado no existe"
  const MsgAnteriorCosecha := "La fecha del proceso no puede ser anterior a la fecha de cosecha"

  /** `tipoProceso` is given and is one of the accepted kinds (compared as is, untrimmed). */
  predicate TipoAceptado(tipo: Option<string>)
  {
    tipo.Some? && tipo.value in TiposValidos
  }

  /** The four process rules, in the order they are checked. */
  function ReglasProceso(d: ProcesoDatos, ahora: Day): seq<Regla>
  {
    [ Regla(Presente(d.loteId), MsgLoteId),
      Regla(TipoAceptado(d.tipoProceso), MsgTipo),
      Regla(d.fecha <= ahora, MsgFechaFutura),
      Regla(Presente(d.responsable), MsgResponsable) ]
  }

  /** The body passes `validarProceso`: all four rules hold. */
  predicate ProcesoValido(d: ProcesoDatos, ahora: Day)
  {
    Cumplidas(ReglasProceso(d, ahora))
  }

  /** `validarProceso`: one message per failed rule, in rule order (the per-message
      consequences are `MensajesProceso`). */
  method ValidarProceso(d: ProcesoDatos, ahora: Day) returns (errores: seq<string>)
    ensures errores == Violaciones(ReglasProceso(d, ahora))
  {
    ghost var reglas := ReglasProceso(d, ahora);
    errores := [];
    errores := errores + (if !Presente(d.loteId) then [MsgLoteId] else []);
    assert errores == Reporte(reglas[0]);
    errores := errores + (if !TipoAceptado(d.tipoProceso) then [MsgTipo] else []);
    assert errores == Reporte(reglas[0]) + Reporte(reglas[1]);
    errores := errores + (if d.fecha > ahora then [MsgFechaFutura] else []);
    assert errores == Reporte(reglas[0]) + Reporte(reglas[1]) + Reporte(reglas[2]);
    errores := errores + (if !Presente(d.responsable) then [MsgResponsable] else []);
    assert errores == Reporte(reglas[0]) + Reporte(reglas[1]) + Reporte(reglas[2]) + Reporte(reglas[3]);
    ViolacionesCuatro(reglas);
  }

  /** Each process message is reported exactly when its own rule fails, independently
      of the other fields. */
  lemma MensajesProceso(d: ProcesoDatos, ahora: Day)
    ensures var errores := Violaciones(ReglasProceso(d, ahora));
      && |errores| <= 4
      && (MsgLoteId in errores <==> !Presente(d.loteId))
      && (MsgTipo in errores <==> !TipoAceptado(d.tipoProceso))
      && (MsgFechaFutura in errores <==> d.fecha > ahora)
      && (MsgResponsable in errores <==> !Presente(d.responsable))
  {
    var reglas := ReglasProceso(d, ahora);
    // The messages have different lengths, except the two of 29 characters that
    // begin "El ", which differ in their fourth.
    assert |MsgLoteId| == |MsgResponsable| == 29 && |MsgFechaFutura| == 46 && |MsgTipo| == 92;
    assert MsgLoteId[3] != MsgResponsable[3];
    assert MensajesDistintos(reglas);
    MensajeReportado(reglas, 0);
    MensajeReportado(reglas, 1);
    MensajeReportado(reglas, 2);
    MensajeReportado(reglas, 3);
  }

  // ---- validarCoherenciaTemporal ----

  /** `validarCoherenciaTemporal(loteId, fecha)`: the batch is looked up by id; it must
      exist and must not have been harvested after the process date. */
  function CoherenciaProceso(almacen: Almacen, loteId: string, fecha: Day): (o: Outcome)
    reads almacen
    ensures o == Fail(MsgLoteInexistente) <==> loteId !in IdsDe(almacen.lotes)
    ensures o.Fail? ==> o.message == MsgLoteInexistente || o.message == MsgAnteriorCosecha
    ensures o.Pass? ==> exists l :: l in almacen.lotes && l.id == loteId && l.datos.fechaCosecha <= fecha
  {
    match almacen.LotePorId(loteId)
    case None => Fail(MsgLoteInexistente)
    case Some(lote) =>
      if fecha < lote.datos.fechaCosecha then Fail(MsgAnteriorCosecha) else Pass
  }

  /** On a valid store the check is exact: it passes precisely when the batch exists
      and its harvest is not later than the process date. */
  lemma CoherenciaProcesoExacta(almacen: Almacen, loteId: string, fecha: Day)
    requires almacen.Valid()
    ensures CoherenciaProceso(almacen, loteId, fecha).Pass? <==>
              exists l :: l in almacen.lotes && l.id == loteId && l.datos.fechaCosecha <= fecha
  {
    if l :| l in almacen.lotes && l.id == loteId && l.datos.fechaCosecha <= fecha {
      IdDetermina(almacen.lotes, almacen.procesos, almacen.logistica, l);
    }
  }

  // ---- crearProceso ----

  /** The row stored for a process: the body under the fresh id, with its parameters
      (or the empty object when none are given) serialised. */
  function ProcesoAPersistir(id: Id, d: ProcesoDatos): Proceso
  {
    Proceso(id, d.loteId, d.tipoProceso, d.fecha, d.responsable,
            Json(d.parametros.GetOr(SinParametros)), d.observaciones)
  }

  /** What `crearProceso` decides before writing: the validation failure, else the
      outcome of the temporal-coherence check. */
  function AdmisionProceso(almacen: Almacen, d: ProcesoDatos, ahora: Day): (o: Outcome)
    reads almacen
    ensures !ProcesoValido(d, ahora) ==> o == Fail(MensajeValidacion(Violaciones(ReglasProceso(d, ahora))))
    ensures ProcesoValido(d, ahora) && o.Fail? ==>
              o.message == MsgLoteInexistente || o.message == MsgAnteriorCosecha
    ensures o.Pass? ==>
              && ProcesoValido(d, ahora)
              && exists l :: l in almacen.lotes && Some(l.id) == d.loteId && l.datos.fechaCosecha <= d.fecha
  {
    if !ProcesoValido(d, ahora) then Fail(MensajeValidacion(Violaciones(ReglasProceso(d, ahora))))
    else
      assert ReglasProceso(d, ahora)[0].cumple;
      CoherenciaProceso(almacen, d.loteId.value, d.fecha)
  }

  /** On a valid store `crearProceso` writes exactly when the body is valid and names a
      stored batch harvested no later than the process date. */
  lemma AdmisionProcesoExacta(almacen: Almacen, d: ProcesoDatos, ahora: Day)
    requires almacen.Valid()
    ensures AdmisionProceso(almacen, d, ahora).Pass? <==>
              && ProcesoValido(d, ahora)
              && exists l :: l in almacen.lotes && Some(l.id) == d.loteId && l.datos.fechaCosecha <= d.fecha
  {
    if ProcesoValido(d, ahora) {
      assert ReglasProceso(d, ahora)[0].cumple;
      CoherenciaProcesoExacta(almacen, d.loteId.value, d.fecha);
    }
  }

  /** `crearProceso`: validate, check temporal coherence, then store the process
      under the fresh id with its parameters serialised. */
  method CrearProceso(almacen: Almacen, d: ProcesoDatos, ahora: Day, idNuevo: Id)
    returns (r: Result<Ack>)
    requires almacen.Valid() && almacen.IdLibre(idNuevo)
    modifies almacen
    ensures almacen.Valid()
    ensures almacen.lotes == old(almacen.lotes) && almacen.logistica == old(almacen.logistica)
    ensures old(AdmisionProceso(almacen, d, ahora)).Fail? ==>
              r == Err(old(AdmisionProceso(almacen, d, ahora)).message) && almacen.procesos == old(almacen.procesos)
    ensures old(AdmisionProceso(almacen, d, ahora)).Pass? ==>
              && r == Ok(Ack(idNuevo, 1))
              && almacen.procesos == old(almacen.procesos) + [ProcesoAPersistir(idNuevo, d)]
  {
    var errores := ValidarProceso(d, ahora);
    if |errores| > 0 {
      return Err(MensajeValidacion(errores));
    }
    assert Presente(d.loteId) by { assert ReglasProceso(d, ahora)[0].cumple; }
    var coherencia := CoherenciaProceso(almacen, d.loteId.value, d.fecha);
    if coherencia.Fail? {
      return Err(coherencia.message);
    }
    var proceso := ProcesoAPersistir(idNuevo, d);
    ghost var lote := almacen.LotePorId(d.loteId.value).value;
    AgregarProcesoConserva(almacen.lotes, almacen.procesos, almacen.logistica, proceso, lote);
    var ack := almacen.InsertarProceso(proceso);
    r := Ok(ack);
  }
}
