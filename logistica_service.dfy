/** Business rules for shipments (logística): field validation, the requirement that
    the batch was processed, temporal coherence with harvest and processes, and the
    create command. */
module LogisticaService {
  import opened Comun
  import opened Texto
  import opened Validacion
  import opened Modelo
  import opened Colecciones
  import opened CapaDatos

  // ---- validarLogistica ----

  const MsgLoteId := "El ID del lote es obligatorio"
  const MsgSalidaFutura := "La fecha de salida no puede ser en el futuro"
  const MsgDestino := "El destino es obligatorio"
  const MsgTransportista := "El transportista es obligatorio"
  const MsgTemperatura := "La temperatura de transporte debe estar entre -20°C y 50°C"
  const MsgEntrega := "La fecha de entrega no puede ser anterior a la fecha de salida"
  const MsgSinProcesos := "No se puede registrar logística para un lote sin procesos de transformación"
  const MsgLoteInexistente := "El lote especificado no existe"
  const MsgAnteriorCosecha := "La fecha de salida no puede ser anterior a la fecha de cosecha"
  const MsgAnteriorProceso := "La fecha de salida no puede ser anterior al último proceso"

  /** A temperature, when one is given (`!== undefined && !== null`), lies in [-20, 50]. */
  predicate TemperaturaAdmisible(temperatura: Option<real>)
  {
    temperatura.None? || (-20.0 <= temperatura.value && temperatura.value <= 50.0)
  }

  /** A delivery date, when one is given, is not before the departure date. */
  predicate EntregaAdmisible(entrega: Option<Day>, salida: Day)
  {
    entrega.None? || entrega.value >= salida
  }

  /** The six shipment rules, in the order they are checked. */
  function ReglasLogistica(d: LogisticaDatos, ahora: Day): seq<Regla>
  {
    [ Regla(Presente(d.loteId), MsgLoteId),
      Regla(d.fechaSalida <= ahora, MsgSalidaFutura),
      Regla(Presente(d.destino), MsgDestino),
      Regla(Presente(d.transportista), MsgTransportista),
      Regla(TemperaturaAdmisible(d.temperaturaTransporte), MsgTemperatura),
      Regla(EntregaAdmisible(d.fechaEntrega, d.fechaSalida), MsgEntrega) ]
  }

  /** The body passes `validarLogistica`: all six rules hold. */
  predicate LogisticaValida(d: LogisticaDatos, ahora: Day)
  {
    Cumplidas(ReglasLogistica(d, ahora))
  }

  /** `validarLogistica`: one message per failed rule, in rule order (the per-message
      consequences are `MensajesLogistica`). */
  method ValidarLogistica(d: LogisticaDatos, ahora: Day) returns (errores: seq<string>)
    ensures errores == Violaciones(ReglasLogistica(d, ahora))
  {
    ghost var reglas := ReglasLogistica(d, ahora);
    errores := [];
    errores := errores + (if !Presente(d.loteId) then [MsgLoteId] else []);
    assert errores == Reporte(reglas[0]);
    errores := errores + (if d.fechaSalida > ahora then [MsgSalidaFutura] else []);
    assert errores == Reporte(reglas[0]) + Reporte(reglas[1]);
    errores := errores + (if !Presente(d.destino) then [MsgDestino] else []);
    assert errores == Reporte(reglas[0]) + Reporte(reglas[1]) + Reporte(reglas[2]);
    errores := errores + (if !Presente(d.transportista) then [MsgTransportista] else []);
    assert errores == Reporte(reglas[0]) + Reporte(reglas[1]) + Reporte(reglas[2]) + Reporte(reglas[3]);
    if d.temperaturaTransporte.Some? {
      var temp := d.temperaturaTransporte.value;
      errores := errores + (if temp < -20.0 || temp > 50.0 then [MsgTemperatura] else []);
    }
    assert errores == Reporte(reglas[0]) + Reporte(reglas[1]) + Reporte(reglas[2]) + Reporte(reglas[3])
                      + Reporte(reglas[4]);
    if d.fechaEntrega.Some? {
      errores := errores + (if d.fechaEntrega.value < d.fechaSalida then [MsgEntrega] else []);
    }
    assert errores == Reporte(reglas[0]) + Reporte(reglas[1]) + Reporte(reglas[2]) + Reporte(reglas[3])
                      + Reporte(reglas[4]) + Reporte(reglas[5]);
    ViolacionesSeis(reglas);
  }

  /** Each shipment message is reported exactly when its own rule fails, independently
      of the other fields. */
  lemma MensajesLogistica(d: LogisticaDatos, ahora: Day)
    ensures var errores := Violaciones(ReglasLogistica(d, ahora));
      && |errores| <= 6
      && (MsgLoteId in errores <==> !Presente(d.loteId))
      && (MsgSalidaFutura in errores <==> d.fechaSalida > ahora)
      && (MsgDestino in errores <==> !Presente(d.destino))
      && (MsgTransportista in errores <==> !Presente(d.transportista))
      && (MsgTemperatura in errores <==>
            d.temperaturaTransporte.Some? &&
            (d.temperaturaTransporte.value < -20.0 || d.temperaturaTransporte.value > 50.0))
      && (MsgEntrega in errores <==> d.fechaEntrega.Some? && d.fechaEntrega.value < d.fechaSalida)
  {
    var reglas := ReglasLogistica(d, ahora);
    assert forall i, j :: 0 <= i < j < |reglas| ==> |reglas[i].mensaje| != |reglas[j].mensaje|;
    MensajeReportado(reglas, 0);
    MensajeReportado(reglas, 1);
    MensajeReportado(reglas, 2);
    MensajeReportado(reglas, 3);
    MensajeReportado(reglas, 4);
    MensajeReportado(reglas, 5);
  }

  // ---- validarLoteProcesado ----

  /** `validarLoteProcesado(loteId)`: the batch must have at least one process. */
  function LoteProcesado(almacen: Almacen, loteId: string): (o: Outcome)
    reads almacen
    ensures o.Fail? <==> forall p :: p in almacen.procesos ==> p.loteId != Some(loteId)
    ensures o.Fail? ==> o.message == MsgSinProcesos
  {
    var procesos := almacen.ProcesosPorLote(loteId);
    if |procesos| == 0 then Fail(MsgSinProcesos) else Pass
  }

  // ---- validarCoherenciaTemporal ----

  /** `validarCoherenciaTemporal(loteId, fechaSalida)`: the batch must exist, the
      departure must not precede its harvest, nor the date of the last of its processes
      in the order the data tier lists them (by date, earliest first). */
  function CoherenciaLogistica(almacen: Almacen, loteId: string, salida: Day): (o: Outcome)
    reads almacen
    ensures o == Fail(MsgLoteInexistente) <==> loteId !in IdsDe(almacen.lotes)
    ensures o.Fail? ==>
              o.message == MsgLoteInexistente || o.message == MsgAnteriorCosecha || o.message == MsgAnteriorProceso
    ensures o.Pass? ==> exists l :: l in almacen.lotes && l.id == loteId && l.datos.fechaCosecha <= salida
    ensures o.Pass? ==> forall p :: p in almacen.procesos && p.loteId == Some(loteId) ==> p.fecha <= salida
  {
    match almacen.LotePorId(loteId)
    case None => Fail(MsgLoteInexistente)
    case Some(lote) =>
      if salida < lote.datos.fechaCosecha then Fail(MsgAnteriorCosecha)
      else
        var procesos := almacen.ProcesosPorLote(loteId);
        if |procesos| > 0 && salida < procesos[|procesos| - 1].fecha then Fail(MsgAnteriorProceso)
        else
          assert procesos != [] ==> forall p :: p in procesos ==> p.fecha <= procesos[|procesos| - 1].fecha by {
            if procesos != [] {
              UltimoEsMaximo(procesos, FechaProceso);
            }
          }
          Pass
  }

  /** On a valid store the check is exact: it passes precisely when the batch exists,
      was harvested no later than the departure, and none of its processes is dated
      after the departure. */
  lemma CoherenciaLogisticaExacta(almacen: Almacen, loteId: string, salida: Day)
    requires almacen.Valid()
    ensures CoherenciaLogistica(almacen, loteId, salida).Pass? <==>
              && (exists l :: l in almacen.lotes && l.id == loteId && l.datos.fechaCosecha <= salida)
              && (forall p :: p in almacen.procesos && p.loteId == Some(loteId) ==> p.fecha <= salida)
  {
    if l :| l in almacen.lotes && l.id == loteId && l.datos.fechaCosecha <= salida {
      IdDetermina(almacen.lotes, almacen.procesos, almacen.logistica, l);
      var procesos := almacen.ProcesosPorLote(loteId);
      if procesos != [] {
        assert procesos[|procesos| - 1] in procesos;
      }
    }
  }

  // ---- crearLogistica ----

  /** What `crearLogistica` decides before writing: the validation failure, else the
      processed-batch check, else the temporal-coherence check. */
  function AdmisionLogistica(almacen: Almacen, d: LogisticaDatos, ahora: Day): (o: Outcome)
    reads almacen
    ensures !LogisticaValida(d, ahora) ==> o == Fail(MensajeValidacion(Violaciones(ReglasLogistica(d, ahora))))
    ensures LogisticaValida(d, ahora) && (forall p :: p in almacen.procesos ==> p.loteId != d.loteId) ==>
              o == Fail(MsgSinProcesos)
    ensures o.Pass? ==>
              && LogisticaValida(d, ahora)
              && (exists p :: p in almacen.procesos && p.loteId == d.loteId)
              && (exists l :: l in almacen.lotes && Some(l.id) == d.loteId && l.datos.fechaCosecha <= d.fechaSalida)
              && (forall p :: p in almacen.procesos && p.loteId == d.loteId ==> p.fecha <= d.fechaSalida)
  {
    if !LogisticaValida(d, ahora) then Fail(MensajeValidacion(Violaciones(ReglasLogistica(d, ahora))))
    else
      assert ReglasLogistica(d, ahora)[0].cumple;
      var procesado := LoteProcesado(almacen, d.loteId.value);
      if procesado.Fail? then procesado
      else CoherenciaLogistica(almacen, d.loteId.value, d.fechaSalida)
  }

  /** On a valid store `crearLogistica` writes exactly when the body is valid, the
      batch has a process, is stored and was harvested no later than the departure,
      and none of its processes is dated after the departure. */
  lemma AdmisionLogisticaExacta(almacen: Almacen, d: LogisticaDatos, ahora: Day)
    requires almacen.Valid()
    ensures AdmisionLogistica(almacen, d, ahora).Pass? <==>
              && LogisticaValida(d, ahora)
              && (exists p :: p in almacen.procesos && p.loteId == d.loteId)
              && (exists l :: l in almacen.lotes && Some(l.id) == d.loteId && l.datos.fechaCosecha <= d.fechaSalida)
              && (forall p :: p in almacen.procesos && p.loteId == d.loteId ==> p.fecha <= d.fechaSalida)
  {
    if LogisticaValida(d, ahora) {
      assert ReglasLogistica(d, ahora)[0].cumple;
      CoherenciaLogisticaExacta(almacen, d.loteId.value, d.fechaSalida);
    }
  }

  /** On a valid store a shipment for a batch that is not stored is refused for lack
      of processes: the "does not exist" branch of the coherence check is never reached
      from `crearLogistica`. */
  lemma LoteInexistenteSinProcesos(almacen: Almacen, d: LogisticaDatos, ahora: Day)
    requires almacen.Valid()
    ensures AdmisionLogistica(almacen, d, ahora) != Fail(MsgLoteInexistente)
    ensures LogisticaValida(d, ahora) && d.loteId.Some? && d.loteId.value !in IdsDe(almacen.lotes) ==>
              AdmisionLogistica(almacen, d, ahora) == Fail(MsgSinProcesos)
  {
    if LogisticaValida(d, ahora) {
      assert ReglasLogistica(d, ahora)[0].cumple;
      var id := d.loteId.value;
      if exists p :: p in almacen.procesos && p.loteId == d.loteId {
        assert id in IdsDe(almacen.lotes);
      }
    } else {
      var mensaje := MensajeValidacion(Violaciones(ReglasLogistica(d, ahora)));
      assert mensaje[0] == 'V' && MsgLoteInexistente[0] == 'E';
    }
  }

  /** `crearLogistica`: validate, require a processed batch, check temporal coherence,
      then store the shipment under the fresh id. */
  method CrearLogistica(almacen: Almacen, d: LogisticaDatos, ahora: Day, idNuevo: Id)
    returns (r: Result<Ack>)
    requires almacen.Valid() && almacen.IdLibre(idNuevo)
    modifies almacen
    ensures almacen.Valid()
    ensures almacen.lotes == old(almacen.lotes) && almacen.procesos == old(almacen.procesos)
    ensures old(AdmisionLogistica(almacen, d, ahora)).Fail? ==>
              r == Err(old(AdmisionLogistica(almacen, d, ahora)).message) && almacen.logistica == old(almacen.logistica)
    ensures old(AdmisionLogistica(almacen, d, ahora)).Pass? ==>
              && r == Ok(Ack(idNuevo, 1))
              && almacen.logistica == old(almacen.logistica) + [Logistica(idNuevo, d)]
  {
    var errores := ValidarLogistica(d, ahora);
    if |errores| > 0 {
      return Err(MensajeValidacion(errores));
    }
    assert Presente(d.loteId) by { assert ReglasLogistica(d, ahora)[0].cumple; }
    var procesado := LoteProcesado(almacen, d.loteId.value);
    if procesado.Fail? {
      return Err(procesado.message);
    }
    var coherencia := CoherenciaLogistica(almacen, d.loteId.value, d.fechaSalida);
    if coherencia.Fail? {
      return Err(coherencia.message);
    }
    var envio := Logistica(idNuevo, d);
    ghost var lote := almacen.LotePorId(d.loteId.value).value;
    AgregarEnvioConserva(almacen.lotes, almacen.procesos, almacen.logistica, envio, lote);
    var ack := almacen.InsertarLogistica(envio);
    r := Ok(ack);
  }
}
