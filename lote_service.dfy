/** Business rules for harvest batches (lotes): field validation and the create command. */
module LoteService {
  import opened Comun
  import opened Texto
  import opened Validacion
  import opened Modelo
  import opened CapaDatos

  // ---- The batch-code pattern /^[A-Z]{2}-\d{4}-\d{3}$/ ----

  /** A character class of the pattern. */
  datatype Clase = Mayuscula | Digito | Literal(c: char)

  predicate EnClase(c: char, k: Clase)
  {
    match k
    case Mayuscula => 'A' <= c <= 'Z'
    case Digito => '0' <= c <= '9'
    case Literal(x) => c == x
  }

  /** The pattern with its counted repetitions `{2}`, `{4}`, `{3}` written out. */
  const PatronCodigo: seq<Clase> :=
    [Mayuscula, Mayuscula, Literal('-'), Digito, Digito, Digito, Digito, Literal('-'), Digito, Digito, Digito]

  /** Match anchored at both ends (`^...$`) of a sequence of single-character classes. */
  function Coincide(patron: seq<Clase>, s: string): bool
  {
    if patron == [] then s == []
    else s != [] && EnClase(s[0], patron[0]) && Coincide(patron[1..], s[1..])
  }

  /** An anchored match consumes exactly one character per class. */
  lemma {:induction false} CoincidePorPosicion(patron: seq<Clase>, s: string)
    ensures Coincide(patron, s) <==>
              |s| == |patron| && forall i :: 0 <= i < |s| ==> EnClase(s[i], patron[i])
  {
    if patron != [] && s != [] {
      CoincidePorPosicion(patron[1..], s[1..]);
      assert forall i :: 0 < i < |s| ==> s[i] == s[1..][i - 1];
      assert forall i :: 0 < i < |patron| ==> patron[i] == patron[1..][i - 1];
    }
  }

  /** The batch code has the form of two upper-case letters, a dash, four digits,
      a dash and three digits, with nothing before or after. */
  function CodigoValido(s: string): (b: bool)
    ensures b <==>
      && |s| == 11
      && 'A' <= s[0] <= 'Z' && 'A' <= s[1] <= 'Z'
      && s[2] == '-' && s[7] == '-'
      && (forall i :: 3 <= i < 7 ==> '0' <= s[i] <= '9')
      && (forall i :: 8 <= i < 11 ==> '0' <= s[i] <= '9')
  {
    CoincidePorPosicion(PatronCodigo, s);
    Coincide(PatronCodigo, s)
  }

  // ---- validarLote ----

  const MsgCodigo := "Código de lote debe seguir el formato XX-YYYY-NNN (ej: MG-2026-001)"
  const MsgProducto := "El producto es obligatorio"
  const MsgFinca := "La finca es obligatoria"
  const MsgUbicacion := "La ubicación es obligatoria"
  const MsgCosechaFutura := "La fecha de cosecha no puede ser en el futuro"
  const MsgResponsable := "El responsable es obligatorio"
  const MsgCantidad := "La cantidad debe ser mayor a 0 kg"
  const MsgDuplicado := "Ya existe un lote con ese código"

  predicate CodigoAceptado(codigo: Option<string>)
  {
    codigo.Some? && CodigoValido(codigo.value)
  }

  /** The quantity is given and strictly positive. */
  predicate CantidadPositiva(cantidad: Option<real>)
  {
    cantidad.Some? && cantidad.value > 0.0
  }

  /** The seven batch rules, in the order they are checked. */
  function ReglasLote(d: LoteDatos, ahora: Day): seq<Regla>
  {
    [ Regla(CodigoAceptado(d.codigoLote), MsgCodigo),
      Regla(Presente(d.producto), MsgProducto),
      Regla(Presente(d.finca), MsgFinca),
      Regla(Presente(d.ubicacion), MsgUbicacion),
      Regla(d.fechaCosecha <= ahora, MsgCosechaFutura),
      Regla(Presente(d.responsable), MsgResponsable),
      Regla(CantidadPositiva(d.cantidadKg), MsgCantidad) ]
  }

  /** The batch passes `validarLote`: all seven rules hold. */
  predicate LoteValido(d: LoteDatos, ahora: Day)
  {
    Cumplidas(ReglasLote(d, ahora))
  }

  /** `validarLote`: one message per failed rule, in rule order (the per-message
      consequences are `MensajesLote`). */
  method ValidarLote(d: LoteDatos, ahora: Day) returns (errores: seq<string>)
    ensures errores == Violaciones(ReglasLote(d, ahora))
  {
    ghost var reglas := ReglasLote(d, ahora);
    errores := [];
    errores := errores + (if !CodigoAceptado(d.codigoLote) then [MsgCodigo] else []);
    assert errores == Reporte(reglas[0]);
    errores := errores + (if !Presente(d.producto) then [MsgProducto] else []);
    assert errores == Reporte(reglas[0]) + Reporte(reglas[1]);
    errores := errores + (if !Presente(d.finca) then [MsgFinca] else []);
    assert errores == Reporte(reglas[0]) + Reporte(reglas[1]) + Reporte(reglas[2]);
    errores := errores + (if !Presente(d.ubicacion) then [MsgUbicacion] else []);
    assert errores == Reporte(reglas[0]) + Reporte(reglas[1]) + Reporte(reglas[2]) + Reporte(reglas[3]);
    errores := errores + (if d.fechaCosecha > ahora then [MsgCosechaFutura] else []);
    assert errores == Reporte(reglas[0]) + Reporte(reglas[1]) + Reporte(reglas[2]) + Reporte(reglas[3]) + Reporte(reglas[4]);
    errores := errores + (if !Presente(d.responsable) then [MsgResponsable] else []);
    assert errores == Reporte(reglas[0]) + Reporte(reglas[1]) + Reporte(reglas[2]) + Reporte(reglas[3]) + Reporte(reglas[4]) + Reporte(reglas[5]);
    errores := errores + (if !CantidadPositiva(d.cantidadKg) then [MsgCantidad] else []);
    assert errores == Reporte(reglas[0]) + Reporte(reglas[1]) + Reporte(reglas[2]) + Reporte(reglas[3]) + Reporte(reglas[4]) + Reporte(reglas[5]) + Reporte(reglas[6]);
    ViolacionesSiete(reglas);
  }

  /** Each batch message is reported exactly when its own rule fails, independently
      of the other fields. */
  lemma MensajesLote(d: LoteDatos, ahora: Day)
    ensures var errores := Violaciones(ReglasLote(d, ahora));
      && (MsgCodigo in errores <==> !CodigoAceptado(d.codigoLote))
      && (MsgProducto in errores <==> !Presente(d.producto))
      && (MsgFinca in errores <==> !Presente(d.finca))
      && (MsgUbicacion in errores <==> !Presente(d.ubicacion))
      && (MsgCosechaFutura in errores <==> d.fechaCosecha > ahora)
      && (MsgResponsable in errores <==> !Presente(d.responsable))
      && (MsgCantidad in errores <==> !CantidadPositiva(d.cantidadKg))
  {
    var reglas := ReglasLote(d, ahora);
    assert forall i, j :: 0 <= i < j < |reglas| ==> |reglas[i].mensaje| != |reglas[j].mensaje|;
    MensajeReportado(reglas, 0);
    MensajeReportado(reglas, 1);
    MensajeReportado(reglas, 2);
    MensajeReportado(reglas, 3);
    MensajeReportado(reglas, 4);
    MensajeReportado(reglas, 5);
    MensajeReportado(reglas, 6);
  }

  // ---- crearLote ----

  /** A thrown JavaScript error: its message and, when it came from an HTTP response,
      that response's status (`error.response.status`). */
  datatype ErrorJs = ErrorJs(message: string, status: Option<int>)

  /** What the duplicate lookup in the `try` block yields: the response body, or the
      error the HTTP client throws. */
  datatype RespuestaCodigo = Datos(lote: Lote) | Lanza(error: ErrorJs)

  /** The HTTP client's rejection of the data layer's 404 for an unknown code. */
  const Error404 := ErrorJs("Request failed with status code 404", Some(404))

  /** The lookup of `codigo` against the store, or the transport failure `fallo` when
      the call does not come back with data. */
  function ConsultarCodigo(almacen: Almacen, codigo: string, fallo: Option<ErrorJs>): RespuestaCodigo
    reads almacen
  {
    if fallo.Some? then Lanza(fallo.value)
    else match almacen.LotePorCodigo(codigo)
      case Some(l) => Datos(l)
      case None => Lanza(Error404)
  }

  /** The `try`/`catch` around the duplicate lookup: the error thrown inside `try`
      (the duplicate error when data came back) is rethrown only when it carries an
      HTTP response whose status is not 404. The duplicate error carries none, so a
      taken code passes. */
  function VerificarCodigoUnico(resp: RespuestaCodigo): (r: Outcome)
    ensures r.Fail? <==> resp.Lanza? && resp.error.status.Some? && resp.error.status.value != 404
    ensures r.Fail? ==> r.message == resp.error.message
    ensures resp.Datos? ==> r == Pass
  {
    var lanzado := match resp
      case Datos(_) => ErrorJs(MsgDuplicado, None)
      case Lanza(e) => e;
    if lanzado.status.Some? && lanzado.status.value != 404 then Fail(lanzado.message) else Pass
  }

  /** What `crearLote` decides before writing: the validation failure, else the
      outcome of the duplicate lookup against the store. */
  function Admision(almacen: Almacen, d: LoteDatos, ahora: Day, fallo: Option<ErrorJs>): (o: Outcome)
    reads almacen
    ensures !LoteValido(d, ahora) ==> o == Fail(MensajeValidacion(Violaciones(ReglasLote(d, ahora))))
    ensures LoteValido(d, ahora) ==>
              (o.Fail? <==> fallo.Some? && fallo.value.status.Some? && fallo.value.status.value != 404)
    ensures LoteValido(d, ahora) && o.Fail? ==> o.message == fallo.value.message
  {
    if !LoteValido(d, ahora) then Fail(MensajeValidacion(Violaciones(ReglasLote(d, ahora))))
    else
      assert ReglasLote(d, ahora)[0].cumple;
      VerificarCodigoUnico(ConsultarCodigo(almacen, d.codigoLote.value, fallo))
  }

  /** `crearLote`: validate, run the duplicate lookup, then store the body under the
      fresh id. `fallo` is the transport failure of the duplicate lookup, if any. */
  method CrearLote(almacen: Almacen, d: LoteDatos, ahora: Day, idNuevo: Id, fallo: Option<ErrorJs>)
    returns (r: Result<Ack>)
    requires almacen.Valid() && almacen.IdLibre(idNuevo)
    modifies almacen
    ensures almacen.Valid()
    ensures almacen.procesos == old(almacen.procesos) && almacen.logistica == old(almacen.logistica)
    ensures old(Admision(almacen, d, ahora, fallo)).Fail? ==>
              r == Err(old(Admision(almacen, d, ahora, fallo)).message) && almacen.lotes == old(almacen.lotes)
    ensures old(Admision(almacen, d, ahora, fallo)).Pass? ==>
              && r == Ok(Ack(idNuevo, 1))
              && almacen.lotes == old(almacen.lotes) + [Lote(idNuevo, d)]
              && almacen.LotePorId(idNuevo) == Some(Lote(idNuevo, d))
  {
    var errores := ValidarLote(d, ahora);
    if |errores| > 0 {
      return Err(MensajeValidacion(errores));
    }
    assert CodigoAceptado(d.codigoLote) by { assert ReglasLote(d, ahora)[0].cumple; }
    var verificacion := VerificarCodigoUnico(ConsultarCodigo(almacen, d.codigoLote.value, fallo));
    if verificacion.Fail? {
      return Err(verificacion.message);
    }
    var lote := Lote(idNuevo, d);
    AgregarLoteConserva(almacen.lotes, almacen.procesos, almacen.logistica, lote);
    Colecciones.PrimeroAgregado(almacen.lotes, lote, ConId(idNuevo));
    var ack := almacen.InsertarLote(lote);
    r := Ok(ack);
  }
}
