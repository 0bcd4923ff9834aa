/** The three record kinds. A `...Datos` value is the request body a client submits;
    the record with its `id` is what the data layer stores and returns. */
module Modelo {
  import opened Comun

  /** A calendar date as a day number; "now" is passed in as one as well. */
  type Day = int

  /** A server-generated uuid. */
  type Id = string

  /** Body of a harvest batch (lote). Missing or falsy fields are `None`. */
  datatype LoteDatos = LoteDatos(
    codigoLote: Option<string>,
    producto: Option<string>,
    finca: Option<string>,
    ubicacion: Option<string>,
    fechaCosecha: Day,
    responsable: Option<string>,
    cantidadKg: Option<real>)

  /** A stored batch: the request body kept under its generated id. */
  datatype Lote = Lote(id: Id, datos: LoteDatos)

  /** The free-form `parametros` object of a process, never inspected by the core. */
  datatype Parametros = Parametros(entradas: map<string, string>)

  /** The empty parameter object, used when a process gives none. */
  const SinParametros := Parametros(map[])

  /** `JSON.stringify(p)`: the serialised text, identified with the value it encodes. */
  datatype Json = Json(de: Parametros)

  /** Body of a processing step (proceso). */
  datatype ProcesoDatos = ProcesoDatos(
    loteId: Option<string>,
    tipoProceso: Option<string>,
    fecha: Day,
    responsable: Option<string>,
    parametros: Option<Parametros>,
    observaciones: Option<string>)

  /** A stored process: the body with its id and its parameters serialised. */
  datatype Proceso = Proceso(
    id: Id,
    loteId: Option<string>,
    tipoProceso: Option<string>,
    fecha: Day,
    responsable: Option<string>,
    parametros: Json,
    observaciones: Option<string>)

  /** Body of a shipment (logística). */
  datatype LogisticaDatos = LogisticaDatos(
    loteId: Option<string>,
    fechaSalida: Day,
    destino: Option<string>,
    transportista: Option<string>,
    temperaturaTransporte: Option<real>,
    fechaEntrega: Option<Day>)

  /** A stored shipment: the request body kept under its generated id. */
  datatype Logistica = Logistica(id: Id, datos: LogisticaDatos)

  /** What the data layer answers to a create: `{ id, changes: rowCount }`. */
  datatype Ack = Ack(id: Id, changes: nat)
}
