# Traceability business tier, modelled in Dafny

This project models the business tier of a farm-to-shipment traceability service. The tier has four services:

- **loteService**: harvest batches.
- **procesoService**: processing steps such as washing and packing.
- **logisticaService**: shipments.
- **trazabilidadService**: the full report of a batch.

The services talk to a data tier over HTTP. Here the data tier is the class
`CapaDatos.Almacen`, an in-memory store with three tables (`lotes`, `procesos`, `logistica`). Its read functions mirror the data tier's endpoints, including their `ORDER BY` clauses:

- processes by date, ascending;
- shipments by departure, ascending;
- full listings descending.

Each table has one insert method.

Modelling choices:

- Dates are integer day numbers.
- The wall clock (`new Date()`) is the parameter `ahora`.
- The fresh `uuidv4()` is the parameter `idNuevo`. Its precondition `IdLibre` says no stored row carries it.
- Fields that JavaScript tests for truthiness are `Option` values.
- A string is "present" when it is given and not blank after `trim()` (`Texto.Presente`).

Structure:

- **Validators.** Each validator (`ValidarLote`, `ValidarProceso`, `ValidarLogistica`) is a method that appends one message per failed rule. It is proved equal to `Validacion.Violaciones` of the service's rule list.
- **Per-rule iff lemmas.** The `Mensajes*` lemmas state, rule by rule, that a message is reported exactly when its own rule fails.
- **Command handlers.** Each handler (`CrearLote`, `CrearProceso`, `CrearLogistica`) is a method on the store. Its outcome is fixed by a specification function (`Admision`, `AdmisionProceso`, `AdmisionLogistica`) evaluated on the state before the call:
  - on a failure, the handler returns that error and the store is unchanged;
  - on a pass, exactly one row is appended: the input under the fresh id;
  - in both cases the store invariant `Valid()` is kept.
- **Store invariant.** `Valid()` requires unique ids, references to stored batches, no process or shipment dated before its batch's harvest, and a process for every shipped batch.
- **Reports.** The traceability report is a function over a store snapshot, so building it writes nothing.

The model reproduces two behaviours of the code as written:

- **The service does not refuse a duplicate code.** In `crearLote`, the "Ya existe un lote con ese código" error is thrown inside the `try` block and has no `response`, so its own `catch` discards it. For a code that is already stored, the service therefore still sends the insert. The model's insert cannot fail, so the batch is stored again; whether the database would refuse it is not part of this model (see "## Left out"). Only a transport error carrying a non-404 status stops the command (`LoteService.VerificarCodigoUnico`, `LoteService.Admision`).
- **A missing batch reports "no processes".** In `crearLogistica`, the processed-batch check runs before the coherence check. A shipment for a batch that is not stored is therefore refused for lack of processes, never with "El lote especificado no existe" (`LogisticaService.LoteInexistenteSinProcesos`).

## Model

| member | source | states |
|---|---|---|
| LoteService.CodigoValido | server/src/services/loteService.js:20-22 | The code matches `^[A-Z]{2}-\d{4}-\d{3}$` iff it has length 11, has upper-case letters at positions 0–1, has '-' at 2 and 7, and has digits at 3–6 and 8–10. |
| LoteService.CoincidePorPosicion | server/src/services/loteService.js:20 | An anchored match of single-character classes holds iff the lengths agree and each character is in the class at its position. |
| LoteService.ValidarLote | server/src/services/loteService.js:16-57 | The list it builds push by push is exactly the messages of the failed batch rules, in check order. |
| LoteService.MensajesLote | server/src/services/loteService.js:19-54 | Each of the seven batch messages appears iff its own rule fails; covered cases include a missing or malformed code, a blank product, farm, location or person in charge, a harvest after now (a harvest equal to now passes), and a missing or non-positive quantity. |
| LoteService.VerificarCodigoUnico | server/src/services/loteService.js:70-80 | The duplicate check fails iff the thrown error carries a status other than 404, and then with that error's message. When data came back, the check passes. |
| LoteService.Admision | server/src/services/loteService.js:62-80 | An invalid body fails with "Validación fallida: " and the errors joined by ", ". A valid body fails iff the transport failure has a status other than 404; a taken code alone never fails. |
| LoteService.CrearLote | server/src/services/loteService.js:62-92 | On failure it returns the error and leaves the batch table unchanged. On success it appends exactly `Lote(idNuevo, body)`, acknowledges `idNuevo`, and the batch can then be found by that id. The other tables are never touched, and `Valid()` is kept. |
| CapaDatos.Almacen.LotePorId | server/src/services/loteService.js:105-108 | The result is absent iff no stored batch has the id; a found batch is stored and has that id. |
| CapaDatos.Almacen.LotePorCodigo | server/src/services/loteService.js:113-116 | The result is absent iff no stored batch has the code; a found batch is stored and has that code. |
| CapaDatos.Almacen.TodosLosLotes | server/src/services/loteService.js:97-100 | It returns all batches (same multiset), latest harvest first, following the `ORDER BY fecha_cosecha DESC` of loteRepository.js:51. |
| CapaDatos.Almacen.ProcesosPorLote | server/src/services/procesoService.js:103-106 | It returns exactly the batch's processes, sorted ascending by date as in procesoRepository.js:94. |
| CapaDatos.Almacen.TodosLosProcesos | server/src/services/procesoService.js:95-98 | It returns all processes (same multiset), latest first. |
| CapaDatos.Almacen.LogisticaPorLote | server/src/services/logisticaService.js:145-148 | It returns exactly the batch's shipments, sorted ascending by departure as in logisticaRepository.js:94. |
| CapaDatos.Almacen.TodaLaLogistica | server/src/services/logisticaService.js:137-140 | It returns all shipments (same multiset), latest departure first. |
| CapaDatos.Almacen.InsertarLote | server/src/services/loteService.js:89 | It appends one batch, leaves the other tables as they were, and acknowledges its id. |
| CapaDatos.Almacen.InsertarProceso | server/src/services/procesoService.js:87 | It appends one process, leaves the other tables as they were, and acknowledges its id. |
| CapaDatos.Almacen.InsertarLogistica | server/src/services/logisticaService.js:129 | It appends one shipment, leaves the other tables as they were, and acknowledges its id. |
| CapaDatos.IdDetermina | data/src/repositories/loteRepository.js:61-78 | With unique ids, the lookup by id returns the one stored batch that has it. |
| CapaDatos.AgregarLoteConserva | server/src/services/loteService.js:83-89 | Storing a batch under an unused id keeps the store invariant. |
| CapaDatos.AgregarProcesoConserva | server/src/services/procesoService.js:76-87 | Storing a process under an unused id keeps the store invariant, provided its batch is stored and was harvested no later than the process date. |
| CapaDatos.AgregarEnvioConserva | server/src/services/logisticaService.js:116-129 | Storing a shipment under an unused id keeps the store invariant, provided its batch is stored, has a process, and was harvested no later than the departure. |
| ProcesoService.ValidarProceso | server/src/services/procesoService.js:16-43 | The list it builds is exactly the messages of the failed process rules, in check order. |
| ProcesoService.MensajesProceso | server/src/services/procesoService.js:19-40 | There are at most four messages. Each appears iff its own rule fails: a blank batch id; a type outside the five accepted kinds (case-sensitive); a date after now; a blank person in charge. |
| ProcesoService.CoherenciaProceso | server/src/services/procesoService.js:49-64 | It fails with "El lote especificado no existe" iff the batch is not stored; its only other failure is the before-harvest message. A pass means a stored batch with that id was harvested no later than the process date. |
| ProcesoService.CoherenciaProcesoExacta | server/src/services/procesoService.js:49-64 | On a valid store the check passes iff the batch exists and its harvest is not after the process date, so a process dated on the harvest day passes. |
| ProcesoService.AdmisionProceso | server/src/services/procesoService.js:69-77 | A validation failure takes precedence over any store check. A pass implies a valid body and a stored batch harvested no later than the process date. |
| ProcesoService.AdmisionProcesoExacta | server/src/services/procesoService.js:69-77 | On a valid store the command passes, and so writes, iff the body is valid and names a stored batch harvested no later than the process date. |
| ProcesoService.CrearProceso | server/src/services/procesoService.js:69-90 | On failure it returns the error and the process table is unchanged. On success it appends exactly one process: the body under the fresh id, with `parametros` serialised from the given value or the empty object. The other tables are never touched, and `Valid()` is kept. |
| LogisticaService.ValidarLogistica | server/src/services/logisticaService.js:16-58 | The list it builds is exactly the messages of the failed shipment rules, in check order. |
| LogisticaService.MensajesLogistica | server/src/services/logisticaService.js:19-55 | There are at most six messages. Each appears iff its own rule fails, including a given temperature outside [-20, 50] and a given delivery date strictly before the departure. |
| LogisticaService.LoteProcesado | server/src/services/logisticaService.js:64-72 | It fails, with the no-process message, iff no stored process belongs to the batch. |
| LogisticaService.CoherenciaLogistica | server/src/services/logisticaService.js:77-104 | It fails with "El lote especificado no existe" iff the batch is not stored; its only other failures are the before-harvest and before-last-process messages. A pass means the batch exists, was harvested no later than the departure, and every one of its processes is dated no later than the departure. This last point holds because the last listed process has the latest date. |
| LogisticaService.CoherenciaLogisticaExacta | server/src/services/logisticaService.js:77-104 | On a valid store the check passes iff the batch exists with harvest ≤ departure and no process of it is after the departure. |
| LogisticaService.AdmisionLogistica | server/src/services/logisticaService.js:109-120 | The checks run in the order validation, then processed batch, then coherence. A valid body for a batch without processes fails with the no-process message. A pass implies all three checks hold. |
| LogisticaService.AdmisionLogisticaExacta | server/src/services/logisticaService.js:109-120 | On a valid store the command passes, and so writes, iff the body is valid and the batch has a process, is stored, was harvested no later than the departure, and has no process dated after it. |
| LogisticaService.LoteInexistenteSinProcesos | server/src/services/logisticaService.js:109-120 | On a valid store the command never fails with "El lote especificado no existe". A valid body naming an unstored batch fails with the no-process message. |
| LogisticaService.CrearLogistica | server/src/services/logisticaService.js:109-132 | On failure it returns the error and the shipment table is unchanged. On success it appends exactly the body under the fresh id. The other tables are never touched, and `Valid()` is kept. |
| TrazabilidadService.GenerarMensajeEstado | server/src/services/trazabilidadService.js:112-121 | It returns each of the four messages iff its case holds. An origin with no processes gives "Falta registrar transformación y distribución", even when shipments exist. |
| TrazabilidadService.CalcularEstadoTrazabilidad | server/src/services/trazabilidadService.js:81-107 | The percentage is 33 per stage present plus 1 when shipments are present, so it stays within 0..100. COMPLETO iff all three stages are present, PARCIAL iff exactly two, INCOMPLETO iff at most one. |
| TrazabilidadService.ObtenerTrazabilidadCompleta | server/src/services/trazabilidadService.js:16-76 | It fails iff the batch is not stored, with the message "Error al obtener trazabilidad: Lote no encontrado". Otherwise it returns the report: the id, code and origin copied from the stored batch; totals equal to the list lengths and to the number of the batch's processes and shipments in the store; the batch's processes and shipments exactly, each sorted by date; the status flags matching the totals. |
| TrazabilidadService.ListadoProcesos | server/src/services/trazabilidadService.js:47-58 | The projected process list contains exactly the views of the batch's processes, in date order. |
| TrazabilidadService.ListadoEnvios | server/src/services/trazabilidadService.js:59-70 | The projected shipment list contains exactly the views of the batch's shipments, in departure order. |
| TrazabilidadService.EstadoEnAlmacenValido | server/src/services/trazabilidadService.js:81-121 | On a valid store the report of a stored batch has shipments only if it has processes, so its percentage is 33, 66 or 100. Its message is never the no-origin text, and it says transformation is missing only when there are no shipments. |
| TrazabilidadService.ObtenerTrazabilidadPorCodigo | server/src/services/trazabilidadService.js:126-139 | It fails iff no stored batch has the code, and then with the prefix exactly once. On success the result is the by-id report of a stored batch carrying that code. |
| TrazabilidadService.PorCodigoEsDelLote | server/src/services/trazabilidadService.js:126-139 | On a valid store the report found by code belongs to a stored batch that has that code. |
| Validacion.Violaciones | server/src/services/loteService.js:16-57 | A rule list yields at most one message per rule. The list is empty iff every rule holds, and every message comes from a failed rule. |
| Validacion.AgregarRegla | server/src/services/loteService.js:52-54 | Checking one more rule appends its message exactly when it fails. |
| Validacion.ViolacionesConcatenadas | server/src/services/loteService.js:17-56 | The checks are independent: the messages of two rule lists in sequence are the two lists' messages concatenated. |
| Validacion.MensajeReportado | server/src/services/procesoService.js:17-42 | When messages are distinct, a rule's message is reported iff that rule fails. |
| Texto.RecortarVacio | server/src/services/loteService.js:25 | `trim()` yields the empty string iff every character is white space. |
| Colecciones.Primero | data/src/repositories/loteRepository.js:84-101 | The first-match lookup returns a stored row satisfying the filter, and is absent iff none does. |
| Colecciones.Filtrar | data/src/repositories/procesoRepository.js:81-94 | The filter keeps every copy of each row that satisfies the predicate and nothing else: each element occurs in the result as often as in the input when it matches, and not at all otherwise. |
| Colecciones.OrdenarPor | data/src/repositories/procesoRepository.js:94 | Sorting by a key gives a permutation of the input in ascending key order. |
| Colecciones.UltimoEsMaximo | server/src/services/logisticaService.js:93-100 | In a list sorted ascending, the last element has the largest key. |

## Left out

- HTTP transport (`axios`) is replaced by the store's functions. Axios rejects the data tier's 404 responses, so with a real transport a missing batch in the coherence checks and in the report would surface as "Request failed with status code 404" rather than as the service's own message. The model follows the service's `if (!x.data)` branches instead. The exception is the duplicate-code lookup, where the 404 rejection decides the outcome and is modelled as `Error404`.
- Other transport failures are modelled only for the duplicate-code lookup (`fallo`). The other reads and the inserts cannot fail in the model. In particular, the database schema is not part of this model, so a uniqueness constraint on `codigo_lote` that would make the insert of a duplicate code fail with a 500 is not modelled.
- The clock and `uuidv4()` are parameters.
- The race between the duplicate-code lookup and the insert is left out: it needs concurrency, and the model is sequential.
- Unparseable dates (`new Date` giving NaN, which makes every comparison false) are left out: dates are day numbers.
- Time of day and time zone are left out. `new Date('2026-01-15')` is midnight UTC, while `new Date()` is the current instant, so a date-only value "equal to now" passes in the source on that whole day. The statements "a date equal to now passes" and "a date equal to the harvest passes" hold at day granularity only.
- An `id` field in the request body would override the fresh uuid through the object spread. The model always stores the fresh id.
- `trim()` on a field that is present but not a string is left out: the model's fields are typed.
- Temperature and quantity are `real`. Floating-point rounding is not modelled.
- `JSON.stringify` of `parametros` is the opaque wrapper `Json`.
- The data tier's `createdAt` columns and the SQL column renaming are not part of this model.
- The data tier's listings never return `null`, so the `procesos &&` / `logistica &&` guards in the status calculation are modelled on sequences only.
- TrazabilidadService.ObtenerTrazabilidadPorCodigo: the double prefix of a failure inside the delegated call is kept by the structure of the definition (`Envolver` applied twice). On one store snapshot the delegate cannot fail after the code lookup succeeds, so the contract states the single-prefix case only.
- The update and delete endpoints of the data tier are not called by the services and are not part of this model.
