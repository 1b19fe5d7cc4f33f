# Sales order and customer forms, modelled in Dafny

This project models the two data-entry components of an Angular front end.

The sales-order component (`OV`, orden de venta) holds a header and an ordered list of
`DetalleItem` lines. Each line has a code, a description, a unit price, a quantity and a
subtotal. The component can append a default line, edit one field of a line, and remove
a line by position. After an edit, the line's subtotal is recomputed as unit price times
quantity. The total is the sum of the subtotals. Saving builds the record that is posted
to the order API. Its keys are renamed. The record's JSON is shown in a popup that shows
what was sent: `guardarOV` posts the record in the same call that opens the popup.

The customer component (`Cliente`) derives a customer code `CardCode` from the document
number `LicTradNum`. It builds an SAP Business One customer-master record (`ClienteSAP`)
and shows its JSON in a popup. Sending the record ends with the popup hidden. On failure,
the alert text is the most specific error message found in the response.

Files:
- `wrappers.dfy`: `Option`, and `Json.Trama`, the JSON text a popup holds.
- `ov.dfy`: module `OrdenVenta`. It has the line datatype, the three line operations as
  functions of the old lines, the total, the submitted record, and class `OV`. The
  class's methods are proved against those functions.
- `cliente.dfy`: module `RegistroCliente`. It has the customer code, the record, the
  error message, and class `Cliente`.

Modelling choices:
- Angular signals are plain fields. The `total` computed signal is the function
  `OV.Total()`. The `CardCode` computed signal is the function `Cliente.CardCode()`. The
  header fields are public and are assigned by the form inputs directly.
- Prices and quantities are unbounded integers. A price is in the smallest currency unit.
- The untyped `campo`/`valor` pair of `actualizarDetalle` is the datatype `Campo`. It has
  one constructor per editable field.
- `actualizarDetalle` throws a TypeError for an index that holds no line, because
  `copia[index]` is undefined. The update is aborted and the lines stay as they
  were. `ActualizarDetalle` returns `false` in that case and changes nothing.
- `eliminarDetalle` is a filter by position. Any index that holds no line,
  negative or too large, leaves the list unchanged.
- The text that `JSON.stringify` produces is abstracted. The popup's JSON is either empty
  (`Vacia`, the initial `''`) or the serialisation of one record (`Serializada`). Parsing
  it gives the record back. `JSON.parse('')` throws, so `EnviarCliente` sends nothing
  when the popup's JSON is empty.
- The API's answer to `enviarCliente` is a parameter (`Respuesta`). The method returns
  the record sent and the alert text.
- The correlative id and today's date come from `Math.random` and `Date`. They are
  parameters of the `OV` constructor.
- The record `guardarOV` builds (src/app/ov/ov.ts:77-91) has no key for the correlative
  id `correlativo`, and neither does `OrdenPayload`.

## Model

| member | source | states |
|---|---|---|
| OrdenVenta.AgregarLinea | src/app/ov/ov.ts:49-54 | exactly one line is appended; all earlier lines are unchanged; the new line is `{'', '', 0, 1, 0}` |
| OrdenVenta.Editar | src/app/ov/ov.ts:62-63 | the edited field takes the new value; the other editable fields keep theirs; the subtotal equals price times quantity, for every field including code and description |
| OrdenVenta.ActualizarLinea | src/app/ov/ov.ts:58-66 | the edit succeeds iff the index holds a line; on success the count is the same, line `index` is the edited line and every other line is untouched |
| OrdenVenta.EliminarLinea | src/app/ov/ov.ts:70-72 | for an index that holds a line, exactly that line is removed and the rest keep their order; for any other index the list is unchanged |
| OrdenVenta.SumaSubtotales | src/app/ov/ov.ts:40 | the sum of the subtotals: an empty order totals 0, and when no subtotal is negative each subtotal lies between 0 and the total |
| OrdenVenta.SumaSubtotalesConcat | src/app/ov/ov.ts:40 | the total of two lists joined is the sum of their totals |
| OrdenVenta.SumaSubtotalesEsSumaImportes | src/app/ov/ov.ts:40 | when every line keeps subtotal = price × quantity, the total is the sum of price × quantity |
| OrdenVenta.AgregarLineaConserva | src/app/ov/ov.ts:49-54 | appending keeps the line invariant and leaves the total unchanged |
| OrdenVenta.ActualizarLineaConserva | src/app/ov/ov.ts:58-66 | a successful edit keeps the line invariant of every line |
| OrdenVenta.TotalActualizar | src/app/ov/ov.ts:58-66 | after an edit, the total changes by the new subtotal of the edited line minus its old one |
| OrdenVenta.EliminarLineaConserva | src/app/ov/ov.ts:70-72 | removal keeps the line invariant |
| OrdenVenta.TotalEliminar | src/app/ov/ov.ts:70-72 | a removal lowers the total by the removed line's subtotal; an index that holds no line leaves the total unchanged |
| OrdenVenta.AplicarConserva | src/app/ov/ov.ts:49-72 | each of the three operations keeps the line invariant |
| OrdenVenta.EjecutarConserva | src/app/ov/ov.ts:40-72 | after any sequence of operations on lines that keep the invariant, the invariant still holds and the total is the sum of price × quantity |
| OrdenVenta.EditarPrecioCantidadConmutan | src/app/ov/ov.ts:62-63 | setting the price and the quantity gives the same line in either order, with subtotal p × q |
| OrdenVenta.EscenarioDosLineas | src/app/ov/ov.ts:40-72 | lines {5, 2} and {7, 1} total 17; removing the first leaves 7; editing a position that holds no line changes nothing |
| OrdenVenta.LineaAPayload | src/app/ov/ov.ts:85-89 | codigo→itemcode, descripcion→descripcion, precioUnitario→precio, cantidad→cantidad, subtotal→subtotal, and the line can be read back from the entry |
| OrdenVenta.Detalles | src/app/ov/ov.ts:84-90 | the submitted entries have the lines' length and order; each maps codigo→itemcode, descripcion, precioUnitario→precio, cantidad, subtotal |
| OrdenVenta.ArmarOrden | src/app/ov/ov.ts:77-91 | header fields are copied from the form, `total` is the lines' total, and `detalles` is the line-by-line mapping |
| OrdenVenta.DetallesIda | src/app/ov/ov.ts:84-90 | reading the submitted entries back gives the original lines |
| OrdenVenta.ArmarOrdenRecuperaLineas | src/app/ov/ov.ts:77-91 | the lines can be recovered, in order, from the submitted record |
| OrdenVenta.SumaPayloadDetalles | src/app/ov/ov.ts:83-90 | the sum of the submitted subtotals is the lines' total |
| OrdenVenta.ArmarOrdenTotalCuadra | src/app/ov/ov.ts:77-91 | the submitted `total` equals the sum of the submitted entries' subtotals |
| OrdenVenta.OV.constructor | src/app/ov/ov.ts:27-45 | the form starts with empty header fields, the given correlative id and date, no lines, total 0, the popup hidden and no JSON |
| OrdenVenta.OV.Total | src/app/ov/ov.ts:40 | the total of the current lines: 0 with no lines, and while every line keeps its invariant the sum of price × quantity |
| OrdenVenta.OV.AgregarDetalle | src/app/ov/ov.ts:49-54 | the lines become `AgregarLinea` of the old lines; the total is unchanged; the invariant is kept |
| OrdenVenta.OV.ActualizarDetalle | src/app/ov/ov.ts:58-66 | succeeds iff the index holds a line; on success the lines become `ActualizarLinea` of the old lines and the total moves by the subtotal difference; otherwise nothing changes; the invariant is kept |
| OrdenVenta.OV.EliminarDetalle | src/app/ov/ov.ts:70-72 | the lines become `EliminarLinea` of the old lines; the total drops by the removed subtotal, or is unchanged; the invariant is kept |
| OrdenVenta.OV.GuardarOV | src/app/ov/ov.ts:76-94 | the record is `ArmarOrden` of the current form with `total == Total()`; the popup shows its JSON; the lines are unchanged |
| OrdenVenta.OV.CerrarPopup | src/app/ov/ov.ts:109-111 | the popup is hidden; the JSON and the lines are unchanged |
| RegistroCliente.CodigoCliente | src/app/cliente/cliente.ts:42 | the code is empty iff the document is empty; otherwise it is 'C' followed by the document |
| RegistroCliente.CodigoClienteInyectivo | src/app/cliente/cliente.ts:42 | the document can be read back from its code, so distinct documents get distinct codes |
| RegistroCliente.Cliente.CardCode | src/app/cliente/cliente.ts:42 | empty iff the current document is empty; otherwise it starts with 'C' and the current document can be read back from it |
| RegistroCliente.ArmarCliente | src/app/cliente/cliente.ts:52-57 | the record has `CardType == 'C'`, the code derived from its document, the form's name and document, and no optional field |
| RegistroCliente.RegistroValidoEsArmado | src/app/cliente/cliente.ts:52-57 | a record is well formed iff it is the one built from its own name and document |
| RegistroCliente.DetalleError | src/app/cliente/cliente.ts:80-86 | a falsy body gives none; a string body gives itself exactly when it is non-empty; another body gives the text of its `error` member exactly when that member is truthy, even when the text is empty |
| RegistroCliente.MensajeError | src/app/cliente/cliente.ts:79-86 | the message starts with 'Error al registrar el cliente'; it is exactly that iff there is no detail (no non-empty string body and no truthy nested `error`); otherwise ': ' and the text follow, taken from `err.error` when it is a string, else from `err.error.error` |
| RegistroCliente.MensajeErrorAnidadoVacio | src/app/cliente/cliente.ts:83-84 | a body `{"error": []}` gives 'Error al registrar el cliente: ', and a body without a truthy nested `error` gives the base message |
| RegistroCliente.Aviso | src/app/cliente/cliente.ts:73-88 | success shows 'Cliente registrado correctamente', failure the error message, and the two can never be confused |
| RegistroCliente.Cliente.constructor | src/app/cliente/cliente.ts:32-44 | the form starts empty, with the popup hidden, no JSON and an empty code; the invariant that stored JSON is a well-formed record holds |
| RegistroCliente.Cliente.RegistrarCliente | src/app/cliente/cliente.ts:50-62 | the popup JSON is the record built from the current name and document, with `CardType == 'C'` and the current `CardCode`; the popup is shown; the invariant holds |
| RegistroCliente.Cliente.EnviarCliente | src/app/cliente/cliente.ts:68-91 | with empty JSON nothing is sent and nothing changes; otherwise the stored record is sent and, on success and on error alike, the popup ends hidden with the matching alert text; the record sent is well formed |
| RegistroCliente.Cliente.CerrarPopup | src/app/cliente/cliente.ts:97-100 | the popup is hidden and the JSON is cleared to empty; the invariant holds |

## Left out

- HTTP POSTs and their asynchronous `subscribe` callbacks. This is network I/O. The
  posted body is the record `GuardarOV` returns, and the customer API's answer is a
  parameter of `EnviarCliente`.
- The `alert` calls of `guardarOV`, which embed `JSON.stringify` of the response or the
  error. These are a UI side effect over library serialisation. The order form's alerts
  are not modelled. For the customer form, only the alert text is modelled.
- The text format of `JSON.stringify` and `JSON.parse`. This is library code. A popup's
  JSON is the serialised record itself, in `Json.Trama`.
- `generarCorrelativo` (`Math.random`) and `obtenerFechaHoy` (`Date`). They are
  nondeterministic and depend on the environment. Their results are constructor
  parameters.
- Angular reactivity, change detection and dependency injection. These are framework
  machinery.
- Floating-point arithmetic on prices and quantities. `Campo` takes integers only, so
  fractional prices below the currency unit and fractional quantities are not modelled.
- The raw string that a numeric field of `actualizarDetalle` can receive uncoerced. The edit
  variant is typed, so JavaScript's coercion in `precioUnitario * cantidad` is not modelled.
- The in-place mutation of the line object shared between the old and the copied array
  in `actualizarDetalle`. The old array is discarded by the update, so the model
  replaces the line in a new sequence.
- MensajeError: a non-string truthy `err.error.error` is modelled by the text JavaScript's
  `toString` gives it (empty for `[]`); that conversion itself is not modelled.
- The route table (`app.routes.ts`) and the component's creation test (`ov.spec.ts`).
  Neither has behaviour to model.
