/** The sales-order (orden de venta, OV) form: a header, an ordered list of
    line items, the total derived from them, and the record submitted to the
    order API. Prices (in the smallest currency unit) and quantities are
    unbounded integers. */
module OrdenVenta {
  import opened Wrappers
  import opened Json

  /** One line of the order. */
  datatype DetalleItem = DetalleItem(
    codigo: string,
    descripcion: string,
    precioUnitario: int,
    cantidad: int,
    subtotal: int)

  /** The line that `agregarDetalle` appends. */
  const LineaVacia := DetalleItem("", "", 0, 1, 0)

  /** An edit of one line: the field a user may change, with its new value.
      The subtotal is not editable. */
  datatype Campo =
    | Codigo(texto: string)
    | Descripcion(texto: string)
    | PrecioUnitario(valor: int)
    | Cantidad(valor: int)

  /** The line invariant: the subtotal is the unit price times the quantity. */
  predicate LineaConsistente(l: DetalleItem) {
    l.subtotal == l.precioUnitario * l.cantidad
  }

  /** Every line of the order keeps the line invariant. */
  predicate Consistente(s: seq<DetalleItem>) {
    forall i :: 0 <= i < |s| ==> LineaConsistente(s[i])
  }

  // ---------------------------------------------------------------------------
  // The total

  /** The sum of the subtotals, folded from the left as `reduce` does. An
      empty order totals 0, and lines with no negative subtotal never total
      less than any one of them. */
  function SumaSubtotales(s: seq<DetalleItem>): (t: int)
    ensures s == [] ==> t == 0
    ensures (forall i :: 0 <= i < |s| ==> s[i].subtotal >= 0) ==>
              forall i :: 0 <= i < |s| ==> 0 <= s[i].subtotal <= t
    decreases |s|
  {
    if s == [] then 0 else SumaSubtotales(s[..|s| - 1]) + s[|s| - 1].subtotal
  }

  /** Reference definition: the sum of unit price times quantity over the lines. */
  function SumaImportes(s: seq<DetalleItem>): int {
    if s == [] then 0 else s[0].precioUnitario * s[0].cantidad + SumaImportes(s[1..])
  }

  lemma {:induction false} SumaSubtotalesConcat(a: seq<DetalleItem>, b: seq<DetalleItem>)
    ensures SumaSubtotales(a + b) == SumaSubtotales(a) + SumaSubtotales(b)
    decreases |b|
  {
    if b == [] {
      assert a + b == a;
    } else {
      SumaSubtotalesConcat(a, b[..|b| - 1]);
      assert (a + b)[..|a + b| - 1] == a + b[..|b| - 1];
    }
  }

  /** While every line keeps its invariant, the total is the sum of the
      amounts, whatever the subtotals were computed from. */
  lemma {:induction false} SumaSubtotalesEsSumaImportes(s: seq<DetalleItem>)
    requires Consistente(s)
    ensures SumaSubtotales(s) == SumaImportes(s)
    decreases |s|
  {
    if s != [] {
      SumaSubtotalesEsSumaImportes(s[1..]);
      SumaSubtotalesConcat([s[0]], s[1..]);
      assert [s[0]] + s[1..] == s;
      assert [s[0]][..0] == [];
    }
  }

  // ---------------------------------------------------------------------------
  // The three operations on the lines, as functions of the old lines

  /** `agregarDetalle`: append the default line. */
  function AgregarLinea(s: seq<DetalleItem>): (r: seq<DetalleItem>)
    ensures |r| == |s| + 1
    ensures r[..|s|] == s
    ensures r[|s|].codigo == "" && r[|s|].descripcion == ""
    ensures r[|s|].precioUnitario == 0 && r[|s|].cantidad == 1 && r[|s|].subtotal == 0
  {
    s + [LineaVacia]
  }

  /** Set the field `c` names, then recompute the subtotal from the line's
      price and quantity. */
  function Editar(l: DetalleItem, c: Campo): (r: DetalleItem)
    ensures r.codigo == if c.Codigo? then c.texto else l.codigo
    ensures r.descripcion == if c.Descripcion? then c.texto else l.descripcion
    ensures r.precioUnitario == if c.PrecioUnitario? then c.valor else l.precioUnitario
    ensures r.cantidad == if c.Cantidad? then c.valor else l.cantidad
    ensures LineaConsistente(r)
  {
    var e := match c
      case Codigo(t) => l.(codigo := t)
      case Descripcion(t) => l.(descripcion := t)
      case PrecioUnitario(p) => l.(precioUnitario := p)
      case Cantidad(q) => l.(cantidad := q);
    e.(subtotal := e.precioUnitario * e.cantidad)
  }

  /** `actualizarDetalle`: edit the line at `index`. None stands for the
      TypeError `actualizarDetalle` throws when `copia[index]` is undefined,
      which aborts the update and leaves the lines as they were. */
  function ActualizarLinea(s: seq<DetalleItem>, index: int, c: Campo): (r: Option<seq<DetalleItem>>)
    ensures r.Some? <==> 0 <= index < |s|
    ensures r.Some? ==> |r.value| == |s| && r.value[index] == Editar(s[index], c)
    ensures r.Some? ==> forall j :: 0 <= j < |s| && j != index ==> r.value[j] == s[j]
  {
    if 0 <= index < |s| then Some(s[index := Editar(s[index], c)]) else None
  }

  /** `eliminarDetalle`: keep the lines whose position differs from `index`. */
  function EliminarLinea(s: seq<DetalleItem>, index: int): (r: seq<DetalleItem>)
    ensures 0 <= index < |s| ==> r == s[..index] + s[index + 1..]
    ensures !(0 <= index < |s|) ==> r == s
    decreases |s|
  {
    if s == [] then []
    else (if index == 0 then [] else [s[0]]) + EliminarLinea(s[1..], index - 1)
  }

  // ---------------------------------------------------------------------------
  // What the operations do to the invariant and to the total

  lemma AgregarLineaConserva(s: seq<DetalleItem>)
    ensures Consistente(s) ==> Consistente(AgregarLinea(s))
    ensures SumaSubtotales(AgregarLinea(s)) == SumaSubtotales(s)
  {
    assert AgregarLinea(s)[..|s|] == s;
  }

  lemma ActualizarLineaConserva(s: seq<DetalleItem>, index: int, c: Campo)
    requires Consistente(s) && 0 <= index < |s|
    ensures Consistente(ActualizarLinea(s, index, c).value)
  {
  }

  lemma {:induction false} TotalActualizar(s: seq<DetalleItem>, index: int, c: Campo)
    requires 0 <= index < |s|
    ensures SumaSubtotales(ActualizarLinea(s, index, c).value)
         == SumaSubtotales(s) - s[index].subtotal + Editar(s[index], c).subtotal
  {
    var t := ActualizarLinea(s, index, c).value;
    assert s == s[..index] + [s[index]] + s[index + 1..];
    assert t == s[..index] + [t[index]] + s[index + 1..];
    SumaSubtotalesConcat(s[..index] + [s[index]], s[index + 1..]);
    SumaSubtotalesConcat(s[..index], [s[index]]);
    SumaSubtotalesConcat(s[..index] + [t[index]], s[index + 1..]);
    SumaSubtotalesConcat(s[..index], [t[index]]);
    assert [s[index]][..0] == [] && [t[index]][..0] == [];
  }

  lemma EliminarLineaConserva(s: seq<DetalleItem>, index: int)
    requires Consistente(s)
    ensures Consistente(EliminarLinea(s, index))
  {
    if 0 <= index < |s| {
      var r := EliminarLinea(s, index);
      forall j | 0 <= j < |r| ensures LineaConsistente(r[j]) {
        if j < index { assert r[j] == s[j]; } else { assert r[j] == s[j + 1]; }
      }
    }
  }

  lemma {:induction false} TotalEliminar(s: seq<DetalleItem>, index: int)
    ensures 0 <= index < |s| ==> SumaSubtotales(EliminarLinea(s, index)) == SumaSubtotales(s) - s[index].subtotal
    ensures !(0 <= index < |s|) ==> SumaSubtotales(EliminarLinea(s, index)) == SumaSubtotales(s)
  {
    if 0 <= index < |s| {
      assert s == s[..index] + [s[index]] + s[index + 1..];
      SumaSubtotalesConcat(s[..index] + [s[index]], s[index + 1..]);
      SumaSubtotalesConcat(s[..index], [s[index]]);
      SumaSubtotalesConcat(s[..index], s[index + 1..]);
      assert [s[index]][..0] == [];
    }
  }

  // ---------------------------------------------------------------------------
  // Any sequence of operations

  datatype Operacion = Agregar | Actualizar(index: int, campo: Campo) | Eliminar(index: int)

  /** The lines after one operation; a failed edit leaves them unchanged. */
  function Aplicar(s: seq<DetalleItem>, op: Operacion): seq<DetalleItem> {
    match op
    case Agregar => AgregarLinea(s)
    case Actualizar(i, c) => (match ActualizarLinea(s, i, c) case Some(t) => t case None => s)
    case Eliminar(i) => EliminarLinea(s, i)
  }

  function Ejecutar(s: seq<DetalleItem>, ops: seq<Operacion>): seq<DetalleItem>
    decreases |ops|
  {
    if ops == [] then s else Ejecutar(Aplicar(s, ops[0]), ops[1..])
  }

  lemma AplicarConserva(s: seq<DetalleItem>, op: Operacion)
    requires Consistente(s)
    ensures Consistente(Aplicar(s, op))
  {
    match op
    case Agregar => AgregarLineaConserva(s);
    case Actualizar(i, c) =>
      if 0 <= i < |s| { ActualizarLineaConserva(s, i, c); }
    case Eliminar(i) => EliminarLineaConserva(s, i);
  }

  /** Starting from lines that keep the invariant (the empty order does), every
      sequence of operations keeps it, so the total is the sum of the amounts. */
  lemma {:induction false} EjecutarConserva(s: seq<DetalleItem>, ops: seq<Operacion>)
    requires Consistente(s)
    ensures Consistente(Ejecutar(s, ops))
    ensures SumaSubtotales(Ejecutar(s, ops)) == SumaImportes(Ejecutar(s, ops))
    decreases |ops|
  {
    if ops == [] {
      SumaSubtotalesEsSumaImportes(s);
    } else {
      AplicarConserva(s, ops[0]);
      EjecutarConserva(Aplicar(s, ops[0]), ops[1..]);
    }
  }

  /** Setting the quantity and then the price gives the same line as the other
      order, with the subtotal their product. */
  lemma EditarPrecioCantidadConmutan(l: DetalleItem, p: int, q: int)
    ensures Editar(Editar(l, Cantidad(q)), PrecioUnitario(p))
         == Editar(Editar(l, PrecioUnitario(p)), Cantidad(q))
    ensures Editar(Editar(l, Cantidad(q)), PrecioUnitario(p)).subtotal == p * q
  {
  }

  // ---------------------------------------------------------------------------
  // The record submitted by `guardarOV`

  /** One entry of `detalles`, with the keys the order API expects. */
  datatype LineaOV = LineaOV(itemcode: string, descripcion: string, precio: int, cantidad: int, subtotal: int)

  datatype OrdenPayload = OrdenPayload(
    cliente_codigo: string,
    cliente_nombre: string,
    documento: string,
    fecha: string,
    direccion: string,
    total: int,
    detalles: seq<LineaOV>)

  /** The renaming of one line's keys; nothing is lost, since the line can be
      read back from the entry. */
  function LineaAPayload(l: DetalleItem): (p: LineaOV)
    ensures p.itemcode == l.codigo && p.descripcion == l.descripcion
    ensures p.precio == l.precioUnitario && p.cantidad == l.cantidad && p.subtotal == l.subtotal
    ensures LineaDePayload(p) == l
  {
    LineaOV(l.codigo, l.descripcion, l.precioUnitario, l.cantidad, l.subtotal)
  }

  /** What a receiver reads back from one entry of `detalles`. */
  function LineaDePayload(p: LineaOV): DetalleItem {
    DetalleItem(p.itemcode, p.descripcion, p.precio, p.cantidad, p.subtotal)
  }

  /** The `detalle().map(...)` of `guardarOV`. */
  function Detalles(s: seq<DetalleItem>): (r: seq<LineaOV>)
    ensures |r| == |s|
    ensures forall i :: 0 <= i < |s| ==> r[i] == LineaAPayload(s[i])
    decreases |s|
  {
    if s == [] then [] else [LineaAPayload(s[0])] + Detalles(s[1..])
  }

  function LineasDePayload(d: seq<LineaOV>): (r: seq<DetalleItem>)
    ensures |r| == |d|
    decreases |d|
  {
    if d == [] then [] else [LineaDePayload(d[0])] + LineasDePayload(d[1..])
  }

  function SumaPayload(d: seq<LineaOV>): int
    decreases |d|
  {
    if d == [] then 0 else d[0].subtotal + SumaPayload(d[1..])
  }

  /** The record `guardarOV` builds from the header and the lines. */
  function ArmarOrden(clienteCodigo: string, clienteNombre: string, documento: string,
                      fecha: string, direccion: string, s: seq<DetalleItem>): (p: OrdenPayload)
    ensures p.cliente_codigo == clienteCodigo && p.cliente_nombre == clienteNombre
    ensures p.documento == documento && p.fecha == fecha && p.direccion == direccion
    ensures p.total == SumaSubtotales(s)
    ensures |p.detalles| == |s|
    ensures forall i :: 0 <= i < |s| ==> p.detalles[i] == LineaAPayload(s[i])
  {
    OrdenPayload(clienteCodigo, clienteNombre, documento, fecha, direccion, SumaSubtotales(s), Detalles(s))
  }

  /** The lines, in order, can be read back from the submitted record. */
  lemma {:induction false} ArmarOrdenRecuperaLineas(clienteCodigo: string, clienteNombre: string, documento: string,
                                                    fecha: string, direccion: string, s: seq<DetalleItem>)
    ensures LineasDePayload(ArmarOrden(clienteCodigo, clienteNombre, documento, fecha, direccion, s).detalles) == s
  {
    DetallesIda(s);
  }

  lemma {:induction false} DetallesIda(s: seq<DetalleItem>)
    ensures LineasDePayload(Detalles(s)) == s
    decreases |s|
  {
    if s != [] {
      DetallesIda(s[1..]);
      assert Detalles(s)[1..] == Detalles(s[1..]);
    }
  }

  /** The submitted total agrees with the submitted entries. */
  lemma {:induction false} ArmarOrdenTotalCuadra(clienteCodigo: string, clienteNombre: string, documento: string,
                                                 fecha: string, direccion: string, s: seq<DetalleItem>)
    ensures var p := ArmarOrden(clienteCodigo, clienteNombre, documento, fecha, direccion, s);
            p.total == SumaPayload(p.detalles)
  {
    SumaPayloadDetalles(s);
  }

  lemma {:induction false} SumaPayloadDetalles(s: seq<DetalleItem>)
    ensures SumaPayload(Detalles(s)) == SumaSubtotales(s)
    decreases |s|
  {
    if s != [] {
      SumaPayloadDetalles(s[1..]);
      assert Detalles(s)[1..] == Detalles(s[1..]);
      SumaSubtotalesConcat([s[0]], s[1..]);
      assert [s[0]] + s[1..] == s;
      assert [s[0]][..0] == [];
    }
  }

  // ---------------------------------------------------------------------------
  // The component

  /** The OV component. Angular signals become plain fields; `total` becomes
      the function `Total`. The header fields are public and bound to the form
      inputs, which assign them directly. */
  class OV {
    var documento: string
    var clienteCodigo: string
    var clienteNombre: string
    var correlativo: string
    var fechaOV: string
    var direccionEnvio: string
    var detalle: seq<DetalleItem>
    var mostrarPopup: bool
    var jsonOV: Trama<OrdenPayload>

    /** The line invariant over the whole order. */
    predicate Valid()
      reads this
    {
      Consistente(detalle)
    }

    /** The correlative id and today's date are generated outside the model
        and passed in. */
    constructor (correlativoGenerado: string, fechaHoy: string)
      ensures correlativo == correlativoGenerado && fechaOV == fechaHoy
      ensures documento == "" && clienteCodigo == "" && clienteNombre == "" && direccionEnvio == ""
      ensures detalle == [] && Valid() && Total() == 0
      ensures !mostrarPopup && jsonOV == Vacia
    {
      documento, clienteCodigo, clienteNombre := "", "", "";
      correlativo, fechaOV, direccionEnvio := correlativoGenerado, fechaHoy, "";
      detalle := [];
      mostrarPopup, jsonOV := false, Vacia;
    }

    /** The `total` computed signal. While the invariant holds it is the sum
        of unit price times quantity over the lines. */
    function Total(): (t: int)
      reads this
      ensures detalle == [] ==> t == 0
      ensures Valid() ==> t == SumaImportes(detalle)
    {
      if Valid() then
        SumaSubtotalesEsSumaImportes(detalle);
        SumaSubtotales(detalle)
      else
        SumaSubtotales(detalle)
    }

    method AgregarDetalle()
      modifies this`detalle
      ensures detalle == AgregarLinea(old(detalle))
      ensures Total() == old(Total())
      ensures old(Valid()) ==> Valid()
    {
      AgregarLineaConserva(detalle);
      detalle := AgregarLinea(detalle);
    }

    /** Returns false where `actualizarDetalle` throws, leaving the lines
        unchanged. */
    method ActualizarDetalle(index: int, campo: Campo) returns (ok: bool)
      modifies this`detalle
      ensures ok <==> 0 <= index < |old(detalle)|
      ensures ok ==> detalle == ActualizarLinea(old(detalle), index, campo).value
      ensures ok ==> Total() == old(Total()) - old(detalle[index].subtotal) + detalle[index].subtotal
      ensures !ok ==> detalle == old(detalle)
      ensures old(Valid()) ==> Valid()
    {
      if !(0 <= index < |detalle|) {
        return false;
      }
      TotalActualizar(detalle, index, campo);
      if Valid() {
        ActualizarLineaConserva(detalle, index, campo);
      }
      var item := Editar(detalle[index], campo);
      detalle := detalle[index := item];
      ok := true;
    }

    method EliminarDetalle(index: int)
      modifies this`detalle
      ensures detalle == EliminarLinea(old(detalle), index)
      ensures 0 <= index < |old(detalle)| ==> Total() == old(Total()) - old(detalle[index].subtotal)
      ensures !(0 <= index < |old(detalle)|) ==> Total() == old(Total())
      ensures old(Valid()) ==> Valid()
    {
      TotalEliminar(detalle, index);
      if Valid() {
        EliminarLineaConserva(detalle, index);
      }
      detalle := EliminarLinea(detalle, index);
    }

    /** Builds the record, keeps its JSON for the popup and shows the popup;
        the record is returned as the body `guardarOV` posts. */
    method GuardarOV() returns (ov: OrdenPayload)
      modifies this`jsonOV, this`mostrarPopup
      ensures ov == ArmarOrden(clienteCodigo, clienteNombre, documento, fechaOV, direccionEnvio, detalle)
      ensures ov.total == Total()
      ensures jsonOV == Serializada(ov) && mostrarPopup
      ensures detalle == old(detalle)
    {
      ov := ArmarOrden(clienteCodigo, clienteNombre, documento, fechaOV, direccionEnvio, detalle);
      jsonOV := Serializada(ov);
      mostrarPopup := true;
    }

    method CerrarPopup()
      modifies this`mostrarPopup
      ensures !mostrarPopup
      ensures jsonOV == old(jsonOV) && detalle == old(detalle)
    {
      mostrarPopup := false;
    }
  }

  /** Two lines {5, 2} and {7, 1} total 17; removing the first leaves 7; an
      edit at a position that holds no line changes nothing. */
  lemma EscenarioDosLineas()
    ensures var s := Ejecutar([], [Agregar, Agregar, Actualizar(0, PrecioUnitario(5)),
                                   Actualizar(0, Cantidad(2)), Actualizar(1, PrecioUnitario(7))]);
            SumaSubtotales(s) == 17
            && SumaSubtotales(Aplicar(s, Eliminar(0))) == 7
            && Aplicar(s, Actualizar(2, Cantidad(3))) == s
  {
    var ops := [Agregar, Agregar, Actualizar(0, PrecioUnitario(5)),
                Actualizar(0, Cantidad(2)), Actualizar(1, PrecioUnitario(7))];
    var a, b := DetalleItem("", "", 5, 2, 10), DetalleItem("", "", 7, 1, 7);
    var s1 := Aplicar([], ops[0]);
    assert s1 == [LineaVacia];
    var s2 := Aplicar(s1, ops[1]);
    assert s2 == [LineaVacia, LineaVacia];
    var s3 := Aplicar(s2, ops[2]);
    assert s3 == [DetalleItem("", "", 5, 1, 5), LineaVacia];
    var s4 := Aplicar(s3, ops[3]);
    assert s4 == [a, LineaVacia];
    var s5 := Aplicar(s4, ops[4]);
    assert s5 == [a, b];
    calc {
      Ejecutar([], ops);
      Ejecutar(s1, ops[1..]);
      { assert ops[1..][1..] == ops[2..]; }
      Ejecutar(s2, ops[2..]);
      { assert ops[2..][1..] == ops[3..]; }
      Ejecutar(s3, ops[3..]);
      { assert ops[3..][1..] == ops[4..]; }
      Ejecutar(s4, ops[4..]);
      { assert ops[4..][1..] == []; }
      Ejecutar(s5, []);
      s5;
    }
    assert SumaSubtotales([a]) == 10;
    assert EliminarLinea(s5, 0) == [b];
  }


  /** The same scenario through the component, from the contracts of its
      methods alone. */
  method EscenarioFormulario() {
    var ov := new OV("OV-1000", "2026-01-01");
    ov.AgregarDetalle();
    ov.AgregarDetalle();
    var ok := ov.ActualizarDetalle(0, PrecioUnitario(5));
    ok := ov.ActualizarDetalle(0, Cantidad(2));
    ok := ov.ActualizarDetalle(1, PrecioUnitario(7));
    assert ov.Valid() && ov.Total() == 17 == SumaImportes(ov.detalle);
    ov.EliminarDetalle(0);
    assert ov.Total() == 7;
    ok := ov.ActualizarDetalle(5, Cantidad(3));
    assert !ok && ov.Total() == 7;
    var payload := ov.GuardarOV();
    assert payload.total == 7 && |payload.detalles| == 1 && ov.mostrarPopup;
    ov.CerrarPopup();
    assert !ov.mostrarPopup && ov.jsonOV == Serializada(payload);
  }
}
