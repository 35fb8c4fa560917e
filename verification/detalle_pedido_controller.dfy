/** The order-line actions: list, look up, create, replace and delete lines.
    None of them derives the subtotal or checks the order and product keys a
    line points at. */
module DetallePedidoController {
  import opened Results
  import opened Entities
  import opened Context

  /** GET api/DetallePedido: every line. */
  method GetDetalles(ctx: BarContext) returns (r: ActionResult<seq<DetallePedido>>)
    ensures r.Ok?
    ensures ListsEachOnce(r.value, ctx.detallesPedido)
    ensures |r.value| == |ctx.detallesPedido|
    ensures forall i :: 0 <= i < |r.value| ==> r.value[i] in ctx.detallesPedido.Values
    ensures forall k :: k in ctx.detallesPedido ==> ctx.detallesPedido[k] in r.value
  {
    var rows, keys := ListAll(ctx.detallesPedido);
    r := Ok(rows);
  }

  /** GET api/DetallePedido/{id}: the first line whose `Id` is `id`, or 404.
      Rows are stored under their own `Id`, so that line is the one under
      key `id`. */
  method GetDetalle(ctx: BarContext, id: int) returns (r: ActionResult<DetallePedido>)
    requires ctx.Valid()
    ensures r.NotFound? <==> !exists k :: k in ctx.detallesPedido && ctx.detallesPedido[k].id == id
    ensures r.Ok? <==> id in ctx.detallesPedido
    ensures r.Ok? ==> r.value == ctx.detallesPedido[id] && r.value.id == id
  {
    if id !in ctx.detallesPedido {
      return NotFound;
    }
    r := Ok(ctx.detallesPedido[id]);
  }

  /** POST api/DetallePedido: the line is stored exactly as supplied (the
      subtotal verbatim, the order and product keys unchecked) under a key the
      store draws. */
  method CreateDetalle(ctx: BarContext, detalle: DetallePedido) returns (r: ActionResult<DetallePedido>)
    requires ctx.Valid()
    modifies ctx`detallesPedido, ctx`nextDetalleId
    ensures ctx.Valid()
    ensures r.Created? && r.id == old(ctx.nextDetalleId) && r.id !in old(ctx.detallesPedido)
    ensures r.value == detalle.(id := r.id)
    ensures r.value.subtotal == detalle.subtotal && r.value.cantidad == detalle.cantidad
    ensures r.value.pedidoId == detalle.pedidoId && r.value.productoId == detalle.productoId
    ensures ctx.detallesPedido == old(ctx.detallesPedido)[r.id := r.value]
    ensures |ctx.detallesPedido| == |old(ctx.detallesPedido)| + 1
  {
    var id := ctx.nextDetalleId;
    var stored := detalle.(id := id);
    ctx.detallesPedido := ctx.detallesPedido[id := stored];
    ctx.nextDetalleId := id + 1;
    r := Created(id, stored);
  }

  /** PUT api/DetallePedido/{id}: a path/body key mismatch is refused before
      existence is checked; an existing line is replaced by the payload as a
      whole. */
  method UpdateDetalle(ctx: BarContext, id: int, detalle: DetallePedido) returns (r: ActionResult<()>)
    requires ctx.Valid()
    modifies ctx`detallesPedido
    ensures ctx.Valid()
    ensures r.BadRequest? <==> id != detalle.id
    ensures r.NotFound? <==> id == detalle.id && id !in old(ctx.detallesPedido)
    ensures r.NoContent? <==> id == detalle.id && id in old(ctx.detallesPedido)
    ensures !r.NoContent? ==> ctx.detallesPedido == old(ctx.detallesPedido)
    ensures r.NoContent? ==>
      && ctx.detallesPedido.Keys == old(ctx.detallesPedido.Keys)
      && ctx.detallesPedido[id] == detalle
      && forall k :: k in ctx.detallesPedido && k != id ==> ctx.detallesPedido[k] == old(ctx.detallesPedido[k])
  {
    if id != detalle.id {
      return BadRequest;
    }
    if id !in ctx.detallesPedido {
      return NotFound;
    }
    ctx.detallesPedido := ctx.detallesPedido[id := detalle];
    r := NoContent;
  }

  /** DELETE api/DetallePedido/{id}: removes exactly that key, or 404. */
  method DeleteDetalle(ctx: BarContext, id: int) returns (r: ActionResult<()>)
    requires ctx.Valid()
    modifies ctx`detallesPedido
    ensures ctx.Valid()
    ensures r.NotFound? <==> id !in old(ctx.detallesPedido)
    ensures r.NoContent? <==> id in old(ctx.detallesPedido)
    ensures ctx.detallesPedido == old(ctx.detallesPedido) - {id}
  {
    if id !in ctx.detallesPedido {
      return NotFound;
    }
    ctx.detallesPedido := ctx.detallesPedido - {id};
    r := NoContent;
  }
}
