/** The order actions: list and look up orders with their lines loaded,
    create, replace and delete orders. No action checks the table an order
    names, recomputes its total or restricts its state. */
module PedidosController {
  import opened Results
  import opened Entities
  import opened Context

  /** The lines of the line table that point at order `pedidoId`, under
      their own keys. */
  function LinesTable(detalles: map<int, DetallePedido>, pedidoId: int): map<int, DetallePedido>
  {
    map k | k in detalles && detalles[k].pedidoId == pedidoId :: detalles[k]
  }

  /** `lines` is what loading an order's `Detalles` yields: each line of the
      table that points at `pedidoId`, as often as it is stored, and no
      other. */
  ghost predicate LoadedLines(lines: seq<DetallePedido>, detalles: map<int, DetallePedido>, pedidoId: int)
  {
    ListsEachOnce(lines, LinesTable(detalles, pedidoId))
  }

  /** `loaded` is the stored order `stored` with its `Detalles` filled from
      the line table. */
  ghost predicate LoadedOrder(loaded: Pedido, stored: Pedido, detalles: map<int, DetallePedido>)
  {
    loaded == stored.(detalles := loaded.detalles) && LoadedLines(loaded.detalles, detalles, stored.id)
  }

  /** What a loaded order's lines are, spelled out: as many as the lines
      that point at the order, each one a stored line that points at it, and
      every such line among them. */
  lemma LoadedLinesBelong(lines: seq<DetallePedido>, detalles: map<int, DetallePedido>, pedidoId: int)
    requires LoadedLines(lines, detalles, pedidoId)
    ensures |lines| == |LinesTable(detalles, pedidoId)|
    ensures forall i :: 0 <= i < |lines| ==> lines[i] in detalles.Values && lines[i].pedidoId == pedidoId
    ensures forall k :: k in detalles && detalles[k].pedidoId == pedidoId ==> detalles[k] in lines
  {
    var t := LinesTable(detalles, pedidoId);
    var keys :| Enumerates(lines, keys, t);
    forall i | 0 <= i < |lines|
      ensures lines[i] in detalles.Values && lines[i].pedidoId == pedidoId
    {
      assert keys[i] in detalles && lines[i] == detalles[keys[i]];
    }
    forall k | k in detalles && detalles[k].pedidoId == pedidoId
      ensures detalles[k] in lines
    {
      assert k in t;
      var i :| 0 <= i < |keys| && keys[i] == k;
      assert lines[i] == detalles[k];
    }
  }

  /** `Include(p => p.Detalles)` for one order: the lines whose `PedidoId` is
      `pedidoId`, read from the keys `keys`. */
  method LinesOf(detalles: map<int, DetallePedido>, pedidoId: int) returns (lines: seq<DetallePedido>, ghost keys: seq<int>)
    ensures Enumerates(lines, keys, LinesTable(detalles, pedidoId))
    ensures LoadedLines(lines, detalles, pedidoId)
  {
    lines, keys := ListAll(LinesTable(detalles, pedidoId));
  }

  /** The stored order `stored` with its `Detalles` loaded. */
  method WithLines(stored: Pedido, detalles: map<int, DetallePedido>) returns (loaded: Pedido)
    ensures loaded.id == stored.id
    ensures LoadedOrder(loaded, stored, detalles)
  {
    var lines, lineKeys := LinesOf(detalles, stored.id);
    loaded := stored.(detalles := lines);
  }

  /** `Include(p => p.Detalles)` over a listing of orders: each order in
      turn, with its lines loaded. */
  method LoadEach(stored: seq<Pedido>, detalles: map<int, DetallePedido>) returns (rows: seq<Pedido>)
    ensures |rows| == |stored|
    ensures forall j :: 0 <= j < |rows| ==> rows[j].id == stored[j].id && LoadedOrder(rows[j], stored[j], detalles)
  {
    rows := [];
    var i := 0;
    while i < |stored|
      invariant 0 <= i <= |stored|
      invariant |rows| == i
      invariant forall j :: 0 <= j < i ==> rows[j].id == stored[j].id && LoadedOrder(rows[j], stored[j], detalles)
    {
      var loaded := WithLines(stored[i], detalles);
      rows := rows + [loaded];
      i := i + 1;
    }
  }

  /** GET api/Pedidos: every order once, each with its lines loaded. */
  method GetPedidos(ctx: BarContext) returns (r: ActionResult<seq<Pedido>>)
    requires ctx.Valid()
    ensures r.Ok?
    ensures |r.value| == |ctx.pedidos|
    ensures forall i :: 0 <= i < |r.value| ==>
      r.value[i].id in ctx.pedidos && LoadedOrder(r.value[i], ctx.pedidos[r.value[i].id], ctx.detallesPedido)
    ensures forall i, j :: 0 <= i < j < |r.value| ==> r.value[i].id != r.value[j].id
    ensures forall k :: k in ctx.pedidos ==> exists i :: 0 <= i < |r.value| && r.value[i].id == k
  {
    var stored, keys := ListAll(ctx.pedidos);
    var rows := LoadEach(stored, ctx.detallesPedido);
    forall j | 0 <= j < |rows|
      ensures rows[j].id == keys[j]
      ensures rows[j].id in ctx.pedidos && LoadedOrder(rows[j], ctx.pedidos[rows[j].id], ctx.detallesPedido)
    {
      assert keys[j] in ctx.pedidos && stored[j] == ctx.pedidos[keys[j]];
      assert ctx.pedidos[keys[j]].id == keys[j];
    }
    forall i, j | 0 <= i < j < |rows|
      ensures rows[i].id != rows[j].id
    {
      assert keys[i] != keys[j];
    }
    forall k | k in ctx.pedidos
      ensures exists j :: 0 <= j < |rows| && rows[j].id == k
    {
      var j :| 0 <= j < |keys| && keys[j] == k;
      assert rows[j].id == k;
    }
    r := Ok(rows);
  }

  /** GET api/Pedidos/{id}: the first order whose `Id` is `id` with its lines
      loaded, or 404. Rows are stored under their own `Id`, so that order is
      the one under key `id`. */
  method GetPedido(ctx: BarContext, id: int) returns (r: ActionResult<Pedido>)
    requires ctx.Valid()
    ensures r.NotFound? <==> !exists k :: k in ctx.pedidos && ctx.pedidos[k].id == id
    ensures r.Ok? <==> id in ctx.pedidos
    ensures r.Ok? ==> r.value.id == id && LoadedOrder(r.value, ctx.pedidos[id], ctx.detallesPedido)
  {
    if id !in ctx.pedidos {
      return NotFound;
    }
    var loaded := WithLines(ctx.pedidos[id], ctx.detallesPedido);
    r := Ok(loaded);
  }

  /** POST api/Pedidos: the order is stored as supplied under a key the store
      draws; the table it names need not exist. */
  method CreatePedido(ctx: BarContext, pedido: Pedido) returns (r: ActionResult<Pedido>)
    requires ctx.Valid()
    modifies ctx`pedidos, ctx`nextPedidoId
    ensures ctx.Valid()
    ensures r.Created? && r.id == old(ctx.nextPedidoId) && r.id !in old(ctx.pedidos)
    ensures r.value == pedido.(id := r.id)
    ensures r.value.mesaId == pedido.mesaId && r.value.total == pedido.total && r.value.estado == pedido.estado
    ensures ctx.pedidos == old(ctx.pedidos)[r.id := r.value]
    ensures |ctx.pedidos| == |old(ctx.pedidos)| + 1
  {
    var id := ctx.nextPedidoId;
    var stored := pedido.(id := id);
    ctx.pedidos := ctx.pedidos[id := stored];
    ctx.nextPedidoId := id + 1;
    r := Created(id, stored);
  }

  /** PUT api/Pedidos/{id}: a path/body key mismatch is refused before
      existence is checked; an existing order is replaced by the payload as a
      whole (table, state, total and all). */
  method UpdatePedido(ctx: BarContext, id: int, pedido: Pedido) returns (r: ActionResult<()>)
    requires ctx.Valid()
    modifies ctx`pedidos
    ensures ctx.Valid()
    ensures r.BadRequest? <==> id != pedido.id
    ensures r.NotFound? <==> id == pedido.id && id !in old(ctx.pedidos)
    ensures r.NoContent? <==> id == pedido.id && id in old(ctx.pedidos)
    ensures !r.NoContent? ==> ctx.pedidos == old(ctx.pedidos)
    ensures r.NoContent? ==>
      && ctx.pedidos.Keys == old(ctx.pedidos.Keys)
      && ctx.pedidos[id] == pedido
      && forall k :: k in ctx.pedidos && k != id ==> ctx.pedidos[k] == old(ctx.pedidos[k])
  {
    if id != pedido.id {
      return BadRequest;
    }
    if id !in ctx.pedidos {
      return NotFound;
    }
    ctx.pedidos := ctx.pedidos[id := pedido];
    r := NoContent;
  }

  /** DELETE api/Pedidos/{id}: removes exactly that order, or 404. Only the
      order table changes; the store's cascade to the order's lines and
      bills is not part of this model. */
  method DeletePedido(ctx: BarContext, id: int) returns (r: ActionResult<()>)
    requires ctx.Valid()
    modifies ctx`pedidos
    ensures ctx.Valid()
    ensures r.NotFound? <==> id !in old(ctx.pedidos)
    ensures r.NoContent? <==> id in old(ctx.pedidos)
    ensures ctx.pedidos == old(ctx.pedidos) - {id}
  {
    if id !in ctx.pedidos {
      return NotFound;
    }
    ctx.pedidos := ctx.pedidos - {id};
    r := NoContent;
  }
}
