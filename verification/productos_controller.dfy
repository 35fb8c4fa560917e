/** The product catalogue actions: list, look up, create, rename/reprice and
    delete products. */
module ProductosController {
  import opened Results
  import opened Entities
  import opened Context

  /** GET api/Productos: every product. */
  method GetProductos(ctx: BarContext) returns (r: ActionResult<seq<Producto>>)
    ensures r.Ok?
    ensures ListsEachOnce(r.value, ctx.productos)
    ensures |r.value| == |ctx.productos|
    ensures forall i :: 0 <= i < |r.value| ==> r.value[i] in ctx.productos.Values
    ensures forall k :: k in ctx.productos ==> ctx.productos[k] in r.value
  {
    var rows, keys := ListAll(ctx.productos);
    r := Ok(rows);
  }

  /** GET api/Productos/{id}: the stored product, or 404. */
  method GetProducto(ctx: BarContext, id: int) returns (r: ActionResult<Producto>)
    ensures r.NotFound? <==> id !in ctx.productos
    ensures r.Ok? <==> id in ctx.productos
    ensures r.Ok? ==> r.value == ctx.productos[id]
    ensures ctx.Valid() && r.Ok? ==> r.value.id == id
  {
    if id !in ctx.productos {
      return NotFound;
    }
    r := Ok(ctx.productos[id]);
  }

  /** POST api/Productos: the product is stored as supplied under a key the
      store draws, and returned with that key. */
  method CreateProducto(ctx: BarContext, producto: Producto) returns (r: ActionResult<Producto>)
    requires ctx.Valid()
    modifies ctx`productos, ctx`nextProductoId
    ensures ctx.Valid()
    ensures r.Created? && r.id == old(ctx.nextProductoId) && r.id !in old(ctx.productos)
    ensures r.value == producto.(id := r.id)
    ensures ctx.productos == old(ctx.productos)[r.id := r.value]
    ensures |ctx.productos| == |old(ctx.productos)| + 1
  {
    var id := ctx.nextProductoId;
    var stored := producto.(id := id);
    ctx.productos := ctx.productos[id := stored];
    ctx.nextProductoId := id + 1;
    r := Created(id, stored);
  }

  /** PUT api/Productos/{id}: a path/body key mismatch is refused before the
      table is consulted; otherwise only the name and the price of the stored
      product are overwritten. */
  method UpdateProducto(ctx: BarContext, id: int, producto: Producto) returns (r: ActionResult<()>)
    requires ctx.Valid()
    modifies ctx`productos
    ensures ctx.Valid()
    ensures r.BadRequest? <==> id != producto.id
    ensures r.NotFound? <==> id == producto.id && id !in old(ctx.productos)
    ensures r.NoContent? <==> id == producto.id && id in old(ctx.productos)
    ensures !r.NoContent? ==> ctx.productos == old(ctx.productos)
    ensures r.NoContent? ==>
      && ctx.productos.Keys == old(ctx.productos.Keys)
      && ctx.productos[id].nombre == producto.nombre
      && ctx.productos[id].precio == producto.precio
      && ctx.productos[id].categoria == old(ctx.productos[id].categoria)
      && ctx.productos[id].id == id
      && forall k :: k in ctx.productos && k != id ==> ctx.productos[k] == old(ctx.productos[k])
  {
    if id != producto.id {
      return BadRequest;
    }
    if id !in ctx.productos {
      return NotFound;
    }
    var existente := ctx.productos[id];
    ctx.productos := ctx.productos[id := existente.(nombre := producto.nombre, precio := producto.precio)];
    r := NoContent;
  }

  /** DELETE api/Productos/{id}: removes exactly that key, or 404. */
  method DeleteProducto(ctx: BarContext, id: int) returns (r: ActionResult<()>)
    requires ctx.Valid()
    modifies ctx`productos
    ensures ctx.Valid()
    ensures r.NotFound? <==> id !in old(ctx.productos)
    ensures r.NoContent? <==> id in old(ctx.productos)
    ensures ctx.productos == old(ctx.productos) - {id}
  {
    if id !in ctx.productos {
      return NotFound;
    }
    ctx.productos := ctx.productos - {id};
    r := NoContent;
  }
}
