/** The table actions: list the tables and open a new one. */
module MesasController {
  import opened Results
  import opened Entities
  import opened Context

  /** GET api/Mesas: every table. The action hands the list back as its
      value, not wrapped in a 200 object result. */
  method GetMesas(ctx: BarContext) returns (mesas: seq<Mesa>)
    ensures ListsEachOnce(mesas, ctx.mesas)
    ensures |mesas| == |ctx.mesas|
    ensures forall i :: 0 <= i < |mesas| ==> mesas[i] in ctx.mesas.Values
    ensures forall k :: k in ctx.mesas ==> ctx.mesas[k] in mesas
  {
    ghost var keys;
    mesas, keys := ListAll(ctx.mesas);
  }

  /** POST api/Mesas: no validation; any capacity and any state is stored as
      supplied under a key the store draws. */
  method CreateMesa(ctx: BarContext, mesa: Mesa) returns (r: ActionResult<Mesa>)
    requires ctx.Valid()
    modifies ctx`mesas, ctx`nextMesaId
    ensures ctx.Valid()
    ensures r.Created? && r.id == old(ctx.nextMesaId) && r.id !in old(ctx.mesas)
    ensures r.value == mesa.(id := r.id)
    ensures r.value.capacidad == mesa.capacidad && r.value.estado == mesa.estado
    ensures ctx.mesas == old(ctx.mesas)[r.id := r.value]
    ensures |ctx.mesas| == |old(ctx.mesas)| + 1
  {
    var id := ctx.nextMesaId;
    var stored := mesa.(id := id);
    ctx.mesas := ctx.mesas[id := stored];
    ctx.nextMesaId := id + 1;
    r := Created(id, stored);
  }
}
