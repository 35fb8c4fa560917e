/** The billing actions: list, look up, create, update and delete bills. */
module CuentasController {
  import opened Results
  import opened Entities
  import opened Context

  /** GET api/Cuentas: every bill; an empty list when there are none. */
  method GetCuentas(ctx: BarContext) returns (r: ActionResult<seq<Cuenta>>)
    ensures r.Ok?
    ensures ListsEachOnce(r.value, ctx.cuentas)
    ensures |r.value| == |ctx.cuentas|
    ensures r.value == [] <==> ctx.cuentas == map[]
    ensures forall i :: 0 <= i < |r.value| ==> r.value[i] in ctx.cuentas.Values
    ensures forall k :: k in ctx.cuentas ==> ctx.cuentas[k] in r.value
  {
    var rows, keys := ListAll(ctx.cuentas);
    r := Ok(rows);
  }

  /** GET api/Cuentas/{id}: the stored bill, or 404. */
  method GetCuenta(ctx: BarContext, id: int) returns (r: ActionResult<Cuenta>)
    ensures r.NotFound? <==> id !in ctx.cuentas
    ensures r.Ok? <==> id in ctx.cuentas
    ensures r.Ok? ==> r.value == ctx.cuentas[id]
    ensures ctx.Valid() && r.Ok? ==> r.value.id == id
  {
    if id !in ctx.cuentas {
      return NotFound;
    }
    r := Ok(ctx.cuentas[id]);
  }

  /** POST api/Cuentas: the bill is stored as supplied (total, payment method
      and state untouched) under a key the store draws. */
  method CreateCuenta(ctx: BarContext, cuenta: Cuenta) returns (r: ActionResult<Cuenta>)
    requires ctx.Valid()
    modifies ctx`cuentas, ctx`nextCuentaId
    ensures ctx.Valid()
    ensures r.Created? && r.id == old(ctx.nextCuentaId) && r.id !in old(ctx.cuentas)
    ensures r.value == cuenta.(id := r.id)
    ensures ctx.cuentas == old(ctx.cuentas)[r.id := r.value]
    ensures |ctx.cuentas| == |old(ctx.cuentas)| + 1
  {
    var id := ctx.nextCuentaId;
    var stored := cuenta.(id := id);
    ctx.cuentas := ctx.cuentas[id := stored];
    ctx.nextCuentaId := id + 1;
    r := Created(id, stored);
  }

  /** PUT api/Cuentas/{id}: a path/body key mismatch is refused before the
      table is consulted; otherwise the total, payment method and state of the
      stored bill take the payload's values, whatever they are, and its order
      reference stays. */
  method UpdateCuenta(ctx: BarContext, id: int, cuenta: Cuenta) returns (r: ActionResult<()>)
    requires ctx.Valid()
    modifies ctx`cuentas
    ensures ctx.Valid()
    ensures r.BadRequest? <==> id != cuenta.id
    ensures r.NotFound? <==> id == cuenta.id && id !in old(ctx.cuentas)
    ensures r.NoContent? <==> id == cuenta.id && id in old(ctx.cuentas)
    ensures !r.NoContent? ==> ctx.cuentas == old(ctx.cuentas)
    ensures r.NoContent? ==>
      && ctx.cuentas.Keys == old(ctx.cuentas.Keys)
      && ctx.cuentas[id].total == cuenta.total
      && ctx.cuentas[id].metodoPago == cuenta.metodoPago
      && ctx.cuentas[id].estado == cuenta.estado
      && ctx.cuentas[id].pedidoId == old(ctx.cuentas[id].pedidoId)
      && ctx.cuentas[id].id == id
      && forall k :: k in ctx.cuentas && k != id ==> ctx.cuentas[k] == old(ctx.cuentas[k])
  {
    if id != cuenta.id {
      return BadRequest;
    }
    if id !in ctx.cuentas {
      return NotFound;
    }
    var existente := ctx.cuentas[id];
    ctx.cuentas := ctx.cuentas[id := existente.(total := cuenta.total, metodoPago := cuenta.metodoPago, estado := cuenta.estado)];
    r := NoContent;
  }

  /** DELETE api/Cuentas/{id}: removes exactly that key, or 404. */
  method DeleteCuenta(ctx: BarContext, id: int) returns (r: ActionResult<()>)
    requires ctx.Valid()
    modifies ctx`cuentas
    ensures ctx.Valid()
    ensures r.NotFound? <==> id !in old(ctx.cuentas)
    ensures r.NoContent? <==> id in old(ctx.cuentas)
    ensures ctx.cuentas == old(ctx.cuentas) - {id}
  {
    if id !in ctx.cuentas {
      return NotFound;
    }
    ctx.cuentas := ctx.cuentas - {id};
    r := NoContent;
  }
}
