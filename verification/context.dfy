/** The persistence context shared by the controllers: one keyed table per
    entity, each with the identity counter the store draws new keys from. */
module Context {
  import opened Entities

  class BarContext {
    var mesas: map<int, Mesa>
    var pedidos: map<int, Pedido>
    var detallesPedido: map<int, DetallePedido>
    var productos: map<int, Producto>
    var cuentas: map<int, Cuenta>
    var usuarios: map<int, Usuario>

    var nextMesaId: int
    var nextPedidoId: int
    var nextDetalleId: int
    var nextProductoId: int
    var nextCuentaId: int
    var nextUsuarioId: int

    /** Every row is stored under its own `Id`, every key is a positive
        identity the store has already handed out, and the counters are
        positive, so a counter's value is never a key in use. */
    ghost predicate Valid()
      reads this
    {
      && nextMesaId >= 1 && nextPedidoId >= 1 && nextDetalleId >= 1
      && nextProductoId >= 1 && nextCuentaId >= 1 && nextUsuarioId >= 1
      && (forall k :: k in mesas ==> 1 <= k < nextMesaId && mesas[k].id == k)
      && (forall k :: k in pedidos ==> 1 <= k < nextPedidoId && pedidos[k].id == k)
      && (forall k :: k in detallesPedido ==> 1 <= k < nextDetalleId && detallesPedido[k].id == k)
      && (forall k :: k in productos ==> 1 <= k < nextProductoId && productos[k].id == k)
      && (forall k :: k in cuentas ==> 1 <= k < nextCuentaId && cuentas[k].id == k)
      && (forall k :: k in usuarios ==> 1 <= k < nextUsuarioId && usuarios[k].id == k)
    }

    /** A fresh, empty database. */
    constructor ()
      ensures Valid()
      ensures mesas == map[] && pedidos == map[] && detallesPedido == map[]
      ensures productos == map[] && cuentas == map[] && usuarios == map[]
    {
      mesas, pedidos, detallesPedido := map[], map[], map[];
      productos, cuentas, usuarios := map[], map[], map[];
      nextMesaId, nextPedidoId, nextDetalleId := 1, 1, 1;
      nextProductoId, nextCuentaId, nextUsuarioId := 1, 1, 1;
    }
  }

  /** `rows` lists `table` through the keys `keys`: the i-th row is the row
      stored under the i-th key, no key is used twice, and every key of the
      table is used, so each stored row occurs exactly as often as it is
      stored. */
  ghost predicate Enumerates<T>(rows: seq<T>, keys: seq<int>, table: map<int, T>)
  {
    && |rows| == |table|
    && |keys| == |rows|
    && (forall i :: 0 <= i < |keys| ==> keys[i] in table && rows[i] == table[keys[i]])
    && (forall i, j :: 0 <= i < j < |keys| ==> keys[i] != keys[j])
    && (forall k :: k in table ==> k in keys)
  }

  /** `rows` is a listing of `table` in some order: each stored row once per
      key it is stored under, and nothing else. */
  ghost predicate ListsEachOnce<T>(rows: seq<T>, table: map<int, T>)
  {
    exists keys :: Enumerates(rows, keys, table)
  }

  /** `ToListAsync` over one table: every stored row once, in an order the
      store chooses; `keys` are the keys the rows were read from. */
  method ListAll<T(==)>(table: map<int, T>) returns (rows: seq<T>, ghost keys: seq<int>)
    ensures Enumerates(rows, keys, table)
    ensures ListsEachOnce(rows, table)
    ensures |rows| == |table|
    ensures forall i :: 0 <= i < |rows| ==> rows[i] in table.Values
    ensures forall k :: k in table ==> table[k] in rows
  {
    rows, keys := [], [];
    var rest := table.Keys;
    while rest != {}
      invariant rest <= table.Keys
      invariant |rows| + |rest| == |table|
      invariant |keys| == |rows|
      invariant forall i :: 0 <= i < |keys| ==> keys[i] in table && keys[i] !in rest && rows[i] == table[keys[i]]
      invariant forall i, j :: 0 <= i < j < |keys| ==> keys[i] != keys[j]
      invariant forall j :: j in table.Keys - rest ==> j in keys
      invariant forall i :: 0 <= i < |rows| ==> rows[i] in table.Values
      invariant forall j :: j in table.Keys - rest ==> table[j] in rows
      decreases rest
    {
      ghost var some := Member(rest);
      var k :| k in rest;
      rows, keys := rows + [table[k]], keys + [k];
      rest := rest - {k};
    }
    assert Enumerates(rows, keys, table);
  }

  /** A member of a non-empty key set: the witness the loops below need
      before they draw a key of their own. */
  lemma Member<K>(s: set<K>) returns (k: K)
    requires s != {}
    ensures k in s
  {
    if forall x :: x !in s {
      assert false;
    }
    k :| k in s;
  }
}
