# Bar-System controllers in Dafny

This project models the ASP.NET Core controllers of a bar's point-of-sale
backend. Each controller does keyed create/read/update/delete over one table
of the persistence context: tables (`Mesa`), orders (`Pedido`), order lines
(`DetallePedido`), products (`Producto`), bills (`Cuenta`) and users
(`Usuario`). The users controller also registers users and checks logins.

The persistence context is the class `Context.BarContext`. It has one
`map<int, Entity>` per table and one identity counter per table. The store
draws each new key from that counter. The invariant `Valid()` says three
things:
- every row is stored under its own `Id`;
- every key is positive and below its table's counter;
- so a new key is always fresh.

Each controller is a module. Each action is a module-level method that takes
the context as a parameter `ctx: BarContext` and returns the action's real
result (`Results.ActionResult`: `Ok`, `Created(id, value)`, `NoContent`,
`BadRequest`, `BadRequestMessage(text)`, `NotFound`, `Unauthorized(reason)`).
- Write actions name only the fields of the table they change in `modifies`.
  So every other table stays unchanged: a delete changes one table only. The
  store's conventional cascade on required foreign keys is left out (see
  below).
- Read actions have no `modifies`, so they change nothing.
- `ToListAsync` is the loop `Context.ListAll`. It also hands back, as a
  ghost value, the keys it read, so its contract says each stored row occurs
  exactly once per key (`Context.Enumerates`).
- Loading an order's `Detalles` (`Include`) is `PedidosController.LinesOf`:
  the line table filtered by order key, then listed.
- Listing orders (`GetPedidos`) is `ListAll` over the order table followed
  by the loop `PedidosController.LoadEach`, which loads each order's lines.
- The email lookups of registration and login are the loop
  `UsuariosController.FindByEmail`.

The model keeps what the code leaves out. No action recomputes an order's
total. No action derives a line's subtotal from quantity and price. No action
checks that a line's order or product, or an order's table, exists. No action
restricts the state strings of tables, orders or bills. Update actions check
the path/body key mismatch before they check existence.
- `UpdateProducto` copies only `Nombre` and `Precio`.
- `UpdateCuenta` copies only `Total`, `MetodoPago` and `Estado`.
- `UpdatePedido` and `UpdateDetalle` replace the whole record.

A stricter design would require:
- creating an order or line against a missing key fails;
- a line's subtotal is computed from the product's price;
- a bill's total is copied from its order;
- bill states may only move from pending to paid.

The code enforces none of these, and neither does the model.

## Model

| member | source | states |
|---|---|---|
| Entities.NewMesa | BarSystem/src/Domain/Entities/Mesa.cs:6-10 | a new table is "Libre" and has no orders |
| Entities.NewPedido | BarSystem/src/Domain/Entities/Pedido.cs:8-12 | a new order is "En preparación", has no lines and a zero total, and is stamped with the clock reading |
| Entities.NewCuenta | BarSystem/src/Domain/Entities/Cuenta.cs:9-10 | a new bill has payment method and state both "Pendiente" |
| Entities.NewUsuario | BarSystem/src/Api/Controllers/UsuarioControllers.cs:29-34 | the user that registration builds has the payload's name and email, the given digest, and the default role "User" (the role is the one the tests expect) |
| Context.BarContext.constructor | BarSystem/src/Infrastructure/BarContext.cs:11-16 | a fresh context has six empty tables and satisfies the store invariant |
| Context.ListAll | BarSystem/src/Api/Controllers/CuentasController.cs:24 | listing a table yields every stored row, each once per key it is stored under, and nothing else: the i-th row is the row under the i-th of a list of distinct keys that covers the table |
| ProductosController.GetProductos | BarSystem/src/Api/Controllers/ProductosController.cs:21-25 | 200 with every product, and nothing else, each once |
| ProductosController.GetProducto | BarSystem/src/Api/Controllers/ProductosController.cs:28-35 | 404 exactly when the key is absent; otherwise 200 with the stored product |
| ProductosController.CreateProducto | BarSystem/src/Api/Controllers/ProductosController.cs:38-43 | exactly one product is added under a fresh key and returned with that key; the store invariant is kept |
| ProductosController.UpdateProducto | BarSystem/src/Api/Controllers/ProductosController.cs:46-61 | mismatch gives 400 even on an empty table; a missing key gives 404; both change nothing; otherwise only Nombre and Precio change, Categoria, Id and every other product are kept, and the result is 204 |
| ProductosController.DeleteProducto | BarSystem/src/Api/Controllers/ProductosController.cs:65-75 | removes exactly the given key with 204, or 404 and no change |
| CuentasController.GetCuentas | BarSystem/src/Api/Controllers/CuentasController.cs:22-26 | 200 with every bill, each once; the list is empty exactly when there are no bills |
| CuentasController.GetCuenta | BarSystem/src/Api/Controllers/CuentasController.cs:29-36 | 404 exactly when the key is absent; otherwise 200 with the stored bill |
| CuentasController.CreateCuenta | BarSystem/src/Api/Controllers/CuentasController.cs:39-45 | exactly one bill is added under a fresh key, with total, method and state as supplied |
| CuentasController.UpdateCuenta | BarSystem/src/Api/Controllers/CuentasController.cs:48-63 | mismatch gives 400 before any lookup; a missing key gives 404; both change nothing; otherwise Total, MetodoPago and Estado take any supplied value (no transition rule), and PedidoId and the other bills are kept |
| CuentasController.DeleteCuenta | BarSystem/src/Api/Controllers/CuentasController.cs:66-75 | removes exactly the given key with 204, or 404 and no change |
| MesasController.GetMesas | BarSystem/src/Api/Controllers/MesasController.cs:21-26 | the list of every table, each once, as a plain value and not a 200 object |
| MesasController.CreateMesa | BarSystem/src/Api/Controllers/MesasController.cs:29-34 | no validation: any capacity and state is stored as supplied under a fresh key, and the table is returned |
| DetallePedidoController.GetDetalles | BarSystem/src/Api/Controllers/DetallePedidoController.cs:21-28 | 200 with every order line, and nothing else, each once |
| DetallePedidoController.GetDetalle | BarSystem/src/Api/Controllers/DetallePedidoController.cs:32-43 | 404 exactly when no line has that Id; otherwise 200 with that stored line |
| DetallePedidoController.CreateDetalle | BarSystem/src/Api/Controllers/DetallePedidoController.cs:47-53 | the line is stored exactly as supplied under a fresh key: the subtotal is kept as given, and the order and product keys are not checked |
| DetallePedidoController.UpdateDetalle | BarSystem/src/Api/Controllers/DetallePedidoController.cs:57-70 | mismatch gives 400 before the existence check; a missing key gives 404; both change nothing; otherwise the whole line is replaced by the payload and other lines are kept |
| DetallePedidoController.DeleteDetalle | BarSystem/src/Api/Controllers/DetallePedidoController.cs:74-84 | removes exactly the given key with 204, or 404 and no change |
| PedidosController.LinesOf | BarSystem/src/Api/Controllers/PedidosController.cs:32-35 | loading an order's Detalles yields each line whose PedidoId is the order's Id, once per key it is stored under, and no other |
| PedidosController.LoadedLinesBelong | BarSystem/src/Api/Controllers/PedidosController.cs:32-35 | loaded lines, spelled out: as many as the lines pointing at the order, each a stored line pointing at it, every such line among them |
| PedidosController.WithLines | BarSystem/src/Api/Controllers/PedidosController.cs:31-34 | an order with its Detalles loaded keeps its own Id and every other field, and carries exactly its own lines |
| PedidosController.LoadEach | BarSystem/src/Api/Controllers/PedidosController.cs:21-24 | loading a listing of orders keeps their order and Ids, each order with exactly its own lines |
| PedidosController.GetPedidos | BarSystem/src/Api/Controllers/PedidosController.cs:20-27 | 200 with every order once (distinct Ids, every stored Id present), each with exactly its own lines loaded |
| PedidosController.GetPedido | BarSystem/src/Api/Controllers/PedidosController.cs:30-41 | 404 exactly when no order has that Id; otherwise 200 with that order and exactly the lines that point at it |
| PedidosController.CreatePedido | BarSystem/src/Api/Controllers/PedidosController.cs:44-49 | the order is stored as supplied under a fresh key, even when its table does not exist |
| PedidosController.UpdatePedido | BarSystem/src/Api/Controllers/PedidosController.cs:52-65 | mismatch gives 400 before the existence check; a missing key gives 404; both change nothing; otherwise every field (table, state, total) is replaced by the payload |
| PedidosController.DeletePedido | BarSystem/src/Api/Controllers/PedidosController.cs:68-77 | removes exactly the order with 204, or 404 and no change; only the order table changes (the conventional cascade is left out) |
| UsuariosController.Welcome | BarSystem/src/Api/Controllers/UsuarioControllers.cs:52 | the greeting is "Bienvenido ", the user's name, which can be read back from it, and "!" |
| UsuariosController.FindByEmail | BarSystem/src/Api/Controllers/UsuarioControllers.cs:46 | finds a user holding the email exactly when one exists |
| UsuariosController.Register | BarSystem/src/Api/Controllers/UsuarioControllers.cs:24-40 | a stored email gives 400 "El usuario ya existe." and adds nothing; otherwise exactly one user is added (name, email, Hash(password), role "User") with 200, and is then the only holder of that email; unique emails stay unique |
| UsuariosController.Login | BarSystem/src/Api/Controllers/UsuarioControllers.cs:44-53 | an unknown email is refused as unknown; a digest mismatch is refused as a wrong password; otherwise the user is greeted "Bienvenido name!"; the store is not changed |
| UsuariosController.LoginAfterRegister | BarSystem/src/Api/Controllers/UsuarioControllers.cs:24-53 | round trip: after an accepted registration, logging in with the same email and password greets the new user by name |
| UsuariosController.RegisterSameEmailTwice | Test/Application.Tests/UsuarioControllerTests.cs:49-73 | the first registration is accepted exactly when the email is new; the second is always refused; after an accepted first one exactly one user holds the email; unique emails stay unique |

## Left out

- EF Core itself is not modelled: change tracking, `SaveChangesAsync`, async/await, and exceptions the database raises. The context is six maps. `Program.cs` (DI, Swagger, routing) is plumbing and is not part of this model.
- Key assignment: EF keeps an explicitly supplied non-zero `Id` on insert and throws when that key already exists. The model always draws a fresh key from the table's counter.
- `UpdatePedido`, `UpdateDetalle`: EF throws when a different instance with the same key is already tracked. The model always overwrites.
- Reference navigations (`Pedido.Mesa`, `Cuenta.Pedido`, `DetallePedido.Pedido`, `DetallePedido.Producto`) and their `Include` calls are left out. Only the `Pedido.Detalles` collection is loaded.
- Nested entities in a create payload (lines inside an order, orders inside a table) are kept inside the stored record. EF would also insert them into their own tables; the model does not. Updates ignore nested collections: `UpdatePedido` and `UpdateDetalle` mark only the payload entity itself as modified, and `UpdateProducto` and `UpdateCuenta` copy scalar fields only. In the model a nested value stays in the stored row; `GetPedido` and `GetPedidos` never read it back, because they replace `Detalles` with the loaded lines.
- `GetMesas`: returns each stored table with the `Pedidos` that `CreateMesa` kept inside it. The query has no `Include`, so in the running system a fresh request returns every table with an empty `Pedidos`; the model does not clear that field.
- `HashPassword` is not a member. SHA-256 of the UTF-8 bytes, then Base64, is a foreign library call, so it is the `hash` parameter of `Register` and `Login`. Every result holds for every deterministic `hash`, injective or not.
- The wrong-password message is misspelled in the source. Both login refusals are tags (`UnknownUser`, `WrongPassword`), not texts.
- `Login`: `FirstOrDefaultAsync` returns the first matching user in store order. The model returns some matching user. The result is exact when at most one user holds the email, and `Register` keeps that true.
- `decimal` money is an exact `int`. `DateTime.Now` is the caller-supplied `now` of `NewPedido`.
- `GetDetalle`, `GetPedido`, `GetPedidos` are stated for a store whose rows sit under their own `Id` (`Valid()`). The code's search by `Id` is then the lookup by key.
- HTTP details are left out. A `CreatedAtAction` location header is the key in `Created(id, value)`.
- Order-total recomputation, `Subtotal = Cantidad × Precio`, foreign-key checks and state-transition rules are not in the code, so they are not in the model.
- `DeletePedido`, `DeleteProducto`: `Cuenta.PedidoId` is a non-nullable `int` (BarSystem/src/Domain/Entities/Cuenta.cs:6-7), so EF's convention makes it a required foreign key and deleting an order deletes its bills in cascade. This conventional cascade is left out: the model's delete changes one table only. An order line's `PedidoId` and `ProductoId` are plain `int` fields of `Entities.DetallePedido`; any cascade through them is left out in the same way as the bill cascade.
