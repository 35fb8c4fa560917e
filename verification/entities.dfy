/** Result values of the controller actions, and the usual Option. */
module Results {

  datatype Option<+T> = None | Some(value: T)

  /** Why a login was refused. The two refusals carry different messages in
      the controller; the model keeps them apart by tag. */
  datatype LoginFailure = UnknownUser | WrongPassword

  /** The HTTP results the controllers return.
      `BadRequest` is the body-less 400; `BadRequestMessage` carries a text. */
  datatype ActionResult<+T> =
    | Ok(value: T)
    | Created(id: int, value: T)
    | NoContent
    | BadRequest
    | BadRequestMessage(message: string)
    | NotFound
    | Unauthorized(failure: LoginFailure)
}

/** The rows of the six tables, the registration and login payloads, and the
    values a freshly constructed entity starts with. Money (`decimal` in the
    system) is an exact `int`; the creation timestamp of an order is an opaque
    `int` supplied by the caller. */
module Entities {

  datatype DetallePedido = DetallePedido(
    id: int, pedidoId: int, productoId: int, cantidad: int, subtotal: int)

  datatype Pedido = Pedido(
    id: int, mesaId: int, fecha: int, estado: string, total: int,
    detalles: seq<DetallePedido>)

  datatype Mesa = Mesa(id: int, estado: string, capacidad: int, pedidos: seq<Pedido>)

  datatype Producto = Producto(id: int, nombre: string, precio: int, categoria: string)

  datatype Cuenta = Cuenta(id: int, pedidoId: int, total: int, metodoPago: string, estado: string)

  datatype Usuario = Usuario(id: int, nombre: string, email: string, passwordHash: string, rol: string)

  datatype UsuarioRegisterDto = UsuarioRegisterDto(nombre: string, email: string, password: string)

  datatype UsuarioLoginDto = UsuarioLoginDto(email: string, password: string)

  const MesaLibre: string := "Libre"
  const PedidoEnPreparacion: string := "En preparación"
  const Pendiente: string := "Pendiente"
  const RolUser: string := "User"

  /** `new Mesa()`: a free table with no orders. */
  function NewMesa(): (m: Mesa)
    ensures m.estado == MesaLibre && m.pedidos == []
    ensures m.id == 0 && m.capacidad == 0
  {
    Mesa(0, MesaLibre, 0, [])
  }

  /** `new Pedido()` at clock reading `now`: an order in preparation with no
      lines and a zero total. */
  function NewPedido(now: int): (p: Pedido)
    ensures p.estado == PedidoEnPreparacion && p.detalles == []
    ensures p.fecha == now && p.total == 0 && p.id == 0 && p.mesaId == 0
  {
    Pedido(0, 0, now, PedidoEnPreparacion, 0, [])
  }

  /** `new Cuenta()`: a bill whose payment method and state are both pending. */
  function NewCuenta(): (c: Cuenta)
    ensures c.metodoPago == Pendiente && c.estado == Pendiente
    ensures c.id == 0 && c.pedidoId == 0 && c.total == 0
  {
    Cuenta(0, 0, 0, Pendiente, Pendiente)
  }

  /** The user the registration action builds: name and email from the
      payload, the digest it is given, and the default role. */
  function NewUsuario(nombre: string, email: string, passwordHash: string): (u: Usuario)
    ensures u.rol == RolUser && u.id == 0
    ensures u.nombre == nombre && u.email == email && u.passwordHash == passwordHash
  {
    Usuario(0, nombre, email, passwordHash, RolUser)
  }
}
