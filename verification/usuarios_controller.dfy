/** Registration and login. The password digest (SHA-256 of the UTF-8 bytes,
    Base64-encoded, in the system) is the parameter `hash`: any deterministic
    function from strings to strings, not assumed injective. */
module UsuariosController {
  import opened Results
  import opened Entities
  import opened Context

  const UsuarioYaExiste: string := "El usuario ya existe."
  const UsuarioRegistrado: string := "Usuario registrado con éxito."

  /** The greeting a successful login answers with: the fixed salutation,
      the user's name, which can be read back from the greeting, and a
      closing mark. */
  function Welcome(nombre: string): (g: string)
    ensures |g| == |nombre| + 12
    ensures g[..11] == "Bienvenido " && g[|g| - 1] == '!'
    ensures g[11..|g| - 1] == nombre
  {
    "Bienvenido " + nombre + "!"
  }

  /** Some stored user has this email (exact string comparison). */
  ghost predicate EmailTaken(usuarios: map<int, Usuario>, email: string)
  {
    exists k :: k in usuarios && usuarios[k].email == email
  }

  /** At most one stored user has this email. */
  ghost predicate EmailHeldOnce(usuarios: map<int, Usuario>, email: string)
  {
    forall j, k :: j in usuarios && k in usuarios && usuarios[j].email == email && usuarios[k].email == email ==> j == k
  }

  /** No two stored users share an email. */
  ghost predicate EmailsUnique(usuarios: map<int, Usuario>)
  {
    forall j, k :: j in usuarios && k in usuarios && usuarios[j].email == usuarios[k].email ==> j == k
  }

  /** The lookup by email both actions start with: the key of some user with
      that email, or none when there is no such user. */
  method FindByEmail(usuarios: map<int, Usuario>, email: string) returns (found: Option<int>)
    ensures found.None? <==> !EmailTaken(usuarios, email)
    ensures found.Some? ==> found.value in usuarios && usuarios[found.value].email == email
  {
    var rest := usuarios.Keys;
    while rest != {}
      invariant rest <= usuarios.Keys
      invariant forall k :: k in usuarios.Keys - rest ==> usuarios[k].email != email
      decreases rest
    {
      ghost var some := Member(rest);
      var k :| k in rest;
      if usuarios[k].email == email {
        return Some(k);
      }
      rest := rest - {k};
    }
    forall k | k in usuarios
      ensures usuarios[k].email != email
    {
      assert k in usuarios.Keys - rest;
    }
    found := None;
  }

  /** POST api/usuarios/register: refused with a message when the email is
      already stored; otherwise one user is added with the payload's name and
      email, the digest of the password and the default role. */
  method Register(ctx: BarContext, dto: UsuarioRegisterDto, hash: string -> string)
    returns (r: ActionResult<string>)
    requires ctx.Valid()
    modifies ctx`usuarios, ctx`nextUsuarioId
    ensures ctx.Valid()
    ensures r == BadRequestMessage(UsuarioYaExiste) <==> EmailTaken(old(ctx.usuarios), dto.email)
    ensures r == Ok(UsuarioRegistrado) <==> !EmailTaken(old(ctx.usuarios), dto.email)
    ensures r.BadRequestMessage? ==> ctx.usuarios == old(ctx.usuarios)
    ensures r.Ok? ==>
      && old(ctx.nextUsuarioId) !in old(ctx.usuarios)
      && ctx.usuarios == old(ctx.usuarios)[old(ctx.nextUsuarioId) :=
           NewUsuario(dto.nombre, dto.email, hash(dto.password)).(id := old(ctx.nextUsuarioId))]
      && |ctx.usuarios| == |old(ctx.usuarios)| + 1
    ensures r.Ok? ==> EmailHeldOnce(ctx.usuarios, dto.email)
    ensures EmailsUnique(old(ctx.usuarios)) ==> EmailsUnique(ctx.usuarios)
  {
    var existing := FindByEmail(ctx.usuarios, dto.email);
    if existing.Some? {
      return BadRequestMessage(UsuarioYaExiste);
    }
    var id := ctx.nextUsuarioId;
    var usuario := NewUsuario(dto.nombre, dto.email, hash(dto.password)).(id := id);
    ctx.usuarios := ctx.usuarios[id := usuario];
    ctx.nextUsuarioId := id + 1;
    r := Ok(UsuarioRegistrado);
  }

  /** POST api/usuarios/login: an unknown email and a wrong password are
      refused with different reasons, in that order; otherwise the user is
      greeted by name. When at most one user holds the email, the answer is
      fixed by that user. */
  method Login(ctx: BarContext, dto: UsuarioLoginDto, hash: string -> string)
    returns (r: ActionResult<string>)
    ensures r.Ok? || r.Unauthorized?
    ensures r == Unauthorized(UnknownUser) <==> !EmailTaken(ctx.usuarios, dto.email)
    ensures r == Unauthorized(WrongPassword) ==>
      exists k :: k in ctx.usuarios && ctx.usuarios[k].email == dto.email
        && ctx.usuarios[k].passwordHash != hash(dto.password)
    ensures r.Ok? ==>
      exists k :: k in ctx.usuarios && ctx.usuarios[k].email == dto.email
        && ctx.usuarios[k].passwordHash == hash(dto.password) && r.value == Welcome(ctx.usuarios[k].nombre)
    ensures EmailHeldOnce(ctx.usuarios, dto.email) ==>
      forall k :: k in ctx.usuarios && ctx.usuarios[k].email == dto.email ==>
        r == (if ctx.usuarios[k].passwordHash == hash(dto.password)
              then Ok(Welcome(ctx.usuarios[k].nombre)) else Unauthorized(WrongPassword))
  {
    var found := FindByEmail(ctx.usuarios, dto.email);
    if found.None? {
      return Unauthorized(UnknownUser);
    }
    var k := found.value;
    var usuario := ctx.usuarios[k];
    assert k in ctx.usuarios && ctx.usuarios[k].email == dto.email;
    if usuario.passwordHash != hash(dto.password) {
      return Unauthorized(WrongPassword);
    }
    r := Ok(Welcome(usuario.nombre));
  }

  /** Registering and then logging in with the same email and password: when
      the registration is accepted, the login greets the new user by name. */
  method LoginAfterRegister(ctx: BarContext, dto: UsuarioRegisterDto, hash: string -> string)
    returns (registered: ActionResult<string>, login: ActionResult<string>)
    requires ctx.Valid()
    modifies ctx`usuarios, ctx`nextUsuarioId
    ensures ctx.Valid()
    ensures registered.Ok? <==> !EmailTaken(old(ctx.usuarios), dto.email)
    ensures registered.Ok? ==> login == Ok(Welcome(dto.nombre))
  {
    registered := Register(ctx, dto, hash);
    if registered.Ok? {
      assert ctx.usuarios[old(ctx.nextUsuarioId)].email == dto.email;
    }
    login := Login(ctx, UsuarioLoginDto(dto.email, dto.password), hash);
  }

  /** Registering the same email twice: the second attempt is refused and
      leaves exactly the one user the first attempt added. */
  method RegisterSameEmailTwice(ctx: BarContext, first: UsuarioRegisterDto, second: UsuarioRegisterDto, hash: string -> string)
    returns (r1: ActionResult<string>, r2: ActionResult<string>)
    requires ctx.Valid()
    requires first.email == second.email
    modifies ctx`usuarios, ctx`nextUsuarioId
    ensures ctx.Valid()
    ensures r1.Ok? <==> !EmailTaken(old(ctx.usuarios), first.email)
    ensures r2 == BadRequestMessage(UsuarioYaExiste)
    ensures r1.Ok? ==> |ctx.usuarios| == |old(ctx.usuarios)| + 1
    ensures r1.Ok? ==> EmailHeldOnce(ctx.usuarios, first.email)
    ensures EmailsUnique(old(ctx.usuarios)) ==> EmailsUnique(ctx.usuarios)
    ensures r1.BadRequestMessage? ==> ctx.usuarios == old(ctx.usuarios)
  {
    r1 := Register(ctx, first, hash);
    if r1.Ok? {
      assert ctx.usuarios[old(ctx.nextUsuarioId)].email == second.email;
    }
    r2 := Register(ctx, second, hash);
  }
}
