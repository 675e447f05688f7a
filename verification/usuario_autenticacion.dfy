/** Self-registration (`registerUsuario`) and login (`generarJWT`). The
    password hash, the password comparison and the token signer are oracles
    passed in as functions; the secret is the configured `JWT_SECRET`. */
module UsuarioAutenticacion {
  import opened Values
  import opened Http
  import opened Store
  import opened Authentication

  /** The message every unexpected exception of these two handlers becomes. */
  const InternalError := "Error interno del servidor"

  /** The role every self-registered user gets. */
  const DefaultRol := "Usuario"

  /** `rol.findFirst({ where: { nombre } })` finds a role. */
  predicate HasRolNamed(roles: map<int, Row>, nombre: string)
  {
    exists k :: k in roles && Get(roles[k], "nombre") == Str(nombre)
  }

  /** The row `usuario.create` writes for a self-registered user. */
  function NewUsuario(email: Value, digest: string, rol: int): (r: Row)
    ensures r.Keys == {"email", "contrasena", "rol_id"}
    ensures Get(r, "email") == email
  {
    map["email" := email, "contrasena" := Str(digest), "rol_id" := IdValue(rol)]
  }

  /** Why `registerUsuario` refuses, in the order of its steps, or None when
      it creates the user. A non-string email makes the `findUnique` query
      throw, and `bcrypt.hash` throws on a missing password (the oracle
      answers None): both end in the catch-all 500. */
  function RegisterRefusal(usuarios: map<int, Row>, roles: map<int, Row>, body: Body,
                           hash: Value -> Option<string>): Option<Reply>
    requires UniqueEmails(usuarios)
  {
    var email := Get(body, "email");
    if !email.Str? then Some(ErrorReply(500, InternalError))
    else if FindByEmail(usuarios, email).Some? then Some(ErrorReply(409, "El email ya está registrado"))
    else if hash(Get(body, "contrasena")).None? then Some(ErrorReply(500, InternalError))
    else if !HasRolNamed(roles, DefaultRol) then Some(ErrorReply(500, "error interno."))
    else None
  }

  /** `registerUsuario`: on a refusal nothing is written; otherwise exactly
      one user is added, under a fresh key, with the given email, the
      oracle's digest of the password and a role named "Usuario". */
  method RegisterUsuario(db: Db, body: Body, hash: Value -> Option<string>) returns (reply: Reply)
    requires db.Valid()
    modifies db`usuarios, db`nextId
    ensures db.Valid()
    ensures RegisterRefusal(old(db.usuarios), db.roles, body, hash).Some? ==>
              reply == RegisterRefusal(old(db.usuarios), db.roles, body, hash).value
              && db.usuarios == old(db.usuarios)
    ensures RegisterRefusal(old(db.usuarios), db.roles, body, hash).None? ==>
              var id := old(db.nextId);
              && id !in old(db.usuarios)
              && exists rol :: rol in db.roles && Get(db.roles[rol], "nombre") == Str(DefaultRol)
                   && var row := NewUsuario(Get(body, "email"), hash(Get(body, "contrasena")).value, rol);
                      && db.usuarios == old(db.usuarios)[id := row]
                      && reply == Reply(201, Obj(map["message" := Str("Usuario registrado con éxito"),
                                                     "usuario" := Record(id, row)]))
  {
    var email := Get(body, "email");
    var contrasena := Get(body, "contrasena");
    if !email.Str? {
      return ErrorReply(500, InternalError);
    }
    var existe := FindByEmail(db.usuarios, email);
    if existe.Some? {
      return ErrorReply(409, "El email ya está registrado");
    }
    var hashed := hash(contrasena);
    if hashed.None? {
      return ErrorReply(500, InternalError);
    }
    if !HasRolNamed(db.roles, DefaultRol) {
      return ErrorReply(500, "error interno.");
    }
    var rol :| rol in db.roles && Get(db.roles[rol], "nombre") == Str(DefaultRol);
    var id := db.nextId;
    var row := NewUsuario(email, hashed.value, rol);
    AddKeepsUnique(db.usuarios, id, row);
    db.usuarios := db.usuarios[id := row];
    db.nextId := db.nextId + 1;
    reply := Reply(201, Obj(map["message" := Str("Usuario registrado con éxito"), "usuario" := Record(id, row)]));
  }

  /** Registering an email that is already stored is refused with 409. */
  lemma DuplicateEmail(usuarios: map<int, Row>, roles: map<int, Row>, body: Body, hash: Value -> Option<string>, k: int)
    requires UniqueEmails(usuarios)
    requires k in usuarios && Get(usuarios[k], "email") == Get(body, "email") && Get(body, "email").Str?
    ensures RegisterRefusal(usuarios, roles, body, hash) == Some(ErrorReply(409, "El email ya está registrado"))
  {
  }

  /** Without a role named "Usuario" a fresh email with a password is refused
      with 500 "error interno.". */
  lemma NoDefaultRol(usuarios: map<int, Row>, roles: map<int, Row>, body: Body, hash: Value -> Option<string>)
    requires UniqueEmails(usuarios)
    requires Get(body, "email").Str? && FindByEmail(usuarios, Get(body, "email")).None?
    requires hash(Get(body, "contrasena")).Some?
    requires forall k :: k in roles ==> Get(roles[k], "nombre") != Str(DefaultRol)
    ensures RegisterRefusal(usuarios, roles, body, hash) == Some(ErrorReply(500, "error interno."))
  {
  }

  /** A refusal is always a 409 or a 500, never a success status. */
  lemma RefusalStatus(usuarios: map<int, Row>, roles: map<int, Row>, body: Body, hash: Value -> Option<string>)
    requires UniqueEmails(usuarios)
    requires RegisterRefusal(usuarios, roles, body, hash).Some?
    ensures RegisterRefusal(usuarios, roles, body, hash).value.status in {409, 500}
  {
  }

  // ----- Login -----

  /** One call `jwt.sign(payload, secret, { expiresIn })`. */
  datatype SignCall = SignCall(payload: Value, secret: string, expiresIn: string)

  /** The token lifetime: the `exp` claim (section 4.1.4 of RFC 7519) is set
      one hour after issue. */
  const ExpiresIn := "1h"

  /** The role row a user row is linked to, or None (`usuario.rol === null`). */
  function RolOf(row: Row, roles: map<int, Row>): (r: Option<Row>)
    ensures r.Some? <==> exists k :: Get(row, "rol_id") == IdValue(k) && k in roles
    ensures r.Some? ==> Get(row, "rol_id").Num? && Get(row, "rol_id").n.Int? && r.value == roles[Get(row, "rol_id").n.i]
  {
    match Get(row, "rol_id")
    case Num(Int(k)) => if k in roles then Some(roles[k]) else None
    case _ => None
  }

  /** The claims signed into the token: a snapshot of the user's id, email
      and role NAME at login time. */
  function Claims(id: int, row: Row, rol: Row): (r: Value)
    ensures HasClaims(r)
    ensures r.props["id"] == IdValue(id) && r.props["email"] == Get(row, "email") && r.props["rol"] == Get(rol, "nombre")
  {
    Obj(map["id" := IdValue(id), "email" := Get(row, "email"), "rol" := Get(rol, "nombre")])
  }

  /** `generarJWT`, a read-only decision chain. `compare(plain, stored)` is
      `bcrypt.compare` (None when it throws); `sign` is `jwt.sign`. A
      non-string email makes the lookup throw; a missing or empty secret
      makes the handler throw; both are caught as 500. */
  function Login(usuarios: map<int, Row>, roles: map<int, Row>, body: Body,
                 compare: (Value, Value) -> Option<bool>, secret: Option<string>,
                 sign: SignCall -> string): Reply
    requires UniqueEmails(usuarios)
  {
    var email := Get(body, "email");
    if !email.Str? then ErrorReply(500, InternalError)
    else match FindByEmail(usuarios, email)
    case None => ErrorReply(401, "Credenciales inválidas")
    case Some(id) =>
      var row := usuarios[id];
      match RolOf(row, roles)
      case None => ErrorReply(500, "No se ha encontrado el rol.")
      case Some(rol) =>
        match compare(Get(body, "contrasena"), Get(row, "contrasena"))
        case None => ErrorReply(500, InternalError)
        case Some(false) => ErrorReply(401, "Credenciales inválidas")
        case Some(true) =>
          if secret.None? || secret.value == "" then ErrorReply(500, InternalError)
          else
            var token := sign(SignCall(Claims(id, row, rol), secret.value, ExpiresIn));
            Reply(200, Obj(map["message" := Str("Inicio de sesión exitoso"),
                               "token" := Str(token),
                               "usuario" := Obj(map["email" := Get(row, "email"), "rol" := Get(rol, "nombre")])]))
  }

  /** An unknown email and a wrong password get the same answer, so the reply
      does not reveal which emails are registered. */
  lemma SameAnswerForUnknownAndWrong(usuarios: map<int, Row>, roles: map<int, Row>, body: Body,
                                     compare: (Value, Value) -> Option<bool>, secret: Option<string>,
                                     sign: SignCall -> string)
    requires UniqueEmails(usuarios)
    requires Get(body, "email").Str?
    requires || FindByEmail(usuarios, Get(body, "email")).None?
             || (var id := FindByEmail(usuarios, Get(body, "email")).value;
                 RolOf(usuarios[id], roles).Some? && compare(Get(body, "contrasena"), Get(usuarios[id], "contrasena")) == Some(false))
    ensures Login(usuarios, roles, body, compare, secret, sign) == ErrorReply(401, "Credenciales inválidas")
  {
  }

  /** A user without a role gets 500 whatever the password: the role is
      checked before the comparison. */
  lemma NullRolBeforeCompare(usuarios: map<int, Row>, roles: map<int, Row>, body: Body,
                             compare1: (Value, Value) -> Option<bool>, compare2: (Value, Value) -> Option<bool>,
                             secret: Option<string>, sign: SignCall -> string, id: int)
    requires UniqueEmails(usuarios)
    requires id in usuarios && Get(usuarios[id], "email") == Get(body, "email") && Get(body, "email").Str?
    requires RolOf(usuarios[id], roles).None?
    ensures Login(usuarios, roles, body, compare1, secret, sign) == ErrorReply(500, "No se ha encontrado el rol.")
    ensures Login(usuarios, roles, body, compare1, secret, sign) == Login(usuarios, roles, body, compare2, secret, sign)
  {
    assert FindByEmail(usuarios, Get(body, "email")) == Some(id);
  }

  /** Valid credentials without a configured secret end in 500. */
  lemma LoginMissingSecret(usuarios: map<int, Row>, roles: map<int, Row>, body: Body,
                           compare: (Value, Value) -> Option<bool>, sign: SignCall -> string, id: int, secret: Option<string>)
    requires UniqueEmails(usuarios)
    requires id in usuarios && Get(usuarios[id], "email") == Get(body, "email") && Get(body, "email").Str?
    requires RolOf(usuarios[id], roles).Some?
    requires compare(Get(body, "contrasena"), Get(usuarios[id], "contrasena")) == Some(true)
    requires secret == None || secret == Some("")
    ensures Login(usuarios, roles, body, compare, secret, sign) == ErrorReply(500, InternalError)
  {
    assert FindByEmail(usuarios, Get(body, "email")) == Some(id);
  }

  /** A successful login signs exactly the snapshot {id, email, rol name}
      with a one-hour lifetime and answers 200 with the token, the email and
      the role name. */
  lemma LoginSuccess(usuarios: map<int, Row>, roles: map<int, Row>, body: Body,
                     compare: (Value, Value) -> Option<bool>, sign: SignCall -> string, id: int, secret: string)
    requires UniqueEmails(usuarios)
    requires id in usuarios && Get(usuarios[id], "email") == Get(body, "email") && Get(body, "email").Str?
    requires RolOf(usuarios[id], roles).Some?
    requires compare(Get(body, "contrasena"), Get(usuarios[id], "contrasena")) == Some(true)
    requires secret != ""
    ensures var rol := RolOf(usuarios[id], roles).value;
            var call := SignCall(Obj(map["id" := IdValue(id), "email" := Get(body, "email"), "rol" := Get(rol, "nombre")]), secret, "1h");
            Login(usuarios, roles, body, compare, Some(secret), sign)
              == Reply(200, Obj(map["message" := Str("Inicio de sesión exitoso"),
                                    "token" := Str(sign(call)),
                                    "usuario" := Obj(map["email" := Get(body, "email"), "rol" := Get(rol, "nombre")])]))
  {
    assert FindByEmail(usuarios, Get(body, "email")) == Some(id);
  }

  /** `jwt.verify` hands back what was signed, possibly with registered
      claims such as `iat` and `exp` added: an object that carries every
      signed claim with its signed value. */
  predicate DecodesSigned(v: Verified, claims: map<string, Value>)
  {
    v.Decoded? && v.payload.Obj? && forall k :: k in claims ==> k in v.payload.props && v.payload.props[k] == claims[k]
  }

  /** Login and the authentication gate together: a token issued by a
      successful login, presented as "Bearer <token>" to a verifier that
      decodes the tokens it signed (with any registered claims added), attaches exactly the login-time snapshot.
      The gate never consults the user table again, so a later change of the
      user's role does not reach requests carrying this token. */
  lemma IssuedTokenAuthenticates(usuarios: map<int, Row>, roles: map<int, Row>, body: Body,
                                 compare: (Value, Value) -> Option<bool>, sign: SignCall -> string,
                                 verify: (string, string) -> Verified, id: int, secret: string)
    requires UniqueEmails(usuarios)
    requires id in usuarios && Get(usuarios[id], "email") == Get(body, "email") && Get(body, "email").Str?
    requires RolOf(usuarios[id], roles).Some?
    requires compare(Get(body, "contrasena"), Get(usuarios[id], "contrasena")) == Some(true)
    requires secret != ""
    requires forall c: SignCall {:trigger sign(c)} :: c.secret == secret && c.expiresIn == ExpiresIn && c.payload.Obj?
               ==> NoSpace(sign(c)) && DecodesSigned(verify(sign(c), secret), c.payload.props)
    ensures var reply := Login(usuarios, roles, body, compare, Some(secret), sign);
            && reply.status == 200
            && reply.body.Obj? && "token" in reply.body.props && reply.body.props["token"].Str?
            && Authenticate(Some("Bearer " + reply.body.props["token"].s), Some(secret), verify)
               == Accept(Usuario(IdValue(id), Get(body, "email"), Get(RolOf(usuarios[id], roles).value, "nombre")))
  {
    LoginSuccess(usuarios, roles, body, compare, sign, id, secret);
    var rol := RolOf(usuarios[id], roles).value;
    var call := SignCall(Obj(map["id" := IdValue(id), "email" := Get(body, "email"), "rol" := Get(rol, "nombre")]), secret, "1h");
    var token := sign(call);
    assert NoSpace(token) && DecodesSigned(verify(token, secret), call.payload.props);
    assert NoSpace("Bearer");
    SchemeNeverInspected("Bearer", token, Some(secret), verify);
    AcceptIff(Some("Bearer " + token), Some(secret), verify);
    assert Join(["Bearer", token]) == "Bearer " + token;
    JoinSplit(["Bearer", token]);
  }
}
