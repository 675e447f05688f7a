/** The administrative user handlers `createUsuario`, `updateUsuario` and
    `deleteUsuario`. Unlike self-registration, `createUsuario` stores the
    password exactly as it was sent. */
module UsuariosController {
  import opened Values
  import opened Http
  import opened Store
  import opened UsuarioAutenticacion

  /** The key a `connect: { id: v }` names: only an integer number is a key,
      anything else makes Prisma reject the query. */
  function ConnectKey(v: Value): (r: Option<int>)
    ensures r.Some? <==> v.Num? && v.n.Int?
    ensures r.Some? ==> v == IdValue(r.value)
  {
    match v
    case Num(Int(k)) => Some(k)
    case _ => None
  }

  // ----- createUsuario -----

  /** Why `createUsuario` refuses, in the order the handler meets the
      problem, or None when it creates the user. Only the literal number NaN
      is caught by `Number.isNaN(rol)`. A non-string email or password, a
      role that is not an existing key, or (last, at the insert) an email
      already stored all make `usuario.create` throw; only the unique-email
      violation (P2002) has its own answer. */
  function CreateUsuarioRefusal(usuarios: map<int, Row>, roles: map<int, Row>, body: Body): Option<Reply>
    requires UniqueEmails(usuarios)
  {
    var email := Get(body, "email");
    var contrasena := Get(body, "contrasena");
    var rol := Get(body, "rol");
    if rol == Num(NaN) then Some(ErrorReply(422, "El rol no es un int."))
    else if !Truthy(email) then Some(ErrorReply(400, "El email es obligatorio"))
    else if !Truthy(contrasena) then Some(ErrorReply(400, "La contraseña es obligatoria."))
    else if !email.Str? || !contrasena.Str? || ConnectKey(rol).None? || ConnectKey(rol).value !in roles then
      Some(ErrorReply(500, "Error al crear usuario"))
    else if FindByEmail(usuarios, email).Some? then Some(ErrorReply(400, "El email o rol ya están en uso"))
    else None
  }

  /** `createUsuario`: on a refusal nothing is written; otherwise exactly one
      user is added under a fresh key, with the email, the plaintext
      password and the role it names. */
  method CreateUsuario(db: Db, body: Body) returns (reply: Reply)
    requires db.Valid()
    modifies db`usuarios, db`nextId
    ensures db.Valid()
    ensures CreateUsuarioRefusal(old(db.usuarios), db.roles, body).Some? ==>
              reply == CreateUsuarioRefusal(old(db.usuarios), db.roles, body).value
              && db.usuarios == old(db.usuarios)
    ensures CreateUsuarioRefusal(old(db.usuarios), db.roles, body).None? ==>
              var id := old(db.nextId);
              && id !in old(db.usuarios) && id in db.usuarios
              && var row := db.usuarios[id];
              && db.usuarios == old(db.usuarios)[id := row]
              && row.Keys == {"email", "contrasena", "rol_id"}
              && row["email"] == Get(body, "email")
              && row["contrasena"] == Get(body, "contrasena")
              && row["rol_id"] == Get(body, "rol") && ConnectKey(row["rol_id"]).value in db.roles
              && reply == Reply(201, Record(id, row))
  {
    var email := Get(body, "email");
    var contrasena := Get(body, "contrasena");
    var rol := Get(body, "rol");
    if rol == Num(NaN) {
      return ErrorReply(422, "El rol no es un int.");
    }
    if !Truthy(email) {
      return ErrorReply(400, "El email es obligatorio");
    }
    if !Truthy(contrasena) {
      return ErrorReply(400, "La contraseña es obligatoria.");
    }
    var key := ConnectKey(rol);
    if !email.Str? || !contrasena.Str? || key.None? || key.value !in db.roles {
      return ErrorReply(500, "Error al crear usuario");
    }
    if FindByEmail(db.usuarios, email).Some? {
      return ErrorReply(400, "El email o rol ya están en uso");
    }
    var id := db.nextId;
    var row := NewUsuario(email, contrasena.s, key.value);
    AddKeepsUnique(db.usuarios, id, row);
    db.usuarios := db.usuarios[id := row];
    db.nextId := db.nextId + 1;
    reply := Reply(201, Record(id, row));
  }

  /** A NaN `rol` is answered 422 whatever else the body holds. */
  lemma NaNRolFirst(usuarios: map<int, Row>, roles: map<int, Row>, body: Body)
    requires UniqueEmails(usuarios)
    requires Get(body, "rol") == Num(NaN)
    ensures CreateUsuarioRefusal(usuarios, roles, body) == Some(ErrorReply(422, "El rol no es un int."))
  {
  }

  /** The email is checked before the password: a body missing both is
      answered with the email message. */
  lemma EmailBeforePassword(usuarios: map<int, Row>, roles: map<int, Row>, body: Body)
    requires UniqueEmails(usuarios)
    requires Get(body, "rol") != Num(NaN)
    requires !Truthy(Get(body, "email")) && !Truthy(Get(body, "contrasena"))
    ensures CreateUsuarioRefusal(usuarios, roles, body) == Some(ErrorReply(400, "El email es obligatorio"))
  {
  }

  /** The NaN guard inspects only the value itself, not its `Number`: a role
      sent as a non-numeric string passes it and the insert fails with 500. */
  lemma NaNGuardIsLiteral(usuarios: map<int, Row>, roles: map<int, Row>, email: string, contrasena: string)
    requires UniqueEmails(usuarios)
    requires email != "" && contrasena != ""
    ensures var body := map["email" := Str(email), "contrasena" := Str(contrasena), "rol" := Str("abc")];
            && ToNumber(Str("abc")) == NaN
            && CreateUsuarioRefusal(usuarios, roles, body) == Some(ErrorReply(500, "Error al crear usuario"))
  {
    var body := map["email" := Str(email), "contrasena" := Str(contrasena), "rol" := Str("abc")];
    assert Get(body, "rol") == Str("abc");
    assert !IsDigit('a');
  }

  /** A well-formed body whose email is already stored is refused with the
      unique-constraint answer 400. */
  lemma DuplicateEmailRefused(usuarios: map<int, Row>, roles: map<int, Row>, body: Body, k: int)
    requires UniqueEmails(usuarios)
    requires Get(body, "email").Str? && Get(body, "email") != Str("")
    requires Get(body, "contrasena").Str? && Get(body, "contrasena") != Str("")
    requires ConnectKey(Get(body, "rol")).Some? && ConnectKey(Get(body, "rol")).value in roles
    requires k in usuarios && Get(usuarios[k], "email") == Get(body, "email")
    ensures CreateUsuarioRefusal(usuarios, roles, body) == Some(ErrorReply(400, "El email o rol ya están en uso"))
  {
  }

  /** Every answer of `createUsuario` other than success is 400, 422 or 500. */
  lemma CreateRefusalStatus(usuarios: map<int, Row>, roles: map<int, Row>, body: Body)
    requires UniqueEmails(usuarios)
    requires CreateUsuarioRefusal(usuarios, roles, body).Some?
    ensures CreateUsuarioRefusal(usuarios, roles, body).value.status in {400, 422, 500}
  {
  }

  // ----- updateUsuario -----

  /** The `data` object `updateUsuario` builds: the password when it is
      truthy, and the role when `rol` is truthy. `{ disconnect: true,
      connect: { id: rol } }` leaves the user pointing at `rol`, which is
      written here as the new `rol_id`. */
  method BuildUsuarioUpdate(body: Body) returns (data: Row)
    ensures "contrasena" in data <==> Truthy(Get(body, "contrasena"))
    ensures "rol_id" in data <==> Truthy(Get(body, "rol"))
    ensures forall f :: f in data ==> f == "contrasena" || f == "rol_id"
    ensures "contrasena" in data ==> data["contrasena"] == Get(body, "contrasena")
    ensures "rol_id" in data ==> data["rol_id"] == Get(body, "rol")
  {
    data := map[];
    var contrasena := Get(body, "contrasena");
    var rol := Get(body, "rol");
    if Truthy(contrasena) {
      data := data["contrasena" := contrasena];
    }
    if Truthy(rol) {
      data := data["rol_id" := rol];
    }
  }

  /** `after` is `before` with the password replaced when the body's is
      truthy, the role re-pointed when the body's `rol` is truthy, and every
      other column, the email among them, as it was. */
  ghost predicate PatchesUsuario(before: Row, after: Row, body: Body)
  {
    && (Truthy(Get(body, "contrasena")) ==> "contrasena" in after && after["contrasena"] == Get(body, "contrasena"))
    && (Truthy(Get(body, "rol")) ==> "rol_id" in after && after["rol_id"] == Get(body, "rol"))
    && (forall f :: (f == "contrasena" ==> !Truthy(Get(body, "contrasena")))
                 && (f == "rol_id" ==> !Truthy(Get(body, "rol")))
                 ==> (f in after <==> f in before) && (f in before ==> after[f] == before[f]))
  }

  /** Writing the built `data` patches the row as described, and leaves the
      email alone. */
  lemma UsuarioUpdateEffect(row: Row, data: Row, body: Body)
    requires "contrasena" in data <==> Truthy(Get(body, "contrasena"))
    requires "rol_id" in data <==> Truthy(Get(body, "rol"))
    requires forall f :: f in data ==> f == "contrasena" || f == "rol_id"
    requires "contrasena" in data ==> data["contrasena"] == Get(body, "contrasena")
    requires "rol_id" in data ==> data["rol_id"] == Get(body, "rol")
    ensures PatchesUsuario(row, ApplyUpdate(row, data), body)
    ensures Get(ApplyUpdate(row, data), "email") == Get(row, "email")
  {
  }

  /** Replacing a user's row by one with the same email keeps emails
      unique. */
  lemma SameEmailKeepsUnique(usuarios: map<int, Row>, id: int, row: Row)
    requires UniqueEmails(usuarios) && id in usuarios
    requires Get(row, "email") == Get(usuarios[id], "email")
    ensures UniqueEmails(usuarios[id := row])
  {
    var u := usuarios[id := row];
    forall a, b | a in u && b in u && Get(u[a], "email") == Get(u[b], "email")
      ensures a == b
    {
      assert Get(u[a], "email") == Get(usuarios[a], "email");
      assert Get(u[b], "email") == Get(usuarios[b], "email");
    }
  }

  /** Why the write of `updateUsuario` throws: no user with that key, a
      truthy password that is not a string, or a truthy role that is not an
      existing key. */
  predicate UpdateUsuarioFails(usuarios: map<int, Row>, roles: map<int, Row>, id: int, body: Body)
  {
    var contrasena := Get(body, "contrasena");
    var rol := Get(body, "rol");
    || id !in usuarios
    || (Truthy(contrasena) && !contrasena.Str?)
    || (Truthy(rol) && (ConnectKey(rol).None? || ConnectKey(rol).value !in roles))
  }

  /** `updateUsuario`: a NaN id is refused with 403 before any write; a
      failing write is answered 500 and changes nothing; otherwise only that
      user's row is patched and returned. */
  method UpdateUsuario(db: Db, idParam: string, body: Body) returns (reply: Reply)
    requires db.Valid()
    modifies db`usuarios
    ensures db.Valid()
    ensures ParamKey(idParam).None? ==>
              reply == ErrorReply(403, "ID en URL invalido.") && db.usuarios == old(db.usuarios)
    ensures ParamKey(idParam).Some? && UpdateUsuarioFails(old(db.usuarios), db.roles, ParamKey(idParam).value, body) ==>
              reply == ErrorReply(500, "Error al actualizar usuario") && db.usuarios == old(db.usuarios)
    ensures ParamKey(idParam).Some? && !UpdateUsuarioFails(old(db.usuarios), db.roles, ParamKey(idParam).value, body) ==>
              var id := ParamKey(idParam).value;
              && id in old(db.usuarios) && id in db.usuarios
              && db.usuarios == old(db.usuarios)[id := db.usuarios[id]]
              && PatchesUsuario(old(db.usuarios)[id], db.usuarios[id], body)
              && reply == Reply(200, Record(id, db.usuarios[id]))
  {
    var key := ParamKey(idParam);
    if key.None? {
      return ErrorReply(403, "ID en URL invalido.");
    }
    var id := key.value;
    var data := BuildUsuarioUpdate(body);
    if UpdateUsuarioFails(db.usuarios, db.roles, id, body) {
      return ErrorReply(500, "Error al actualizar usuario");
    }
    var row := ApplyUpdate(db.usuarios[id], data);
    UsuarioUpdateEffect(db.usuarios[id], data, body);
    SameEmailKeepsUnique(db.usuarios, id, row);
    db.usuarios := db.usuarios[id := row];
    reply := Reply(200, Record(id, row));
  }

  // ----- deleteUsuario -----

  /** `deleteUsuario`: a NaN id makes the lookup throw (500), a missing user
      is answered 404, both writing nothing; otherwise exactly that user is
      removed. */
  method DeleteUsuario(db: Db, idParam: string) returns (reply: Reply)
    requires db.Valid()
    modifies db`usuarios
    ensures db.Valid()
    ensures ParamKey(idParam).None? ==>
              reply == ErrorReply(500, "Error al eliminar usuario") && db.usuarios == old(db.usuarios)
    ensures ParamKey(idParam).Some? && ParamKey(idParam).value !in old(db.usuarios) ==>
              reply == ErrorReply(404, "Usuario no encontrado") && db.usuarios == old(db.usuarios)
    ensures ParamKey(idParam).Some? && ParamKey(idParam).value in old(db.usuarios) ==>
              && db.usuarios == old(db.usuarios) - {ParamKey(idParam).value}
              && reply == Reply(200, Obj(map["message" := Str("Usuario eliminado correctamente")]))
  {
    var key := ParamKey(idParam);
    if key.None? {
      return ErrorReply(500, "Error al eliminar usuario");
    }
    if key.value !in db.usuarios {
      return ErrorReply(404, "Usuario no encontrado");
    }
    db.usuarios := db.usuarios - {key.value};
    reply := Reply(200, Obj(map["message" := Str("Usuario eliminado correctamente")]));
  }
}
