/** Maintenance of the role-permission graph: `createRol`, `updateRol` and
    `deleteRol`. The text of a caught exception, which two of the handlers
    append to their error message, is a parameter `errorText`. */
module RolesController {
  import opened Values
  import opened Http
  import opened Store

  // ----- Permission-id normalisation -----

  /** A string is wrapped into a one-element list, a list is mapped through
      `Number` and its NaN entries dropped, anything else gives []. */
  function NormalizePermisos(permisos: Value): (ids: seq<int>)
    ensures !permisos.Str? && !permisos.Arr? ==> ids == []
  {
    match permisos
    case Str(_) => IdsOf([permisos])
    case Arr(xs) => IdsOf(xs)
    case _ => []
  }

  /** A single id sent as a string is kept when it is a number, and gives
      [] otherwise. */
  lemma StringWrapped(s: string)
    ensures StrToNumber(s).Int? ==> NormalizePermisos(Str(s)) == [StrToNumber(s).i]
    ensures StrToNumber(s).NaN? ==> NormalizePermisos(Str(s)) == []
  {
    var xs := [Str(s)];
    assert xs[1..] == [] && IdsOf(xs[1..]) == [];
    assert ToNumber(xs[0]) == StrToNumber(s);
    assert NormalizePermisos(Str(s)) == IdsOf(xs);
  }

  /** For a list, an id is kept exactly when some entry converts to it, the
      result is empty exactly when every entry is NaN, and when no entry is
      NaN the ids come in the order of the entries. */
  lemma NormalizeList(xs: seq<Value>)
    ensures forall id :: id in NormalizePermisos(Arr(xs)) <==> exists k :: 0 <= k < |xs| && ToNumber(xs[k]) == Int(id)
    ensures NormalizePermisos(Arr(xs)) == [] <==> forall k :: 0 <= k < |xs| ==> ToNumber(xs[k]).NaN?
    ensures (forall k :: 0 <= k < |xs| ==> ToNumber(xs[k]).Int?) ==>
              |NormalizePermisos(Arr(xs))| == |xs|
              && forall k :: 0 <= k < |xs| ==> ToNumber(xs[k]) == Int(NormalizePermisos(Arr(xs))[k])
  {
    forall id
      ensures id in IdsOf(xs) <==> exists k :: 0 <= k < |xs| && ToNumber(xs[k]) == Int(id)
    {
      IdsOfMembership(xs, id);
    }
    IdsOfEmpty(xs);
    if forall k :: 0 <= k < |xs| ==> ToNumber(xs[k]).Int? {
      IdsOfAllNumbers(xs);
    }
  }

  /** Normalising ["3", "x", 7] keeps [3, 7]. */
  lemma NormalizeExample()
    ensures NormalizePermisos(Arr([Str("3"), Str("x"), Num(Int(7))])) == [3, 7]
  {
    var xs := [Str("3"), Str("x"), Num(Int(7))];
    assert DigitsValue("3") == 3 by {
      assert "3"[..0] == [];
    }
    assert StrToNumber("x") == NaN;
    assert IdsOf(xs[2..]) == [7];
    assert xs[1..][1..] == xs[2..];
    assert IdsOf(xs[1..]) == [7];
  }

  // ----- createRol -----

  /** The scalar columns of a role. */
  const RolFields: set<string> := {"nombre", "descripcion", "estado"}

  /** The row `rol.create` writes: the three scalars as sent (an undefined one
      is not written) and, when `usuario_creador_id` is truthy, the creator's
      key as `Number` gives it. */
  function NewRol(body: Body): (r: Row)
    ensures forall f :: f in RolFields ==> (f in r <==> Get(body, f) != Undefined)
    ensures forall f :: f in RolFields && f in r ==> r[f] == Get(body, f)
    ensures "usuario_creador_id" in r <==> Truthy(Get(body, "usuario_creador_id"))
    ensures r.Keys <= RolFields + {"usuario_creador_id"}
  {
    var scalars := Defined(map["nombre" := Get(body, "nombre"), "descripcion" := Get(body, "descripcion"),
                               "estado" := Get(body, "estado")]);
    if Truthy(Get(body, "usuario_creador_id"))
    then scalars["usuario_creador_id" := Num(ToNumber(Get(body, "usuario_creador_id")))]
    else scalars
  }

  /** Some id to connect names no stored permission. */
  predicate MissingPermiso(permisos: map<int, Row>, ids: seq<int>)
  {
    exists p :: p in ids && p !in permisos
  }

  /** A truthy `usuario_creador_id` that names no stored user. */
  predicate UnknownCreador(usuarios: map<int, Row>, creador: Value)
  {
    Truthy(creador) && (ToNumber(creador).NaN? || ToNumber(creador).i !in usuarios)
  }

  /** Role names are unique: some role other than `except` already has the
      name `nombre`. */
  predicate NameTaken(roles: map<int, Row>, nombre: Value, except: Option<int>)
  {
    nombre != Undefined && exists k :: k in roles && Some(k) != except && Get(roles[k], "nombre") == nombre
  }

  /** Why `createRol` answers without creating, in the order it finds out:
      no permission id survives normalisation (422); a permission to connect
      does not exist, the creator id is NaN or names no user, or the name is
      already taken, and the create throws (500). */
  function CreateRolRefusal(usuarios: map<int, Row>, roles: map<int, Row>, permisos: map<int, Row>, body: Body, errorText: string): Option<Reply>
  {
    var ids := NormalizePermisos(Get(body, "permisos"));
    var creador := Get(body, "usuario_creador_id");
    if ids == [] then Some(ErrorReply(422, "Debes seleccionar al menos un permiso"))
    else if MissingPermiso(permisos, ids) || UnknownCreador(usuarios, creador)
         || NameTaken(roles, Get(body, "nombre"), None)
    then Some(ErrorReply(500, "No se pudo crear el rol: " + errorText))
    else None
  }

  /** An empty permission list is refused with 422, whatever else is sent. */
  lemma CreateNeedsPermiso(usuarios: map<int, Row>, roles: map<int, Row>, permisos: map<int, Row>, body: Body, errorText: string)
    ensures NormalizePermisos(Get(body, "permisos")) == [] <==>
            CreateRolRefusal(usuarios, roles, permisos, body, errorText) == Some(ErrorReply(422, "Debes seleccionar al menos un permiso"))
  {
  }

  /** `createRol`: a refusal writes nothing; otherwise one role is added under
      a fresh key, linked to exactly the normalised permission ids. */
  method CreateRol(db: Db, body: Body, errorText: string) returns (reply: Reply)
    requires db.Valid()
    modifies db`roles, db`rolPermiso, db`nextId
    ensures db.Valid()
    ensures CreateRolRefusal(db.usuarios, old(db.roles), db.permisos, body, errorText).Some? ==>
              reply == CreateRolRefusal(db.usuarios, old(db.roles), db.permisos, body, errorText).value
              && db.roles == old(db.roles) && db.rolPermiso == old(db.rolPermiso)
    ensures CreateRolRefusal(db.usuarios, old(db.roles), db.permisos, body, errorText).None? ==>
              var id := old(db.nextId);
              && id !in old(db.roles)
              && db.roles == old(db.roles)[id := NewRol(body)]
              && db.rolPermiso == old(db.rolPermiso) + LinksFor(id, NormalizePermisos(Get(body, "permisos")))
              && PermisosOf(db.rolPermiso, id) == set p | p in NormalizePermisos(Get(body, "permisos"))
              && reply == Reply(201, Record(id, NewRol(body)))
  {
    var permisosConnect := NormalizePermisos(Get(body, "permisos"));
    if |permisosConnect| == 0 {
      return ErrorReply(422, "Debes seleccionar al menos un permiso");
    }
    var creador := Get(body, "usuario_creador_id");
    if MissingPermiso(db.permisos, permisosConnect) || UnknownCreador(db.usuarios, creador)
       || NameTaken(db.roles, Get(body, "nombre"), None) {
      return ErrorReply(500, "No se pudo crear el rol: " + errorText);
    }
    var id := db.nextId;
    var data := NewRol(body);
    FreshRolLinks(db.rolPermiso, db.roles, id, permisosConnect);
    ConnectKeepsResolved(db.rolPermiso, db.roles, db.permisos, id, data, permisosConnect);
    db.roles := db.roles[id := data];
    db.rolPermiso := db.rolPermiso + LinksFor(id, permisosConnect);
    db.nextId := db.nextId + 1;
    reply := Reply(201, Record(id, data));
  }

  /** A role with a fresh key has no links yet, so after connecting `ids` its
      permission set is exactly `ids`. */
  lemma FreshRolLinks(links: set<RolPermiso>, roles: map<int, Row>, id: int, ids: seq<int>)
    requires forall l :: l in links ==> l.rol in roles
    requires id !in roles
    ensures PermisosOf(links + LinksFor(id, ids), id) == set p | p in ids
  {
    var r := links + LinksFor(id, ids);
    forall x | x in PermisosOf(r, id)
      ensures x in ids
    {
      var l :| l in r && l.rol == id && l.permiso == x;
    }
    forall x | x in ids
      ensures x in PermisosOf(r, id)
    {
      assert RolPermiso(id, x) in r;
    }
  }

  /** Connecting existing permissions to a new role keeps every link
      resolvable. */
  lemma ConnectKeepsResolved(links: set<RolPermiso>, roles: map<int, Row>, permisos: map<int, Row>,
                             id: int, row: Row, ids: seq<int>)
    requires LinksResolve(links, roles, permisos)
    requires forall p :: p in ids ==> p in permisos
    ensures LinksResolve(links + LinksFor(id, ids), roles[id := row], permisos)
  {
  }

  // ----- updateRol -----

  /** The `data` object `updateRol` builds: each of nombre, descripcion and
      estado is copied only when truthy. */
  method BuildRolUpdate(body: Body) returns (data: Row)
    ensures forall f :: f in data <==> f in RolFields && Truthy(Get(body, f))
    ensures forall f :: f in data ==> data[f] == Get(body, f)
  {
    data := map[];
    if Truthy(Get(body, "nombre")) {
      data := data["nombre" := Get(body, "nombre")];
    }
    if Truthy(Get(body, "descripcion")) {
      data := data["descripcion" := Get(body, "descripcion")];
    }
    if Truthy(Get(body, "estado")) {
      data := data["estado" := Get(body, "estado")];
    }
  }

  /** `after` is `before` with the truthy ones among `fields` taken from the
      body and every other column left as it was. */
  ghost predicate OverwritesTruthy(before: Row, after: Row, body: Body, fields: set<string>)
  {
    && (forall f :: f in fields && Truthy(Get(body, f)) ==> f in after && after[f] == Get(body, f))
    && (forall f :: f !in fields || !Truthy(Get(body, f)) ==> (f in after <==> f in before))
    && (forall f :: (f !in fields || !Truthy(Get(body, f))) && f in before ==> after[f] == before[f])
  }

  /** Writing the built `data` overwrites exactly the truthy role fields. */
  lemma RolUpdateOverwrites(row: Row, data: Row, body: Body)
    requires forall f :: f in data <==> f in RolFields && Truthy(Get(body, f))
    requires forall f :: f in data ==> data[f] == Get(body, f)
    ensures OverwritesTruthy(row, ApplyUpdate(row, data), body, RolFields)
  {
  }

  /** Why the `rol.update` of `updateRol` throws: no role with that key, a
      permission to set that does not exist, or a new name another role
      already has. */
  predicate UpdateRolFails(roles: map<int, Row>, permisos: map<int, Row>, id: int, body: Body)
  {
    || id !in roles
    || MissingPermiso(permisos, NormalizePermisos(Get(body, "permisos")))
    || (Truthy(Get(body, "nombre")) && NameTaken(roles, Get(body, "nombre"), Some(id)))
  }

  /** `updateRol`: a NaN id is refused with 400 before any write; when the
      update throws the answer is 400 and nothing is written; otherwise the
      truthy scalars are overwritten and a non-empty id list replaces the
      role's whole permission set, while an empty one leaves it as it
      was. */
  method UpdateRol(db: Db, idParam: string, body: Body, errorText: string) returns (reply: Reply)
    requires db.Valid()
    modifies db`roles, db`rolPermiso
    ensures db.Valid()
    ensures ParamKey(idParam).None? ==>
              reply == ErrorReply(400, "ID inválido") && db.roles == old(db.roles) && db.rolPermiso == old(db.rolPermiso)
    ensures ParamKey(idParam).Some? && UpdateRolFails(old(db.roles), db.permisos, ParamKey(idParam).value, body) ==>
              reply == ErrorReply(400, "No se pudo actualizar el rol: " + errorText)
              && db.roles == old(db.roles) && db.rolPermiso == old(db.rolPermiso)
    ensures ParamKey(idParam).Some? && !UpdateRolFails(old(db.roles), db.permisos, ParamKey(idParam).value, body) ==>
              var id := ParamKey(idParam).value;
              var ids := NormalizePermisos(Get(body, "permisos"));
              && id in old(db.roles) && id in db.roles
              && db.roles == old(db.roles)[id := db.roles[id]]
              && OverwritesTruthy(old(db.roles)[id], db.roles[id], body, RolFields)
              && (ids != [] ==> db.rolPermiso == ReplaceLinks(old(db.rolPermiso), id, ids))
              && (ids == [] ==> db.rolPermiso == old(db.rolPermiso))
              && reply == Reply(200, Record(id, db.roles[id]))
  {
    var key := ParamKey(idParam);
    if key.None? {
      return ErrorReply(400, "ID inválido");
    }
    var id := key.value;
    var permisosIds := NormalizePermisos(Get(body, "permisos"));
    var data := BuildRolUpdate(body);
    if UpdateRolFails(db.roles, db.permisos, id, body) {
      return ErrorReply(400, "No se pudo actualizar el rol: " + errorText);
    }
    RolUpdateOverwrites(db.roles[id], data, body);
    db.roles := db.roles[id := ApplyUpdate(db.roles[id], data)];
    if |permisosIds| > 0 {
      db.rolPermiso := ReplaceLinks(db.rolPermiso, id, permisosIds);
    }
    reply := Reply(200, Record(id, db.roles[id]));
  }

  // ----- deleteRol -----

  /** `deleteRol`: a NaN id is refused with 422 and a missing role with 400,
      both writing nothing; otherwise exactly that role goes, together with
      its permission links. */
  method DeleteRol(db: Db, idParam: string) returns (reply: Reply)
    requires db.Valid()
    modifies db`roles, db`rolPermiso
    ensures db.Valid()
    ensures ParamKey(idParam).None? ==>
              reply == ErrorReply(422, "La url debe contener el id del elemento a eliminar.")
              && db.roles == old(db.roles) && db.rolPermiso == old(db.rolPermiso)
    ensures ParamKey(idParam).Some? && ParamKey(idParam).value !in old(db.roles) ==>
              reply == ErrorReply(400, "Error al eliminar el rol")
              && db.roles == old(db.roles) && db.rolPermiso == old(db.rolPermiso)
    ensures ParamKey(idParam).Some? && ParamKey(idParam).value in old(db.roles) ==>
              var id := ParamKey(idParam).value;
              && db.roles == old(db.roles) - {id}
              && db.rolPermiso == set l | l in old(db.rolPermiso) && l.rol != id
              && reply == Reply(200, Obj(map["message" := Str("Rol eliminado correctamente")]))
  {
    var key := ParamKey(idParam);
    if key.None? {
      return ErrorReply(422, "La url debe contener el id del elemento a eliminar.");
    }
    var id := key.value;
    if id !in db.roles {
      return ErrorReply(400, "Error al eliminar el rol");
    }
    db.roles := db.roles - {id};
    db.rolPermiso := set l | l in db.rolPermiso && l.rol != id;
    reply := Reply(200, Obj(map["message" := Str("Rol eliminado correctamente")]));
  }
}
