/** The database behind the Prisma client, as an in-memory store: one map per
    table from primary key to row, and one set per many-to-many link table. */
module Store {
  import opened Values

  /** A stored record: column name to value. The primary key is the map key
      of its table and is not repeated inside the row. */
  type Row = map<string, Value>

  /** A row of the implicit role-permission link table. */
  datatype RolPermiso = RolPermiso(rol: int, permiso: int)

  /** A row of the `paquete_servicio` link table. */
  datatype PaqueteServicio = PaqueteServicio(paquete: int, servicio: int)

  /** The role-permission graph both gates depend on. */
  datatype Graph = Graph(roles: map<int, Row>, permisos: map<int, Row>, links: set<RolPermiso>)

  /** A primary key as a JSON value. */
  function IdValue(k: int): Value
  {
    Num(Int(k))
  }

  /** `Number(req.params.id)` used in a `where: { id }`: NaN is not a key
      (Prisma rejects it before touching the table). */
  function ParamKey(param: string): Option<int>
  {
    match StrToNumber(param)
    case Int(k) => Some(k)
    case NaN => None
  }

  /** The fields of a Prisma `data` object that are written: a field whose
      value is `undefined` is skipped. */
  function Defined(data: Row): (r: Row)
    ensures forall k :: k in r <==> k in data && data[k] != Undefined
    ensures forall k :: k in r ==> r[k] == data[k]
  {
    map k | k in data && data[k] != Undefined :: data[k]
  }

  /** Prisma `update` of one row with a `data` object: defined fields are
      overwritten or added, every other column keeps its value. */
  function ApplyUpdate(row: Row, data: Row): (r: Row)
    ensures forall k :: k in r <==> k in row || (k in data && data[k] != Undefined)
    ensures forall k :: k in data && data[k] != Undefined ==> r[k] == data[k]
    ensures forall k :: k in row && (k !in data || data[k] == Undefined) ==> r[k] == row[k]
  {
    row + Defined(data)
  }

  /** A record as Prisma returns it: the row with its primary key. */
  function Record(id: int, row: Row): (r: Value)
    ensures r.Obj? && "id" in r.props && r.props["id"] == IdValue(id)
    ensures forall k :: k in row && k != "id" ==> k in r.props && r.props[k] == row[k]
  {
    Obj(row["id" := IdValue(id)])
  }

  /** The ids of the permissions linked to role `rol`. */
  function PermisosOf(links: set<RolPermiso>, rol: int): set<int>
  {
    set l | l in links && l.rol == rol :: l.permiso
  }

  /** `permisos: { connect: ids.map(id => ({ id })) }` for role `rol`. */
  function LinksFor(rol: int, ids: seq<int>): (r: set<RolPermiso>)
    ensures forall l :: l in r <==> l.rol == rol && l.permiso in ids
  {
    set p | p in ids :: RolPermiso(rol, p)
  }

  /** `permisos: { set: ids.map(id => ({ id })) }` for role `rol`: that role
      ends up linked to exactly `ids`, every other role keeps its links. */
  function ReplaceLinks(links: set<RolPermiso>, rol: int, ids: seq<int>): (r: set<RolPermiso>)
    ensures PermisosOf(r, rol) == set p | p in ids
    ensures forall k :: k != rol ==> PermisosOf(r, k) == PermisosOf(links, k)
  {
    var r := (set l | l in links && l.rol != rol) + LinksFor(rol, ids);
    ReplacedPermisos(links, rol, ids, r);
    r
  }

  lemma ReplacedPermisos(links: set<RolPermiso>, rol: int, ids: seq<int>, r: set<RolPermiso>)
    requires r == (set l | l in links && l.rol != rol) + LinksFor(rol, ids)
    ensures PermisosOf(r, rol) == set p | p in ids
    ensures forall k :: k != rol ==> PermisosOf(r, k) == PermisosOf(links, k)
  {
    forall x | x in PermisosOf(r, rol)
      ensures x in ids
    {
      var l :| l in r && l.rol == rol && l.permiso == x;
    }
    forall x | x in ids
      ensures x in PermisosOf(r, rol)
    {
      assert RolPermiso(rol, x) in r;
    }
    forall k | k != rol
      ensures PermisosOf(r, k) == PermisosOf(links, k)
    {
      forall x | x in PermisosOf(links, k)
        ensures x in PermisosOf(r, k)
      {
        var l :| l in links && l.rol == k && l.permiso == x;
        assert l in r;
      }
      forall x | x in PermisosOf(r, k)
        ensures x in PermisosOf(links, k)
      {
        var l :| l in r && l.rol == k && l.permiso == x;
        assert l in links;
      }
    }
  }

  /** The unique constraint on `usuario.email`. */
  ghost predicate UniqueEmails(usuarios: map<int, Row>)
  {
    forall a, b :: a in usuarios && b in usuarios && Get(usuarios[a], "email") == Get(usuarios[b], "email") ==> a == b
  }

  /** `usuario.findUnique({ where: { email } })`: the key of the one user
      with that email, if any. */
  function FindByEmail(usuarios: map<int, Row>, email: Value): (r: Option<int>)
    requires UniqueEmails(usuarios)
    ensures r.Some? ==> r.value in usuarios && Get(usuarios[r.value], "email") == email
    ensures r.None? <==> forall k :: k in usuarios ==> Get(usuarios[k], "email") != email
  {
    if exists k :: k in usuarios && Get(usuarios[k], "email") == email then
      var k :| k in usuarios && Get(usuarios[k], "email") == email;
      Some(k)
    else None
  }

  /** Adding a user whose email no stored user has keeps emails unique. */
  lemma AddKeepsUnique(usuarios: map<int, Row>, id: int, row: Row)
    requires UniqueEmails(usuarios) && id !in usuarios
    requires forall k :: k in usuarios ==> Get(usuarios[k], "email") != Get(row, "email")
    ensures UniqueEmails(usuarios[id := row])
  {
  }

  /** Every key of a table is below the next autoincrement value, so that
      value is a fresh key. */
  ghost predicate KeysBelow(table: map<int, Row>, next: int)
  {
    forall k :: k in table ==> k < next
  }

  /** Every role-permission link joins a stored role and a stored
      permission. */
  ghost predicate LinksResolve(links: set<RolPermiso>, roles: map<int, Row>, permisos: map<int, Row>)
  {
    forall l :: l in links ==> l.rol in roles && l.permiso in permisos
  }

  /** The Prisma client: every table the handlers touch. */
  class Db {
    var usuarios: map<int, Row>
    var roles: map<int, Row>
    var permisos: map<int, Row>
    var rolPermiso: set<RolPermiso>
    var reservas: map<int, Row>
    var servicios: map<int, Row>
    var paquetes: map<int, Row>
    var paqueteServicio: set<PaqueteServicio>
    /** The next autoincrement key; one counter serves every table. */
    var nextId: int

    ghost predicate Valid()
      reads this
    {
      && KeysBelow(usuarios, nextId) && KeysBelow(roles, nextId) && KeysBelow(permisos, nextId)
      && KeysBelow(reservas, nextId) && KeysBelow(servicios, nextId) && KeysBelow(paquetes, nextId)
      && UniqueEmails(usuarios)
      && LinksResolve(rolPermiso, roles, permisos)
    }

    function RoleGraph(): Graph
      reads this
    {
      Graph(roles, permisos, rolPermiso)
    }

    constructor ()
      ensures Valid()
      ensures usuarios == map[] && roles == map[] && permisos == map[] && rolPermiso == {}
      ensures reservas == map[] && servicios == map[] && paquetes == map[] && paqueteServicio == {}
    {
      usuarios, roles, permisos, rolPermiso := map[], map[], map[], {};
      reservas, servicios, paquetes, paqueteServicio := map[], map[], map[], {};
      nextId := 1;
    }
  }
}
