/** The authorization gate `autorizationMiddleware(modulo)`: a pure rule over
    the role-permission graph. It reads the role NAME carried by the
    identity the authentication gate attached (a snapshot taken when the token
    was issued), never the user's stored role, and it changes nothing. */
module Authorization {
  import opened Values
  import opened Http
  import opened Store
  import opened Authentication

  /** The operators of a Prisma string filter that the model knows. */
  const FilterOps: set<string> := {"equals", "not", "contains", "startsWith", "endsWith"}

  /** A value Prisma accepts as the condition on `nombre`: a string, or an
      object of known string-filter operators with string operands. Any
      other value fails Prisma's query validation and the query throws. */
  predicate IsNameFilter(v: Value)
  {
    v.Str? || (v.Obj? && forall op :: op in v.props ==> op in FilterOps && v.props[op].Str?)
  }

  /** `name` contains `part` as a contiguous piece. */
  predicate Contains(name: string, part: string)
  {
    exists i :: 0 <= i <= |name| && part <= name[i..]
  }

  /** One string-filter operator applied to a stored name. */
  predicate OpHolds(op: string, operand: string, name: string)
  {
    if op == "equals" then name == operand
    else if op == "not" then name != operand
    else if op == "contains" then Contains(name, operand)
    else if op == "startsWith" then operand <= name
    else |operand| <= |name| && name[|name| - |operand|..] == operand
  }

  /** Whether a stored `nombre` satisfies the condition: a string asks for
      equality, an object for all of its operators at once, so the empty
      object `{}` asks for nothing. */
  predicate NameMatches(filter: Value, nombre: Value)
    requires IsNameFilter(filter)
  {
    if filter.Str? then nombre == filter
    else nombre.Str? && forall op :: op in filter.props ==> OpHolds(op, filter.props[op].s, nombre.s)
  }

  /** The query `rol.findFirst({ where: { AND: [{ nombre: rol }, { permisos:
      { some: { nombre: modulo } } }] } })` finds a role: some role whose
      name satisfies the `rol` claim is linked to some permission named
      exactly `modulo`. */
  predicate Grants(g: Graph, rol: Value, modulo: string)
    requires IsNameFilter(rol)
  {
    exists l :: l in g.links && l.rol in g.roles && l.permiso in g.permisos
      && NameMatches(rol, Get(g.roles[l.rol], "nombre"))
      && Get(g.permisos[l.permiso], "nombre") == Str(modulo)
  }

  /** The gate's decision. `available` is false when the database lookup
      fails; a `rol` claim that is no name filter makes the query invalid,
      which Prisma reports by throwing. */
  function Authorize(modulo: string, usuario: Option<Usuario>, g: Graph, available: bool): GateResult
  {
    if usuario.None? then Respond(401, "Usuario no autenticado")
    else if !Truthy(usuario.value.rol) then Respond(403, "Rol no asignado")
    else if !available || !IsNameFilter(usuario.value.rol) then Respond(500, "Error interno en autorización")
    else if !Grants(g, usuario.value.rol, modulo) then Respond(403, "Acceso denegado al módulo: " + modulo)
    else Next
  }

  /** The request is let through exactly when an identity is attached, its
      role claim is truthy and a valid name filter, the lookup succeeds, and
      some role the claim matches holds a permission named after the
      module. */
  lemma AllowIff(modulo: string, usuario: Option<Usuario>, g: Graph, available: bool)
    ensures Authorize(modulo, usuario, g, available) == Next <==>
      && usuario.Some? && Truthy(usuario.value.rol) && IsNameFilter(usuario.value.rol)
      && available
      && Grants(g, usuario.value.rol, modulo)
  {
  }

  /** A role name claim, the form login issues, asks for exactly the roles
      with that name. */
  lemma NameClaimIsEquality(modulo: string, name: string, g: Graph)
    ensures IsNameFilter(Str(name))
    ensures Grants(g, Str(name), modulo) <==>
      exists l :: l in g.links && l.rol in g.roles && l.permiso in g.permisos
        && Get(g.roles[l.rol], "nombre") == Str(name)
        && Get(g.permisos[l.permiso], "nombre") == Str(modulo)
  {
  }

  /** An empty object claim `{}` puts no condition on the name: it is let
      through whenever some role with a string name holds the module's
      permission. */
  lemma EmptyClaimMatchesAnyRole(modulo: string, id: Value, email: Value, g: Graph)
    ensures Authorize(modulo, Some(Usuario(id, email, Obj(map[]))), g, true) == Next <==>
      exists l :: l in g.links && l.rol in g.roles && l.permiso in g.permisos
        && Get(g.roles[l.rol], "nombre").Str?
        && Get(g.permisos[l.permiso], "nombre") == Str(modulo)
  {
  }

  /** The claim `{ equals: name }` asks for the same roles as the plain
      name. */
  lemma EqualsClaimIsNameClaim(modulo: string, name: string, g: Graph)
    ensures IsNameFilter(Obj(map["equals" := Str(name)]))
    ensures Grants(g, Obj(map["equals" := Str(name)]), modulo) <==> Grants(g, Str(name), modulo)
  {
    var f := Obj(map["equals" := Str(name)]);
    forall v: Value ensures NameMatches(f, v) <==> NameMatches(Str(name), v) {
      if NameMatches(f, v) {
        assert OpHolds("equals", name, v.s);
      }
    }
  }

  /** A truthy claim that is neither a string nor an object of string
      operators, such as a number or a list, makes the query throw: 500. */
  lemma InvalidClaim(modulo: string, usuario: Usuario, g: Graph)
    requires Truthy(usuario.rol) && (usuario.rol.Num? || usuario.rol.Bool? || usuario.rol.Arr?)
    ensures Authorize(modulo, Some(usuario), g, true) == Respond(500, "Error interno en autorización")
  {
  }

  /** Without an identity the answer is 401, before any lookup. */
  lemma NotAuthenticated(modulo: string, g: Graph, available: bool)
    ensures Authorize(modulo, None, g, available) == Respond(401, "Usuario no autenticado")
  {
  }

  /** An absent or empty role name is answered 403 "Rol no asignado", before
      any lookup. */
  lemma NoRole(modulo: string, id: Value, email: Value, rol: Value, g: Graph, available: bool)
    requires rol == Undefined || rol == Null || rol == Str("")
    ensures Authorize(modulo, Some(Usuario(id, email, rol)), g, available) == Respond(403, "Rol no asignado")
  {
  }

  /** A failing lookup is answered 500 and never lets the request through. */
  lemma LookupFailure(modulo: string, usuario: Usuario, g: Graph)
    requires Truthy(usuario.rol)
    ensures Authorize(modulo, Some(usuario), g, false) == Respond(500, "Error interno en autorización")
  {
  }

  /** A denial is a 403 whose message names the module. */
  lemma DenialNamesModule(modulo: string, usuario: Usuario, g: Graph)
    requires Truthy(usuario.rol) && IsNameFilter(usuario.rol)
    requires !Grants(g, usuario.rol, modulo)
    ensures Authorize(modulo, Some(usuario), g, true) == Respond(403, "Acceso denegado al módulo: " + modulo)
  {
  }

  /** Only the role name matters: the identity's id and email, and therefore
      which user holds the token or what role that user has now, do not. */
  lemma OnlyRolNameMatters(modulo: string, u1: Usuario, u2: Usuario, g: Graph, available: bool)
    requires u1.rol == u2.rol
    ensures Authorize(modulo, Some(u1), g, available) == Authorize(modulo, Some(u2), g, available)
  {
  }

  /** The rule is an existence test: with the same roles and permissions,
      more links never turn an allow into a deny, so granting a permission
      cannot lock anyone out and revoking one cannot let anyone in. */
  lemma LinksMonotone(modulo: string, usuario: Option<Usuario>, g: Graph, h: Graph, available: bool)
    requires g.roles == h.roles && g.permisos == h.permisos && g.links <= h.links
    requires Authorize(modulo, usuario, g, available) == Next
    ensures Authorize(modulo, usuario, h, available) == Next
  {
    var w :| w in g.links && w.rol in g.roles && w.permiso in g.permisos
      && NameMatches(usuario.value.rol, Get(g.roles[w.rol], "nombre"))
      && Get(g.permisos[w.permiso], "nombre") == Str(modulo);
    assert w in h.links;
  }

  /** A role "Administrador" holding the permissions "roles" and "permisos". */
  function AdminGraph(): Graph
  {
    Graph(map[1 := map["nombre" := Str("Administrador")]],
          map[10 := map["nombre" := Str("roles")], 11 := map["nombre" := Str("permisos")]],
          {RolPermiso(1, 10), RolPermiso(1, 11)})
  }

  /** With that graph an administrator may use "roles" and is refused
      "usuarios" with a message naming it. */
  lemma AdministratorScenario(id: Value, email: Value)
    ensures Authorize("roles", Some(Usuario(id, email, Str("Administrador"))), AdminGraph(), true) == Next
    ensures Authorize("usuarios", Some(Usuario(id, email, Str("Administrador"))), AdminGraph(), true)
         == Respond(403, "Acceso denegado al módulo: usuarios")
  {
    var g := AdminGraph();
    assert RolPermiso(1, 10) in g.links;
    assert forall l :: l in g.links ==> l == RolPermiso(1, 10) || l == RolPermiso(1, 11);
  }
}
