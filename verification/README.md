# Travel-booking admin backend: gates and handlers, modelled in Dafny

This project models the decision and data-shaping core of an Express/Prisma
backend for a travel agency. The backend manages users, roles, permissions,
tour packages, services and reservations. The model covers three parts.

- **The request pipeline.**
  - The authentication gate (`authenticationMiddleware`) reads the
    `Authorization` header, verifies the token and attaches the identity
    `{id, email, rol}`.
  - The authorization gate (`autorizationMiddleware(modulo)`) lets a request
    through only if a role whose name matches the identity's role claim holds
    a permission named after the module. A string claim must equal the name;
    an object claim is read as a Prisma string filter.
- **Registration and login.**
  - `registerUsuario` hashes the password and gives the user the default
    role "Usuario".
  - `generarJWT` runs a fixed chain of checks and signs a one-hour token. The
    token carries a snapshot of the user's id, email and role name.
- **The handlers that shape requests into records.** These are role
  maintenance, the generic CRUD factory, reservations, users, services and
  packages, plus the ISO 8601 date validator that `createPaquete` uses.

Prisma is modelled as an in-memory store: the class `Store.Db`.
- Each table is a map from primary key to row. A row is a map from column
  name to a JavaScript value.
- The two many-to-many link tables are sets.
- One counter hands out autoincrement keys.
- The handlers are methods on that store. Their `modifies` clauses name
  exactly the tables each handler writes.
- A handler's "catch" branch is modelled as the condition under which the
  Prisma call throws. Examples: a missing record (P2025), a NaN key, a
  duplicate email or role name (P2002), and a connect to a missing record in
  `createRol`, `updateRol`, `createUsuario` and `updateUsuario`.

JavaScript values are the datatype `Values.Value`. The model reproduces the
coercions the handlers rely on: truthiness, `x === undefined`,
`Number(...)`, `Number.isNaN` and `split(" ")`.

Some things are oracles, passed in as function parameters:
- `jwt.sign` and `jwt.verify`;
- `bcrypt.hash` and `bcrypt.compare`;
- `parseFloat` and `new Date(...)`;
- the clock;
- the serialised Zod error.

The signing secret is a parameter. The text of a caught exception (`detalle`)
is also a parameter, `errorText`.

Two assumptions about the domain are not enforced by the handlers, and the
model follows the handlers.
- **Null role.** A user is meant to always have a role. Still, `generarJWT`
  checks `usuario.rol === null`, and the model keeps that branch
  (`RolOf` gives None).
- **Role deletion.** Deleting a role that users still reference is meant to
  be refused by the storage layer. The handler does not check for this, and
  the model does not enforce that foreign key (see "Left out").

## Model

| member | source | states |
|---|---|---|
| Values.IdsOfMembership | src/config/roles/roles.controller.ts:77-79 | An id survives `map(Number).filter(!isNaN)` exactly when some entry converts to it. |
| Values.IdsOfAllNumbers | src/config/roles/roles.controller.ts:77-79 | When no entry is NaN, the normalised list keeps every entry's number, in order. |
| Values.IdsOfEmpty | src/config/roles/roles.controller.ts:77-85 | The normalised list is empty exactly when every entry converts to NaN. |
| Values.IdsOfAppend | src/config/roles/roles.controller.ts:77-79 | Normalisation distributes over concatenation (filter keeps order). |
| Values.StrToNumberRoundTrip | src/modules/generic.crud.ts:46 | `Number` reads back every integer's decimal rendering. |
| Store.ApplyUpdate | src/modules/reservas/reservas.controllers.ts:168-171 | A Prisma `update` writes the defined fields of `data`, skips `undefined` ones and keeps every other column. |
| Store.Record | src/modules/reservas/reservas.controllers.ts:90-93 | The record Prisma returns carries the row's columns and its primary key as `id`. |
| Store.ReplaceLinks | src/config/roles/roles.controller.ts:151-155 | `permisos: { set }` links the role to exactly the given ids and leaves every other role's permissions unchanged. |
| Store.FindByEmail | src/modules/autenticacion/usuario.autenticacion.ts:16 | `findUnique({ where: { email } })` finds the user with that email, and finds none exactly when no user has it. |
| Store.AddKeepsUnique | src/modules/autenticacion/usuario.autenticacion.ts:32-40 | Inserting a user whose email is new keeps the unique-email constraint. |
| DateSchema.SafeParse | src/modules/validation/date.schema.ts:2-13 | `safeParse` succeeds exactly on strings matching the profile, and gives back the string itself. |
| DateSchema.AcceptedLength | src/modules/validation/date.schema.ts:5-6 | Accepted strings have 20 characters, or 22 to 24 with a fraction. |
| DateSchema.AcceptedSeparators | src/modules/validation/date.schema.ts:6 | Accepted strings have the literal `-`, `T`, `:` and `.` separators and end in an upper-case `Z`. |
| DateSchema.AcceptedFieldsWellFormed | src/modules/validation/date.schema.ts:6 | Every field of an accepted string is a digit string of the profile's width (fraction of at most 3 digits). |
| DateSchema.RenderAccepted | src/modules/validation/date.schema.ts:6 | Every well-formed timestamp renders to an accepted string and its fields are read back unchanged. |
| DateSchema.AcceptedIsRendered | src/modules/validation/date.schema.ts:6 | Every accepted string is the rendering of its own fields. |
| DateSchema.AcceptedIffRendered | src/modules/validation/date.schema.ts:6 | A string is accepted exactly when it renders some well-formed timestamp. |
| DateSchema.ExampleAccepted | src/modules/validation/date.schema.ts:6-11 | The example "2025-11-13T00:00:00Z" from the error message is accepted. |
| DateSchema.NoRangeCheck | src/modules/validation/date.schema.ts:6-8 | There is no range check: "2025-13-45T99:99:99Z" is accepted. |
| DateSchema.FractionDigits | src/modules/validation/date.schema.ts:6 | A three-digit fraction is accepted. |
| DateSchema.FractionLimits | src/modules/validation/date.schema.ts:6 | A four-digit fraction, or a dot with no digits, is rejected. |
| DateSchema.ZoneMustBeZ | src/modules/validation/date.schema.ts:6 | A lower-case `z`, a `+02:00` offset or a missing zone is rejected. |
| Authentication.SplitCount | src/modules/autenticacion/autenticacion.middleware.ts:24 | `split(" ")` gives one more part than there are spaces, and no part contains a space. |
| Authentication.SplitJoin | src/modules/autenticacion/autenticacion.middleware.ts:24 | Joining the parts with " " gives the header back. |
| Authentication.SplitWord | src/modules/autenticacion/autenticacion.middleware.ts:24 | A space-free word followed by a space splits off as the first part. |
| Authentication.SplitNoSpace | src/modules/autenticacion/autenticacion.middleware.ts:24 | A string without spaces splits into itself alone. |
| Authentication.JoinSplit | src/modules/autenticacion/autenticacion.middleware.ts:24 | Splitting a join of space-free parts gives the parts back. |
| Authentication.Request.constructor | src/modules/autenticacion/autenticacion.middleware.ts:5-7 | A request starts with its header and no attached identity. |
| Authentication.AuthenticationMiddleware | src/modules/autenticacion/autenticacion.middleware.ts:14-62 | The gate calls `next` exactly when the decision accepts, and then `req.usuario` is the decided identity. On a rejection it answers the decided status and message and leaves `req.usuario` untouched. |
| Authentication.NoHeader | src/modules/autenticacion/autenticacion.middleware.ts:19-22 | A missing or empty header gives 401 "Token no proporcionado". |
| Authentication.BadShape | src/modules/autenticacion/autenticacion.middleware.ts:24-27 | A header without exactly one space gives 401 "Formato de token inválido", whatever the secret or token. |
| Authentication.DoubleSpace | src/modules/autenticacion/autenticacion.middleware.ts:24-27 | A double space between scheme and token is rejected as a bad shape. |
| Authentication.SchemeNeverInspected | src/modules/autenticacion/autenticacion.middleware.ts:24-29 | Any space-free word in place of "Bearer" gives the same decision. |
| Authentication.MissingSecret | src/modules/autenticacion/autenticacion.middleware.ts:30-33 | A well-shaped header without a configured secret gives 500 before any verification. |
| Authentication.TokenIndefinidoUnreachable | src/modules/autenticacion/autenticacion.middleware.ts:24-36 | The 403 "Token indefinido." answer is never given. |
| Authentication.VerifyFailure | src/modules/autenticacion/autenticacion.middleware.ts:38-61 | Every verifier failure collapses to 403 "Token inválido o expirado". |
| Authentication.AcceptIff | src/modules/autenticacion/autenticacion.middleware.ts:41-58 | The gate accepts exactly when the header has two parts, the secret is set, the token verifies and the payload has `id`, `email` and `rol`. The identity is those three claims. |
| Authentication.ClaimsIncomplete | src/modules/autenticacion/autenticacion.middleware.ts:41-49 | A verified payload that is not an object, or lacks a claim, gives 403 "Token inválido". |
| Authorization.AllowIff | src/modules/autenticacion/autorizacion.middleware.ts:13-36 | Access is allowed exactly when an identity with a truthy role claim is attached, the claim is a string or a string filter, the lookup works, and a role whose name the claim matches holds a permission named after the module. |
| Authorization.NameClaimIsEquality | src/modules/autenticacion/autorizacion.middleware.ts:19-25 | A string claim matches exactly the role with that name. |
| Authorization.EmptyClaimMatchesAnyRole | src/modules/autenticacion/autorizacion.middleware.ts:19-25 | The claim `{}` lets the request through exactly when some role with a string name holds the module's permission. |
| Authorization.EqualsClaimIsNameClaim | src/modules/autenticacion/autorizacion.middleware.ts:19-25 | The claim `{equals: name}` decides exactly as the string claim `name`. |
| Authorization.InvalidClaim | src/modules/autenticacion/autorizacion.middleware.ts:19-40 | A truthy number, boolean or array claim makes the lookup throw, giving 500. |
| Authorization.NotAuthenticated | src/modules/autenticacion/autorizacion.middleware.ts:9-11 | Without an identity the answer is 401 "Usuario no autenticado". |
| Authorization.NoRole | src/modules/autenticacion/autorizacion.middleware.ts:13-16 | An absent, null or empty role gives 403 "Rol no asignado". |
| Authorization.LookupFailure | src/modules/autenticacion/autorizacion.middleware.ts:37-40 | A failing lookup gives 500 and never allows. |
| Authorization.DenialNamesModule | src/modules/autenticacion/autorizacion.middleware.ts:30-34 | When a valid claim matches no role holding the permission, the answer is 403 "Acceso denegado al módulo: " followed by the module. |
| Authorization.OnlyRolNameMatters | src/modules/autenticacion/autorizacion.middleware.ts:13-29 | The decision depends on the identity's role name only, not on its id or email, and so not on the user's current role. |
| Authorization.LinksMonotone | src/modules/autenticacion/autorizacion.middleware.ts:19-29 | Adding links never turns an allow into a deny. |
| Authorization.AdministratorScenario | src/modules/autenticacion/autorizacion.middleware.ts:19-34 | An "Administrador" holding "roles" and "permisos" may use "roles" and is refused "usuarios". |
| UsuarioAutenticacion.NewUsuario | src/modules/autenticacion/usuario.autenticacion.ts:32-40 | A registered user's row holds exactly email, password digest and role key. |
| UsuarioAutenticacion.RegisterUsuario | src/modules/autenticacion/usuario.autenticacion.ts:12-47 | A refusal writes nothing. Otherwise exactly one user is added under a fresh key, with the email, the hashed (not plain) password and a role named "Usuario". The answer is 201. |
| UsuarioAutenticacion.DuplicateEmail | src/modules/autenticacion/usuario.autenticacion.ts:16-19 | A stored email is refused with 409. |
| UsuarioAutenticacion.NoDefaultRol | src/modules/autenticacion/usuario.autenticacion.ts:23-30 | Without a role named "Usuario", registration gives 500 "error interno.". |
| UsuarioAutenticacion.RefusalStatus | src/modules/autenticacion/usuario.autenticacion.ts:12-47 | Every refusal is a 409 or a 500. |
| UsuarioAutenticacion.RolOf | src/modules/autenticacion/usuario.autenticacion.ts:59-68 | A user's role is found exactly when its role key names a stored role. |
| UsuarioAutenticacion.Claims | src/modules/autenticacion/usuario.autenticacion.ts:82 | The signed claims are the user's id, email and role name, and pass the gate's claims check. |
| UsuarioAutenticacion.SameAnswerForUnknownAndWrong | src/modules/autenticacion/usuario.autenticacion.ts:63-73 | An unknown email and a wrong password both give 401 "Credenciales inválidas". |
| UsuarioAutenticacion.NullRolBeforeCompare | src/modules/autenticacion/usuario.autenticacion.ts:66-73 | A user without a role gets 500 whatever the comparison would say. |
| UsuarioAutenticacion.LoginMissingSecret | src/modules/autenticacion/usuario.autenticacion.ts:75-97 | Valid credentials without a secret end in 500. |
| UsuarioAutenticacion.LoginSuccess | src/modules/autenticacion/usuario.autenticacion.ts:82-93 | Success signs {id, email, role name} with "1h" and answers 200 with the token, email and role name. |
| UsuarioAutenticacion.IssuedTokenAuthenticates | src/modules/autenticacion/usuario.autenticacion.ts:82-84 | A token issued at login, sent as "Bearer <token>", makes the authentication gate attach exactly the login-time snapshot. |
| RolesController.NormalizePermisos | src/config/roles/roles.controller.ts:74-79 | A value that is neither a string nor a list normalises to []. |
| RolesController.StringWrapped | src/config/roles/roles.controller.ts:74-75 | A single string id is wrapped: a numeric one gives [its number], any other gives []. |
| RolesController.NormalizeList | src/config/roles/roles.controller.ts:77-79 | For a list, the ids kept are exactly the non-NaN conversions. The result is empty exactly when all are NaN, and in entry order when none is. |
| RolesController.NormalizeExample | src/config/roles/roles.controller.ts:77-79 | ["3", "x", 7] normalises to [3, 7]. |
| RolesController.NewRol | src/config/roles/roles.controller.ts:87-100 | The new role holds the defined scalars as sent. It holds a creator key exactly when `usuario_creador_id` is truthy. |
| RolesController.CreateNeedsPermiso | src/config/roles/roles.controller.ts:81-85 | `createRol` answers 422 exactly when no permission id survives normalisation. |
| RolesController.CreateRol | src/config/roles/roles.controller.ts:70-114 | A refusal writes nothing: 500 for a missing permission, an unknown creator or a role name already in use. Otherwise one role is added under a fresh key, and its permission set equals the normalised ids. The answer is 201 with the record. |
| RolesController.FreshRolLinks | src/config/roles/roles.controller.ts:87-94 | Connecting ids to a fresh role gives it exactly those permissions. |
| RolesController.BuildRolUpdate | src/config/roles/roles.controller.ts:145-148 | The update data holds exactly the truthy nombre, descripcion and estado, with the body's values. |
| RolesController.RolUpdateOverwrites | src/config/roles/roles.controller.ts:145-161 | Writing that data overwrites exactly the truthy role fields and keeps the rest. |
| RolesController.UpdateRol | src/config/roles/roles.controller.ts:129-170 | A NaN id gives 400 before any write. A missing role, a missing permission or a new name held by another role gives 400 with nothing written. In every other case the answer is 200 and only that role changes: its truthy fields are overwritten, a non-empty id list replaces its whole permission set and an empty one leaves it. |
| RolesController.DeleteRol | src/config/roles/roles.controller.ts:178-190 | A NaN id gives 422 and a missing role 400, both deleting nothing. Otherwise exactly that role and its links go. |
| GenericCrud.Pick | src/modules/generic.crud.ts:21-26 | With no key list the object is returned as is. Otherwise the output holds exactly the listed keys that the object has, with unchanged values. |
| GenericCrud.IdFieldOf | src/modules/generic.crud.ts:29 | The key column defaults to "id" when absent or empty. |
| GenericCrud.IdRaw | src/modules/generic.crud.ts:45 | The raw id is the `idField` parameter, else `id`, else absent. |
| GenericCrud.CoerceId | src/modules/generic.crud.ts:46 | A raw id that reads as a number is used as that number, and otherwise as the raw string. |
| GenericCrud.CoerceIdExamples | src/modules/generic.crud.ts:46 | "42" becomes 42, "" becomes 0, "abc" stays a string. |
| GenericCrud.IndexOf | src/modules/generic.crud.ts:49-53 | The lookup finds a row with that key, or reports that no row has it. |
| GenericCrud.Crud.constructor | src/modules/generic.crud.ts:28-29 | The factory fixes the model name, the allow-lists and the key column, which defaults to "id". |
| GenericCrud.Crud.List | src/modules/generic.crud.ts:31-41 | `list` answers 200 with every record in table order. |
| GenericCrud.Crud.GetById | src/modules/generic.crud.ts:43-59 | `getById` answers 200 with the record whose key is the coerced id, and 404 when there is none. |
| GenericCrud.Crud.Create | src/modules/generic.crud.ts:61-73 | The answer is 201 exactly when the key to store is a valid key no row holds. Then one row is appended whose columns other than the key are exactly the defined columns of `pick(body, createAllowed)`, with the body's values, and whose key is the supplied one or a fresh autoincrement key. Otherwise 500 and nothing is written. |
| GenericCrud.Crud.Update | src/modules/generic.crud.ts:75-92 | The answer is 200 exactly when a row has the requested key and its new key is valid and held by no other row. Then only that row changes: each defined column of `pick(body, updateAllowed)` is set and every other column is kept. Otherwise 500 and nothing is written. |
| GenericCrud.Crud.Remove | src/modules/generic.crud.ts:94-106 | `delete` removes exactly the addressed row, and answers 500 without removing anything otherwise. |
| GenericCrud.RemoveKeepsKeyed | src/modules/generic.crud.ts:100 | Removing a row keeps the other keys unique. |
| ReservasController.FirstMissing | src/modules/reservas/reservas.controllers.ts:61-87 | No field is missing exactly when all are defined. A reported field is undefined, and every field before it is defined. |
| ReservasController.FirstMissingWins | src/modules/reservas/reservas.controllers.ts:61-69 | With `estado` missing after the two dates, the answer names `estado` even if later fields are also missing. |
| ReservasController.CrearReserva | src/modules/reservas/reservas.controllers.ts:49-100 | The first missing field gives 422 "Falta <field>" and creates nothing. Otherwise the answer is 201 exactly when the key (the body's own integral `id`, or a fresh autoincrement key when it has none) is unused. Then the body's other columns become the new reservation under that key. A body without `id` always succeeds. A non-integral or taken `id` gives 500 and writes nothing. |
| ReservasController.BuildReservaUpdate | src/modules/reservas/reservas.controllers.ts:122-166 | The step-by-step builder produces the data described by the field-by-field specification. |
| ReservasController.BuiltFields | src/modules/reservas/reservas.controllers.ts:134-166 | The data holds exactly the supplied fields. Blanked ones hold `undefined`; the others hold the body's value. |
| ReservasController.BuiltUpdate | src/modules/reservas/reservas.controllers.ts:134-166 | Supplied copied fields are verbatim, numero_personas and metodo_pago become `undefined`, relations carry the given id, and unsupplied fields are absent. |
| ReservasController.ReservaUpdateEffect | src/modules/reservas/reservas.controllers.ts:134-172 | The update sets supplied copied fields and relations. It leaves numero_personas, metodo_pago, every unsupplied field and every field outside the copied ones and the relations unchanged. |
| ReservasController.ActualizarReserva | src/modules/reservas/reservas.controllers.ts:120-179 | A NaN or unknown id gives 500 and writes nothing. Otherwise only that reservation is updated, as described above, and the answer is 200 with the record. |
| ReservasController.ObtenerReservaPorId | src/modules/reservas/reservas.controllers.ts:26-44 | A missing id gives 404 and a NaN id 500. 200 exactly when the reservation exists, with its record. |
| ReservasController.EliminarReserva | src/modules/reservas/reservas.controllers.ts:184-196 | Exactly that reservation is removed. A NaN or unknown id gives 500 and removes nothing. |
| UsuariosController.ConnectKey | src/modules/usuarios/usuarios.controllers.ts:83-85 | Only an integer number names a key to connect. |
| UsuariosController.CreateUsuario | src/modules/usuarios/usuarios.controllers.ts:67-97 | A refusal writes nothing. Otherwise one user is added under a fresh key, with the email, the password exactly as sent (not hashed) and the named role. The answer is 201. |
| UsuariosController.NaNRolFirst | src/modules/usuarios/usuarios.controllers.ts:70-74 | A NaN `rol` gives 422 before any other check. |
| UsuariosController.EmailBeforePassword | src/modules/usuarios/usuarios.controllers.ts:75-78 | With both missing, the email message wins. |
| UsuariosController.NaNGuardIsLiteral | src/modules/usuarios/usuarios.controllers.ts:70-74 | The string "abc" converts to NaN yet passes the guard, and the create then fails with 500. |
| UsuariosController.DuplicateEmailRefused | src/modules/usuarios/usuarios.controllers.ts:92-94 | A well-formed body with a stored email gives 400 "El email o rol ya están en uso". |
| UsuariosController.CreateRefusalStatus | src/modules/usuarios/usuarios.controllers.ts:67-97 | Every refusal is 400, 422 or 500. |
| UsuariosController.BuildUsuarioUpdate | src/modules/usuarios/usuarios.controllers.ts:116-125 | The data holds the password only if it is truthy and the role only if `rol` is truthy, and nothing else. |
| UsuariosController.UsuarioUpdateEffect | src/modules/usuarios/usuarios.controllers.ts:116-129 | Writing that data replaces exactly those columns and keeps the email. |
| UsuariosController.SameEmailKeepsUnique | src/modules/usuarios/usuarios.controllers.ts:126-129 | An update that keeps a user's email keeps emails unique. |
| UsuariosController.UpdateUsuario | src/modules/usuarios/usuarios.controllers.ts:109-136 | A NaN id gives 403 and no write. A failing write gives 500 and no change. Otherwise only that user is patched. |
| UsuariosController.DeleteUsuario | src/modules/usuarios/usuarios.controllers.ts:142-161 | A missing id gives 404 and changes nothing. Otherwise exactly that user is removed. |
| ServiciosController.NormalizePaquetes | src/modules/servicios/servicios.controllers.ts:145-147 | A non-list `paquetes_ids` normalises to []. |
| ServiciosController.NormalizationsCompared | src/modules/servicios/servicios.controllers.ts:145-147 | On lists it agrees with the role normalisation. A single numeric string is dropped here but kept by the roles handlers. |
| ServiciosController.NormalizePaquetesMembership | src/modules/servicios/servicios.controllers.ts:145-147 | An id is kept exactly when some list entry converts to it. |
| ServiciosController.ObtenerServicioPorId | src/modules/servicios/servicios.controllers.ts:37-61 | A missing id gives 404 and a NaN id 500. 200 exactly when the service exists. |
| ServiciosController.BuildServicioUpdate | src/modules/servicios/servicios.controllers.ts:137-142 | The data holds exactly the defined nombre, descripcion, precio and tipo, with the price parsed. |
| ServiciosController.ServicioUpdateEffect | src/modules/servicios/servicios.controllers.ts:137-165 | Writing that data overwrites exactly the defined service fields. |
| ServiciosController.ActualizarServicio | src/modules/servicios/servicios.controllers.ts:126-172 | The service's links are deleted first, and other services' links are never touched. On success the service is linked to exactly the normalised ids, to none when the list is empty. On failure it answers 500 with the row unchanged and the links still deleted. |
| PaquetesController.GetPaqueteById | src/modules/paquetes-turisticos/paquetes.controllers.ts:31-59 | A missing id gives 404 and a NaN id 500. 200 exactly when the package exists. |
| PaquetesController.CreateAcceptedIff | src/modules/paquetes-turisticos/paquetes.controllers.ts:85-92 | `createPaquete` proceeds exactly when both dates are ISO 8601 strings of the profile. |
| PaquetesController.FinCheckedFirst | src/modules/paquetes-turisticos/paquetes.controllers.ts:85-92 | With both dates invalid, the 422 is about `fecha_fin`. |
| PaquetesController.NewPaquete | src/modules/paquetes-turisticos/paquetes.controllers.ts:93-103 | The row holds the defined copied fields, the two validated date strings and the creation time. |
| PaquetesController.CreatePaquete | src/modules/paquetes-turisticos/paquetes.controllers.ts:74-137 | An invalid date creates nothing. Otherwise one package is added under a fresh key, with validated date strings, and 201 is answered. |
| PaquetesController.BuildPaqueteUpdate | src/modules/paquetes-turisticos/paquetes.controllers.ts:155-163 | nombre, precio_total, duracion_dias and both converted dates are always in the data. descripcion is in it only when truthy. |
| PaquetesController.PaqueteUpdateEffect | src/modules/paquetes-turisticos/paquetes.controllers.ts:156-167 | The write sets the dates and the defined fields, sets descripcion only when truthy, and keeps every other column. |
| PaquetesController.UpdatePaquete | src/modules/paquetes-turisticos/paquetes.controllers.ts:151-174 | A NaN id, an invalid date or a missing package gives 400 and no change, so every PATCH that leaves out either date gives 400. Otherwise only that package is patched. |
| PaquetesController.DeletePaquete | src/modules/paquetes-turisticos/paquetes.controllers.ts:178-187 | Exactly that package is removed. A NaN or unknown id gives 400 and removes nothing. |

## Left out

- **Oracles.** JWT signing and verification, bcrypt hashing and comparison, `parseFloat`, `new Date(...)` and the clock are oracles. Token expiry (the `exp` claim) is whatever the verifier oracle decides.
- **Numbers.** Only integers and NaN are modelled. `Number(...)` on strings covers "", an optional sign and ASCII digits; everything else becomes NaN (no whitespace trimming, fractions, exponents, hex or Infinity).
- **Prisma projections.** `include`/`select` shapes are not modelled. Replies carry the stored record only, without related rows.
- **Prisma validation.** Column types, required columns and unknown columns are not modelled. Writes that Prisma would refuse for those reasons succeed in the model, for example in `crearReserva`, `createPaquete` and the generic `create`.
- **Referential integrity.** Connects are checked where the role and user handlers make them: the permission links (`Db.Valid`) and the creator of `createRol`, and the role of `createUsuario` and `updateUsuario`. No other foreign key is checked. Deleting a role, user, package or service that other rows reference succeeds in the model, although the storage layer may refuse it.
- **Order of failures in `createUsuario`.** When the role to connect is missing and the email is also taken, the model answers as for the failed connect (500), not as for the duplicate (P2002, 400). Which of the two errors Prisma raises first is not part of this model.
- **Role of a registered user.** `findFirst` picks some role named "Usuario". The model allows any such role, not the first by key order.
- **Duplicate link ids.** Duplicate ids in a list to connect or create collapse into one link, because link tables are sets.
- **Shared key counter.** One autoincrement counter serves every table, so keys are fresh but not per-table consecutive. A reservation created under its own `id` moves the counter past that key. A database sequence would not move, and could later hand out a key that is already taken.
- GenericCrud.Crud.Create: consumes an autoincrement key even when the create then fails. The model does not say whether the database does the same.
- **Relation re-pointing in `updateUsuario` and `actualizarReserva`.** The model treats `{ disconnect: true, connect }` as re-pointing the foreign key. Whether the schema's relation allows `disconnect` is not part of this model.
- ReservasController.ActualizarReserva: writes `usuario_id` and `paquete_id` as plain columns. A connect to a missing user or package does not fail in the model, where Prisma would throw (500).
- **Handlers with no decisions.** Not modelled: `getUsuarios`, `getUsuarioById`, `obtenerServicios`, `crearServicio` (its `connect` list comes from a mapper that returns undefined), `eliminarServicio` and `getAllPaquetes`. The list and get handlers of the roles controller (`getAllRoles`, `getRolById`) and the reservations list handler (`obtenerReservas`) are also left out; the reservations get handler is modelled. Each is a single pass-through ORM call.
- **Other modules.** The permission, activity and itinerary controllers, the public role endpoints, the validation middleware, the route tables, the server setup and the Express type declarations are not part of this model.
- Authorization.Authorize: an object role claim is read as a Prisma string filter with the operators `equals`, `not`, `contains`, `startsWith` and `endsWith` on string operands, all of which must hold. Any other operator (`in`, `notIn`, `lt`, `gt`, `mode` and the like), a non-string operand, or a claim of another type is treated as making the lookup throw (500). Case-insensitive matching is not modelled.
- **Runtime.** Logging, async scheduling and concurrent requests are not modelled.
- **Error texts.** The text of a caught exception is a parameter. The serialised Zod error answered on a bad date is an oracle.
