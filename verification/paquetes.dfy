/** The tour package handlers `getPaqueteById`, `createPaquete`,
    `updatePaquete` and `deletePaquete`. The clock (`new Date()`), date
    conversion (`new Date(x)`) and the serialised Zod error are oracles
    passed in. */
module PaquetesController {
  import opened Values
  import opened Http
  import opened Store
  import opened DateSchema

  /** `getPaqueteById`: 404 for an unknown id; a NaN id makes the lookup
      throw (500). */
  function GetPaqueteById(paquetes: map<int, Row>, idParam: string): (reply: Reply)
    ensures ParamKey(idParam).None? ==> reply == ErrorReply(500, "Error al buscar el paquete")
    ensures ParamKey(idParam).Some? && ParamKey(idParam).value !in paquetes ==>
              reply == ErrorReply(404, "Paquete no encontrado")
    ensures reply.status == 200 <==> ParamKey(idParam).Some? && ParamKey(idParam).value in paquetes
    ensures reply.status == 200 ==> reply.body == Record(ParamKey(idParam).value, paquetes[ParamKey(idParam).value])
  {
    match ParamKey(idParam)
    case None => ErrorReply(500, "Error al buscar el paquete")
    case Some(id) =>
      if id !in paquetes then ErrorReply(404, "Paquete no encontrado")
      else Reply(200, Record(id, paquetes[id]))
  }

  // ----- createPaquete -----

  /** The body fields `createPaquete` stores as they come. */
  const CopiedFields: set<string> := {"estado", "nombre", "descripcion", "precio_total", "duracion_dias"}

  /** Why `createPaquete` refuses: `fecha_fin` is validated first, then
      `fecha_inicio`; the first that is not an ISO 8601 string is answered
      422 with the validator's error for that value. */
  function CreatePaqueteRefusal(body: Body, zodError: Value -> Value): Option<Reply>
  {
    if SafeParse(Get(body, "fecha_fin")).None? then Some(Reply(422, zodError(Get(body, "fecha_fin"))))
    else if SafeParse(Get(body, "fecha_inicio")).None? then Some(Reply(422, zodError(Get(body, "fecha_inicio"))))
    else None
  }

  /** `createPaquete` goes ahead exactly when both dates are ISO 8601
      strings. */
  lemma CreateAcceptedIff(body: Body, zodError: Value -> Value)
    ensures CreatePaqueteRefusal(body, zodError).None? <==>
              && Get(body, "fecha_inicio").Str? && IsIso8601(Get(body, "fecha_inicio").s)
              && Get(body, "fecha_fin").Str? && IsIso8601(Get(body, "fecha_fin").s)
  {
  }

  /** With both dates invalid, the answer is about `fecha_fin`. */
  lemma FinCheckedFirst(body: Body, zodError: Value -> Value)
    requires SafeParse(Get(body, "fecha_fin")).None? && SafeParse(Get(body, "fecha_inicio")).None?
    ensures CreatePaqueteRefusal(body, zodError) == Some(Reply(422, zodError(Get(body, "fecha_fin"))))
  {
  }

  /** The row `paquete_turistico.create` writes: the copied fields that are
      defined, the two validated date strings and the creation time. */
  function NewPaquete(body: Body, inicio: string, fin: string, now: Present): (r: Row)
    ensures forall f :: f in CopiedFields ==> (f in r <==> Get(body, f) != Undefined)
    ensures forall f :: f in CopiedFields && f in r ==> r[f] == Get(body, f)
    ensures forall f :: f in r ==> f in CopiedFields || f in {"fecha_inicio", "fecha_fin", "creado_en"}
    ensures "fecha_inicio" in r && r["fecha_inicio"] == Str(inicio)
    ensures "fecha_fin" in r && r["fecha_fin"] == Str(fin)
    ensures "creado_en" in r && r["creado_en"] == now
  {
    var copied := Defined(map f | f in CopiedFields :: Get(body, f));
    copied["fecha_inicio" := Str(inicio)]["fecha_fin" := Str(fin)]["creado_en" := now]
  }

  /** `createPaquete`: an invalid date creates nothing; otherwise one package
      is added under a fresh key, its dates the validated strings from the
      body, and 201 is answered with it. */
  method CreatePaquete(db: Db, body: Body, now: Present, zodError: Value -> Value) returns (reply: Reply)
    requires db.Valid()
    modifies db`paquetes, db`nextId
    ensures db.Valid()
    ensures CreatePaqueteRefusal(body, zodError).Some? ==>
              reply == CreatePaqueteRefusal(body, zodError).value && db.paquetes == old(db.paquetes)
    ensures CreatePaqueteRefusal(body, zodError).None? ==>
              var id := old(db.nextId);
              && id !in old(db.paquetes) && id in db.paquetes
              && db.paquetes == old(db.paquetes)[id := db.paquetes[id]]
              && db.paquetes[id] == NewPaquete(body, Get(body, "fecha_inicio").s, Get(body, "fecha_fin").s, now)
              && IsIso8601(db.paquetes[id]["fecha_inicio"].s) && IsIso8601(db.paquetes[id]["fecha_fin"].s)
              && reply == Reply(201, Record(id, db.paquetes[id]))
  {
    var fechaFin := SafeParse(Get(body, "fecha_fin"));
    if fechaFin.None? {
      return Reply(422, zodError(Get(body, "fecha_fin")));
    }
    var fechaInicio := SafeParse(Get(body, "fecha_inicio"));
    if fechaInicio.None? {
      return Reply(422, zodError(Get(body, "fecha_inicio")));
    }
    var id := db.nextId;
    var row := NewPaquete(body, fechaInicio.value, fechaFin.value, now);
    db.paquetes := db.paquetes[id := row];
    db.nextId := db.nextId + 1;
    reply := Reply(201, Record(id, row));
  }

  // ----- updatePaquete -----

  /** The fields `updatePaquete` always takes from the body as they are. */
  const AlwaysFields: set<string> := {"nombre", "precio_total", "duracion_dias"}

  /** The `data` object `updatePaquete` builds. Both dates always go through
      `new Date(...)`, whose result is None for an invalid date; such a
      `data` is refused by the write, so the builder gives None for it.
      `descripcion` is included only when truthy. */
  method BuildPaqueteUpdate(body: Body, newDate: Value -> Option<Present>) returns (data: Option<Row>)
    ensures data.None? <==> newDate(Get(body, "fecha_inicio")).None? || newDate(Get(body, "fecha_fin")).None?
    ensures data.Some? ==>
              && (forall f :: f in data.value <==>
                    f in AlwaysFields || f == "fecha_inicio" || f == "fecha_fin"
                    || (f == "descripcion" && Truthy(Get(body, "descripcion"))))
              && (forall f :: f in AlwaysFields ==> data.value[f] == Get(body, f))
              && data.value["fecha_inicio"] == newDate(Get(body, "fecha_inicio")).value
              && data.value["fecha_fin"] == newDate(Get(body, "fecha_fin")).value
              && ("descripcion" in data.value ==> data.value["descripcion"] == Get(body, "descripcion"))
  {
    var inicio := newDate(Get(body, "fecha_inicio"));
    var fin := newDate(Get(body, "fecha_fin"));
    if inicio.None? || fin.None? {
      return None;
    }
    var d: Row;
    if Truthy(Get(body, "descripcion")) {
      d := map["nombre" := Get(body, "nombre"), "precio_total" := Get(body, "precio_total"),
               "duracion_dias" := Get(body, "duracion_dias"), "fecha_inicio" := inicio.value,
               "fecha_fin" := fin.value, "descripcion" := Get(body, "descripcion")];
    } else {
      d := map["nombre" := Get(body, "nombre"), "precio_total" := Get(body, "precio_total"),
               "duracion_dias" := Get(body, "duracion_dias"), "fecha_inicio" := inicio.value,
               "fecha_fin" := fin.value];
    }
    data := Some(d);
  }

  /** `after` is `before` with both converted dates written, nombre,
      precio_total and duracion_dias written when defined, descripcion
      written only when truthy, and every other column as it was. */
  ghost predicate PatchesPaquete(before: Row, after: Row, body: Body, inicio: Present, fin: Present)
  {
    && "fecha_inicio" in after && after["fecha_inicio"] == inicio
    && "fecha_fin" in after && after["fecha_fin"] == fin
    && (forall f :: f in AlwaysFields && Get(body, f) != Undefined ==> f in after && after[f] == Get(body, f))
    && (Truthy(Get(body, "descripcion")) ==> "descripcion" in after && after["descripcion"] == Get(body, "descripcion"))
    && (forall f :: f != "fecha_inicio" && f != "fecha_fin"
                 && (f in AlwaysFields ==> Get(body, f) == Undefined)
                 && (f == "descripcion" ==> !Truthy(Get(body, "descripcion")))
                 ==> (f in after <==> f in before) && (f in before ==> after[f] == before[f]))
  }

  /** Writing the built `data` patches the row as described: in particular
      an empty or absent descripcion leaves the stored one alone. */
  lemma PaqueteUpdateEffect(row: Row, data: Row, body: Body, inicio: Present, fin: Present)
    requires forall f :: f in data <==>
               f in AlwaysFields || f == "fecha_inicio" || f == "fecha_fin"
               || (f == "descripcion" && Truthy(Get(body, "descripcion")))
    requires forall f :: f in AlwaysFields ==> data[f] == Get(body, f)
    requires data["fecha_inicio"] == inicio && data["fecha_fin"] == fin
    requires "descripcion" in data ==> data["descripcion"] == Get(body, "descripcion")
    ensures PatchesPaquete(row, ApplyUpdate(row, data), body, inicio, fin)
  {
  }

  /** `updatePaquete`: a NaN id, an invalid date or a missing package makes
      the write throw (400) and nothing changes. `new Date(undefined)` is
      always an Invalid Date, so every PATCH that leaves out either date
      fails. Otherwise only that package is patched and returned. */
  method UpdatePaquete(db: Db, idParam: string, body: Body, newDate: Value -> Option<Present>) returns (reply: Reply)
    requires db.Valid()
    requires newDate(Undefined).None?
    modifies db`paquetes
    ensures db.Valid()
    ensures Get(body, "fecha_inicio") == Undefined || Get(body, "fecha_fin") == Undefined ==>
              reply == ErrorReply(400, "Error al actualizar el paquete") && db.paquetes == old(db.paquetes)
    ensures var inicio := newDate(Get(body, "fecha_inicio"));
            var fin := newDate(Get(body, "fecha_fin"));
            if ParamKey(idParam).None? || inicio.None? || fin.None? || ParamKey(idParam).value !in old(db.paquetes) then
              reply == ErrorReply(400, "Error al actualizar el paquete") && db.paquetes == old(db.paquetes)
            else
              var id := ParamKey(idParam).value;
              && id in db.paquetes
              && db.paquetes == old(db.paquetes)[id := db.paquetes[id]]
              && PatchesPaquete(old(db.paquetes)[id], db.paquetes[id], body, inicio.value, fin.value)
              && reply == Reply(200, Record(id, db.paquetes[id]))
  {
    var key := ParamKey(idParam);
    var data := BuildPaqueteUpdate(body, newDate);
    if key.None? || data.None? || key.value !in db.paquetes {
      return ErrorReply(400, "Error al actualizar el paquete");
    }
    var id := key.value;
    PaqueteUpdateEffect(db.paquetes[id], data.value, body,
                        newDate(Get(body, "fecha_inicio")).value, newDate(Get(body, "fecha_fin")).value);
    db.paquetes := db.paquetes[id := ApplyUpdate(db.paquetes[id], data.value)];
    reply := Reply(200, Record(id, db.paquetes[id]));
  }

  // ----- deletePaquete -----

  /** `deletePaquete`: exactly the package with that id is removed; a NaN or
      unknown id makes the delete throw (400) and nothing is removed. */
  method DeletePaquete(db: Db, idParam: string) returns (reply: Reply)
    requires db.Valid()
    modifies db`paquetes
    ensures db.Valid()
    ensures ParamKey(idParam).None? || ParamKey(idParam).value !in old(db.paquetes) ==>
              reply == ErrorReply(400, "Error al eliminar el paquete") && db.paquetes == old(db.paquetes)
    ensures ParamKey(idParam).Some? && ParamKey(idParam).value in old(db.paquetes) ==>
              && db.paquetes == old(db.paquetes) - {ParamKey(idParam).value}
              && reply == Reply(200, Obj(map["message" := Str("Paquete eliminado correctamente")]))
  {
    var key := ParamKey(idParam);
    if key.None? || key.value !in db.paquetes {
      return ErrorReply(400, "Error al eliminar el paquete");
    }
    db.paquetes := db.paquetes - {key.value};
    reply := Reply(200, Obj(map["message" := Str("Paquete eliminado correctamente")]));
  }
}
