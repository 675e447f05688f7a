/** The reservation handlers: `obtenerReservaPorId`, `crearReserva`,
    `actualizarReserva` and `eliminarReserva`. The text of a caught
    exception, sent as `detalle`, is a parameter `errorText`. */
module ReservasController {
  import opened Values
  import opened Http
  import opened Store

  /** The fields `crearReserva` requires, in the order it checks them. */
  const Required: seq<string> := ["fecha_inicio", "fecha_fin", "estado", "numero_personas", "precio_total",
                                  "metodo_pago", "comentarios", "usuario_id", "paquete_id"]

  /** The first of `fields` the body does not define (`=== undefined`; a
      `null` counts as present). */
  function FirstMissing(fields: seq<string>, body: Body): (r: Option<string>)
    ensures r.None? <==> forall i :: 0 <= i < |fields| ==> Get(body, fields[i]) != Undefined
    ensures r.Some? ==> exists i :: 0 <= i < |fields| && fields[i] == r.value && Get(body, r.value) == Undefined
                          && forall j :: 0 <= j < i ==> Get(body, fields[j]) != Undefined
  {
    if fields == [] then None
    else if Get(body, fields[0]) == Undefined then Some(fields[0])
    else
      var r := FirstMissing(fields[1..], body);
      if r.Some? then
        var i :| 0 <= i < |fields[1..]| && fields[1..][i] == r.value && Get(body, r.value) == Undefined
                 && forall j :: 0 <= j < i ==> Get(body, fields[1..][j]) != Undefined;
        assert fields[i + 1] == r.value;
        r
      else r
  }

  /** A body lacking both `estado` and `usuario_id` is answered about
      `estado`: the earlier check wins. */
  lemma FirstMissingWins(body: Body)
    requires Get(body, "fecha_inicio") != Undefined && Get(body, "fecha_fin") != Undefined
    requires Get(body, "estado") == Undefined
    ensures FirstMissing(Required, body) == Some("estado")
  {
    var rest := Required[2..];
    assert rest[0] == "estado";
    assert FirstMissing(rest, body) == Some("estado");
    assert Required[1..][1..] == rest;
  }

  /** The key `prisma.reserva.create` files the new reservation under: the
      body's own `id` when it supplies one, which must be an integral number
      (any other value makes the create throw, `None`), and otherwise the
      next autoincrement key. */
  function CreateKey(body: Body, next: int): Option<int>
  {
    var v := Get(body, "id");
    if v == Undefined then Some(next)
    else if v.Num? && v.n.Int? then Some(v.n.i)
    else None
  }

  /** `crearReserva`: the first missing field is answered with 422 "Falta
      <field>" and nothing is created. With all nine present the whole body
      is handed to the create: it succeeds (201) exactly when its key is
      valid and unused, and then the body's other columns become the new
      reservation; a body without `id` always succeeds under a fresh key.
      A failing create answers 500 and writes nothing. */
  method CrearReserva(db: Db, body: Body, errorText: string) returns (reply: Reply)
    requires db.Valid()
    modifies db`reservas, db`nextId
    ensures db.Valid()
    ensures FirstMissing(Required, body).Some? ==>
              reply == ErrorReply(422, "Falta " + FirstMissing(Required, body).value)
              && db.reservas == old(db.reservas)
    ensures FirstMissing(Required, body).None? ==>
              var key := CreateKey(body, old(db.nextId));
              && (reply.status == 201 <==> key.Some? && key.value !in old(db.reservas))
              && (reply.status == 201 ==>
                    && db.reservas == old(db.reservas)[key.value := body - {"id"}]
                    && reply == Reply(201, Record(key.value, body - {"id"})))
              && (reply.status != 201 ==>
                    reply == ErrorDetail(500, "Error al crear la reserva", errorText)
                    && db.reservas == old(db.reservas))
    ensures FirstMissing(Required, body).None? && Get(body, "id") == Undefined ==>
              && reply.status == 201
              && old(db.nextId) !in old(db.reservas)
              && db.reservas == old(db.reservas)[old(db.nextId) := body - {"id"}]
  {
    var missing := FirstMissing(Required, body);
    if missing.Some? {
      return ErrorReply(422, "Falta " + missing.value);
    }
    var key := CreateKey(body, db.nextId);
    if key.None? || key.value in db.reservas {
      return ErrorDetail(500, "Error al crear la reserva", errorText);
    }
    var id := key.value;
    db.reservas := db.reservas[id := body - {"id"}];
    if id >= db.nextId {
      db.nextId := id + 1;
    }
    reply := Reply(201, Record(id, body - {"id"}));
  }

  /** The fields `actualizarReserva` copies verbatim when supplied. */
  const Copied: set<string> := {"fecha_inicio", "fecha_fin", "estado", "precio_total", "comentarios"}

  /** The fields it blanks to `undefined` when supplied. */
  const Blanked: set<string> := {"numero_personas", "metodo_pago"}

  /** The relations it re-points (`disconnect` then `connect`) when
      supplied; re-pointing sets the relation's key column. */
  const Relations: set<string> := {"usuario_id", "paquete_id"}

  /** The fields `actualizarReserva` looks at, in the order it does. */
  const UpdateOrder: seq<string> := ["fecha_inicio", "fecha_fin", "estado", "numero_personas", "precio_total",
                                     "metodo_pago", "comentarios", "usuario_id", "paquete_id"]

  /** The `data` object after the steps for `fields`: each supplied field is
      put in, a blanked one as `undefined`. */
  function Built(body: Body, fields: seq<string>): Row
  {
    if fields == [] then map[]
    else
      var f := fields[|fields| - 1];
      var prev := Built(body, fields[..|fields| - 1]);
      if Get(body, f) == Undefined then prev
      else prev[f := if f in Blanked then Undefined else Get(body, f)]
  }

  /** After the steps for `fields`, `data` holds exactly the supplied fields
      among them, blanked ones as `undefined`, the others with the body's
      value. */
  lemma {:induction false} BuiltFields(body: Body, fields: seq<string>)
    ensures forall f :: f in Built(body, fields) <==> f in fields && Get(body, f) != Undefined
    ensures forall f :: f in Built(body, fields) ==>
              Built(body, fields)[f] == if f in Blanked then Undefined else Get(body, f)
  {
    if fields != [] {
      var init := fields[..|fields| - 1];
      BuiltFields(body, init);
      assert fields == init + [fields[|fields| - 1]];
    }
  }

  /** The field lists name nine different fields. */
  lemma FieldSets()
    ensures forall f :: f in UpdateOrder <==> f in Blanked + Copied + Relations
    ensures Blanked !! Copied + Relations
  {
  }

  /** The `data` object `actualizarReserva` builds, one supplied field at a
      time in the order of `UpdateOrder`; `BuiltUpdate` says what it holds. */
  method BuildReservaUpdate(body: Body) returns (data: Row)
    ensures data == Built(body, UpdateOrder)
  {
    data := map[];
    ghost var prev := data;
    ghost var done: seq<string> := [];
    if Get(body, "fecha_inicio") != Undefined {
      data := data["fecha_inicio" := Get(body, "fecha_inicio")];
    }
    BuiltStep(body, done, "fecha_inicio", false, prev, data);
    prev := data;
    done := done + ["fecha_inicio"];
    if Get(body, "fecha_fin") != Undefined {
      data := data["fecha_fin" := Get(body, "fecha_fin")];
    }
    BuiltStep(body, done, "fecha_fin", false, prev, data);
    prev := data;
    done := done + ["fecha_fin"];
    if Get(body, "estado") != Undefined {
      data := data["estado" := Get(body, "estado")];
    }
    BuiltStep(body, done, "estado", false, prev, data);
    prev := data;
    done := done + ["estado"];
    if Get(body, "numero_personas") != Undefined {
      data := data["numero_personas" := Undefined];
    }
    BuiltStep(body, done, "numero_personas", true, prev, data);
    prev := data;
    done := done + ["numero_personas"];
    if Get(body, "precio_total") != Undefined {
      data := data["precio_total" := Get(body, "precio_total")];
    }
    BuiltStep(body, done, "precio_total", false, prev, data);
    prev := data;
    done := done + ["precio_total"];
    if Get(body, "metodo_pago") != Undefined {
      data := data["metodo_pago" := Undefined];
    }
    BuiltStep(body, done, "metodo_pago", true, prev, data);
    prev := data;
    done := done + ["metodo_pago"];
    if Get(body, "comentarios") != Undefined {
      data := data["comentarios" := Get(body, "comentarios")];
    }
    BuiltStep(body, done, "comentarios", false, prev, data);
    prev := data;
    done := done + ["comentarios"];
    if Get(body, "usuario_id") != Undefined {
      data := data["usuario_id" := Get(body, "usuario_id")];
    }
    BuiltStep(body, done, "usuario_id", false, prev, data);
    prev := data;
    done := done + ["usuario_id"];
    if Get(body, "paquete_id") != Undefined {
      data := data["paquete_id" := Get(body, "paquete_id")];
    }
    BuiltStep(body, done, "paquete_id", false, prev, data);
    done := done + ["paquete_id"];
    assert done == UpdateOrder;
  }

  /** One step of the builder extends the data built by the steps before it. */
  lemma BuiltStep(body: Body, done: seq<string>, f: string, blank: bool, prev: Row, data: Row)
    requires f in Blanked <==> blank
    requires prev == Built(body, done)
    requires data == if Get(body, f) == Undefined then prev else prev[f := if blank then Undefined else Get(body, f)]
    ensures data == Built(body, done + [f])
  {
    assert (done + [f])[..|done|] == done;
  }

  /** What the builder produces: each supplied field it copies or re-points
      with the body's value, a supplied numero_personas or metodo_pago as
      `undefined` (which Prisma skips), and nothing else. */
  lemma BuiltUpdate(body: Body)
    ensures var data := Built(body, UpdateOrder);
            && (forall f :: f in Copied + Relations ==> (f in data <==> Get(body, f) != Undefined))
            && (forall f :: f in Copied + Relations && f in data ==> data[f] == Get(body, f))
            && (forall f :: f in Blanked ==> (f in data <==> Get(body, f) != Undefined))
            && (forall f :: f in Blanked && f in data ==> data[f] == Undefined)
            && data.Keys <= Blanked + Copied + Relations
  {
    BuiltFields(body, UpdateOrder);
    FieldSets();
  }

  /** What writing the built `data` does to a reservation: supplied copied
      fields and relations take the body's value, numero_personas and
      metodo_pago never change even when supplied, every field not
      supplied keeps its value, and no field outside the copied ones and the
      relations is ever touched. */
  lemma ReservaUpdateEffect(row: Row, body: Body)
    ensures var r := ApplyUpdate(row, Built(body, UpdateOrder));
            && (forall f :: f in Copied + Relations && Get(body, f) != Undefined ==> f in r && r[f] == Get(body, f))
            && (forall f :: f in Blanked ==> (f in r <==> f in row) && (f in row ==> r[f] == row[f]))
            && (forall f :: Get(body, f) == Undefined ==> (f in r <==> f in row) && (f in row ==> r[f] == row[f]))
            && (forall f :: f !in Copied + Relations ==> (f in r <==> f in row) && (f in row ==> r[f] == row[f]))
  {
    BuiltUpdate(body);
  }

  /** `actualizarReserva`: a NaN or unknown id makes the update throw (500)
      and nothing is written; otherwise the built `data` is written over the
      reservation. */
  method ActualizarReserva(db: Db, idParam: string, body: Body, errorText: string) returns (reply: Reply)
    requires db.Valid()
    modifies db`reservas
    ensures db.Valid()
    ensures ParamKey(idParam).None? || ParamKey(idParam).value !in old(db.reservas) ==>
              reply == ErrorDetail(500, "Error al actualizar la reserva", errorText)
              && db.reservas == old(db.reservas)
    ensures ParamKey(idParam).Some? && ParamKey(idParam).value in old(db.reservas) ==>
              var id := ParamKey(idParam).value;
              var before := old(db.reservas)[id];
              && id in db.reservas
              && db.reservas == old(db.reservas)[id := db.reservas[id]]
              && (forall f :: f in Copied + Relations && Get(body, f) != Undefined ==> f in db.reservas[id] && db.reservas[id][f] == Get(body, f))
              && (forall f :: f in Blanked ==> (f in db.reservas[id] <==> f in before) && (f in before ==> db.reservas[id][f] == before[f]))
              && (forall f :: Get(body, f) == Undefined ==> (f in db.reservas[id] <==> f in before) && (f in before ==> db.reservas[id][f] == before[f]))
              && (forall f :: f !in Copied + Relations ==> (f in db.reservas[id] <==> f in before) && (f in before ==> db.reservas[id][f] == before[f]))
              && reply == Reply(200, Record(id, db.reservas[id]))
  {
    var data := BuildReservaUpdate(body);
    var key := ParamKey(idParam);
    if key.None? || key.value !in db.reservas {
      return ErrorDetail(500, "Error al actualizar la reserva", errorText);
    }
    var id := key.value;
    ReservaUpdateEffect(db.reservas[id], body);
    db.reservas := db.reservas[id := ApplyUpdate(db.reservas[id], data)];
    reply := Reply(200, Record(id, db.reservas[id]));
  }

  /** `obtenerReservaPorId`: 404 for an unknown id; a NaN id makes the
      lookup throw (500). */
  function ObtenerReservaPorId(reservas: map<int, Row>, idParam: string, errorText: string): (reply: Reply)
    ensures ParamKey(idParam).None? ==> reply == ErrorDetail(500, "Error al obtener la reserva", errorText)
    ensures ParamKey(idParam).Some? && ParamKey(idParam).value !in reservas ==>
              reply == ErrorReply(404, "Reserva no encontrada")
    ensures reply.status == 200 <==> ParamKey(idParam).Some? && ParamKey(idParam).value in reservas
    ensures reply.status == 200 ==> reply.body == Record(ParamKey(idParam).value, reservas[ParamKey(idParam).value])
  {
    match ParamKey(idParam)
    case None => ErrorDetail(500, "Error al obtener la reserva", errorText)
    case Some(id) =>
      if id !in reservas then ErrorReply(404, "Reserva no encontrada")
      else Reply(200, Record(id, reservas[id]))
  }

  /** `eliminarReserva`: exactly the reservation with that id is removed; a
      NaN or unknown id makes the delete throw (500) and nothing is removed. */
  method EliminarReserva(db: Db, idParam: string, errorText: string) returns (reply: Reply)
    requires db.Valid()
    modifies db`reservas
    ensures db.Valid()
    ensures ParamKey(idParam).None? || ParamKey(idParam).value !in old(db.reservas) ==>
              reply == ErrorDetail(500, "Error al eliminar la reserva", errorText)
              && db.reservas == old(db.reservas)
    ensures ParamKey(idParam).Some? && ParamKey(idParam).value in old(db.reservas) ==>
              db.reservas == old(db.reservas) - {ParamKey(idParam).value}
              && reply == Reply(200, Obj(map["mensaje" := Str("Reserva eliminada correctamente")]))
  {
    var key := ParamKey(idParam);
    if key.None? || key.value !in db.reservas {
      return ErrorDetail(500, "Error al eliminar la reserva", errorText);
    }
    db.reservas := db.reservas - {key.value};
    reply := Reply(200, Obj(map["mensaje" := Str("Reserva eliminada correctamente")]));
  }
}
