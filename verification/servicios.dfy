/** The service handlers `obtenerServicioPorId` and `actualizarServicio`.
    The update works on the `paquete_servicio` link table directly: it first
    deletes every link of the service, then writes the service and creates
    the new links, and the deletion stays done when the write fails. */
module ServiciosController {
  import opened Values
  import opened Http
  import opened Store
  import opened RolesController

  /** The scalar columns `actualizarServicio` may write. */
  const ServicioFields: set<string> := {"nombre", "descripcion", "precio", "tipo"}

  /** `Array.isArray(paquetes_ids) ? paquetes_ids.map(Number).filter(id =>
      !isNaN(id)) : []`: unlike the role handlers, a single id sent as a
      string is not wrapped into a list. */
  function NormalizePaquetes(paquetesIds: Value): (ids: seq<int>)
    ensures !paquetesIds.Arr? ==> ids == []
  {
    match paquetesIds
    case Arr(xs) => IdsOf(xs)
    case _ => []
  }

  /** On a list both normalisations agree; on a single numeric string they
      differ: the role handlers keep the id, this one drops it. */
  lemma NormalizationsCompared(xs: seq<Value>, s: string)
    requires StrToNumber(s).Int?
    ensures NormalizePaquetes(Arr(xs)) == NormalizePermisos(Arr(xs))
    ensures NormalizePaquetes(Str(s)) == [] && NormalizePermisos(Str(s)) == [StrToNumber(s).i]
  {
    StringWrapped(s);
  }

  /** An id is kept exactly when some entry of the list converts to it. */
  lemma NormalizePaquetesMembership(xs: seq<Value>, id: int)
    ensures id in NormalizePaquetes(Arr(xs)) <==> exists k :: 0 <= k < |xs| && ToNumber(xs[k]) == Int(id)
  {
    IdsOfMembership(xs, id);
  }

  /** `obtenerServicioPorId`: 404 for an unknown id; a NaN id makes the
      lookup throw (500). */
  function ObtenerServicioPorId(servicios: map<int, Row>, idParam: string): (reply: Reply)
    ensures ParamKey(idParam).None? ==> reply == ErrorReply(500, "Error interno del servidor")
    ensures ParamKey(idParam).Some? && ParamKey(idParam).value !in servicios ==>
              reply == ErrorReply(404, "Servicio no encontrado")
    ensures reply.status == 200 <==> ParamKey(idParam).Some? && ParamKey(idParam).value in servicios
    ensures reply.status == 200 ==> reply.body == Record(ParamKey(idParam).value, servicios[ParamKey(idParam).value])
  {
    match ParamKey(idParam)
    case None => ErrorReply(500, "Error interno del servidor")
    case Some(id) =>
      if id !in servicios then ErrorReply(404, "Servicio no encontrado")
      else Reply(200, Record(id, servicios[id]))
  }

  /** The `data` object `actualizarServicio` builds: each of nombre,
      descripcion, precio and tipo that is not `undefined`, the price passed
      through `parseFloat`. */
  method BuildServicioUpdate(body: Body, parseFloat: Value -> Present) returns (data: Row)
    ensures forall f :: f in data <==> f in ServicioFields && Get(body, f) != Undefined
    ensures forall f :: f in data && f != "precio" ==> data[f] == Get(body, f)
    ensures "precio" in data ==> data["precio"] == parseFloat(Get(body, "precio"))
  {
    data := map[];
    var nombre := Get(body, "nombre");
    var descripcion := Get(body, "descripcion");
    var precio := Get(body, "precio");
    var tipo := Get(body, "tipo");
    if nombre != Undefined {
      data := data["nombre" := nombre];
    }
    if descripcion != Undefined {
      data := data["descripcion" := descripcion];
    }
    if precio != Undefined {
      data := data["precio" := parseFloat(precio)];
    }
    if tipo != Undefined {
      data := data["tipo" := tipo];
    }
  }

  /** `after` is `before` with every defined service field taken from the
      body (the price parsed) and every other column as it was. */
  ghost predicate WritesDefined(before: Row, after: Row, body: Body, parseFloat: Value -> Present)
  {
    && (forall f :: f in ServicioFields && Get(body, f) != Undefined ==>
          f in after && after[f] == if f == "precio" then parseFloat(Get(body, f)) else Get(body, f))
    && (forall f :: f !in ServicioFields || Get(body, f) == Undefined ==>
          (f in after <==> f in before) && (f in before ==> after[f] == before[f]))
  }

  /** Writing the built `data` overwrites exactly the defined service
      fields. */
  lemma ServicioUpdateEffect(row: Row, data: Row, body: Body, parseFloat: Value -> Present)
    requires forall f :: f in data <==> f in ServicioFields && Get(body, f) != Undefined
    requires forall f :: f in data && f != "precio" ==> data[f] == Get(body, f)
    requires "precio" in data ==> data["precio"] == parseFloat(Get(body, "precio"))
    ensures WritesDefined(row, ApplyUpdate(row, data), body, parseFloat)
  {
  }

  /** `paquete_servicio.deleteMany({ where: { servicio_id } })`. */
  function DropLinks(links: set<PaqueteServicio>, servicio: int): (r: set<PaqueteServicio>)
    ensures forall l :: l in r <==> l in links && l.servicio != servicio
  {
    set l | l in links && l.servicio != servicio
  }

  /** The nested `paquetes: { create: ids.map(...) }` of the update: one link
      row per id. */
  function AddLinks(links: set<PaqueteServicio>, servicio: int, ids: seq<int>): (r: set<PaqueteServicio>)
    ensures forall l :: l in r <==> l in links || (l.servicio == servicio && l.paquete in ids)
  {
    links + set p | p in ids :: PaqueteServicio(p, servicio)
  }

  /** Why the `servicio.update` of `actualizarServicio` throws: no service
      with that key, or a package to link that does not exist. */
  predicate ServicioUpdateFails(servicios: map<int, Row>, paquetes: map<int, Row>, id: int, body: Body)
  {
    || id !in servicios
    || exists p :: p in NormalizePaquetes(Get(body, "paquetes_ids")) && p !in paquetes
  }

  /** `actualizarServicio`. A NaN id makes the first query throw (500) and
      nothing changes. Otherwise every link of the service is deleted first
      and links of other services are never touched. If the update then
      throws, the answer is 500, the service row is unchanged and the
      service is left with no links; if it succeeds, the defined fields are
      written and the service is linked to exactly the normalised package
      ids (to none when the list is empty). */
  method ActualizarServicio(db: Db, idParam: string, body: Body, parseFloat: Value -> Present) returns (reply: Reply)
    requires db.Valid()
    modifies db`servicios, db`paqueteServicio
    ensures db.Valid()
    ensures ParamKey(idParam).None? ==>
              reply == ErrorReply(500, "Error al actualizar servicio")
              && db.servicios == old(db.servicios) && db.paqueteServicio == old(db.paqueteServicio)
    ensures ParamKey(idParam).Some? ==>
              forall l: PaqueteServicio :: l.servicio != ParamKey(idParam).value ==>
                (l in db.paqueteServicio <==> l in old(db.paqueteServicio))
    ensures ParamKey(idParam).Some? && ServicioUpdateFails(old(db.servicios), db.paquetes, ParamKey(idParam).value, body) ==>
              && reply == ErrorReply(500, "Error al actualizar servicio")
              && db.servicios == old(db.servicios)
              && forall l :: l in db.paqueteServicio ==> l.servicio != ParamKey(idParam).value
    ensures ParamKey(idParam).Some? && !ServicioUpdateFails(old(db.servicios), db.paquetes, ParamKey(idParam).value, body) ==>
              var id := ParamKey(idParam).value;
              var ids := NormalizePaquetes(Get(body, "paquetes_ids"));
              && id in old(db.servicios) && id in db.servicios
              && db.servicios == old(db.servicios)[id := db.servicios[id]]
              && WritesDefined(old(db.servicios)[id], db.servicios[id], body, parseFloat)
              && (forall l: PaqueteServicio :: l.servicio == id ==> (l in db.paqueteServicio <==> l.paquete in ids))
              && reply == Reply(200, Record(id, db.servicios[id]))
  {
    var key := ParamKey(idParam);
    if key.None? {
      return ErrorReply(500, "Error al actualizar servicio");
    }
    var id := key.value;
    db.paqueteServicio := DropLinks(db.paqueteServicio, id);
    var data := BuildServicioUpdate(body, parseFloat);
    var paquetesConnect := NormalizePaquetes(Get(body, "paquetes_ids"));
    if id !in db.servicios || exists p :: p in paquetesConnect && p !in db.paquetes {
      return ErrorReply(500, "Error al actualizar servicio");
    }
    ServicioUpdateEffect(db.servicios[id], data, body, parseFloat);
    db.servicios := db.servicios[id := ApplyUpdate(db.servicios[id], data)];
    if |paquetesConnect| > 0 {
      db.paqueteServicio := AddLinks(db.paqueteServicio, id, paquetesConnect);
    }
    reply := Reply(200, Record(id, db.servicios[id]));
  }
}
