/** `createGenericCrud(prisma, modelName, opts)`: five handlers over one table
    whose primary key is the column `idField`. The table is the sequence of
    its rows in the order `findMany` returns them; each row holds its own key.
    The text of a caught exception, which every handler sends as `detalle`,
    is a parameter `errorText`. */
module GenericCrud {
  import opened Values
  import opened Http
  import opened Store

  /** `pick(obj, keys)`: with no key list the object itself; otherwise a new
      object holding exactly the listed keys that `obj` has, with their
      values. */
  method Pick(obj: Body, keys: Option<seq<string>>) returns (out: Body)
    ensures keys.None? ==> out == obj
    ensures keys.Some? ==> forall k :: k in out <==> k in keys.value && k in obj
    ensures forall k :: k in out ==> k in obj && out[k] == obj[k]
  {
    if keys.None? {
      return obj;
    }
    out := map[];
    for i := 0 to |keys.value|
      invariant forall k :: k in out <==> k in keys.value[..i] && k in obj
      invariant forall k :: k in out ==> k in obj && out[k] == obj[k]
    {
      var k := keys.value[i];
      assert keys.value[..i + 1] == keys.value[..i] + [k];
      if k in obj {
        out := out[k := obj[k]];
      }
    }
    assert keys.value[..|keys.value|] == keys.value;
  }

  /** The `opts` argument; `include` only shapes replies and is left out. */
  datatype CrudOptions = CrudOptions(createAllowed: Option<seq<string>>, updateAllowed: Option<seq<string>>,
                                     idField: Option<string>)

  /** `opts.idField || "id"`: an absent or empty name falls back to "id". */
  function IdFieldOf(idField: Option<string>): (f: string)
    ensures f != ""
    ensures idField.Some? && idField.value != "" ==> f == idField.value
    ensures idField.None? || idField.value == "" ==> f == "id"
  {
    if idField.Some? && idField.value != "" then idField.value else "id"
  }

  /** `req.params[idField] ?? req.params.id`. */
  function IdRaw(params: map<string, string>, idField: string): (r: Option<string>)
    ensures idField in params ==> r == Some(params[idField])
    ensures idField !in params && "id" in params ==> r == Some(params["id"])
    ensures r.None? <==> idField !in params && "id" !in params
  {
    if idField in params then Some(params[idField])
    else if "id" in params then Some(params["id"])
    else None
  }

  /** `isNaN(Number(raw)) ? raw : Number(raw)`: a raw id that reads as a
      number is used as that number, any other stays the string it was. */
  function CoerceId(raw: string): (v: Value)
    ensures StrToNumber(raw).Int? ==> v == Num(StrToNumber(raw))
    ensures StrToNumber(raw).NaN? ==> v == Str(raw)
  {
    if StrToNumber(raw).NaN? then Str(raw) else Num(StrToNumber(raw))
  }

  /** Digit strings become numbers, the empty string becomes 0, and a slug
      stays a string. */
  lemma CoerceIdExamples()
    ensures CoerceId("42") == Num(Int(42))
    ensures CoerceId("") == Num(Int(0))
    ensures CoerceId("abc") == Str("abc")
  {
    StrToNumberRoundTrip(42);
    assert IntToStr(42) == "42" by {
      assert NatToDigits(42) == NatToDigits(4) + [DigitChar(2)];
    }
    assert !IsDigit('a');
  }

  /** The values a primary-key column holds. */
  predicate IsKey(v: Value)
  {
    (v.Num? && v.n.Int?) || v.Str?
  }

  /** `findUnique({ where: { [field]: id } })`: the position of the row
      whose key is `id`. */
  function IndexOf(rows: seq<Row>, field: string, id: Value): (r: Option<nat>)
    ensures r.Some? ==> r.value < |rows| && Get(rows[r.value], field) == id
    ensures r.None? <==> forall i :: 0 <= i < |rows| ==> Get(rows[i], field) != id
  {
    if rows == [] then None
    else if Get(rows[0], field) == id then Some(0)
    else match IndexOf(rows[1..], field, id)
      case None => None
      case Some(k) => Some(k + 1)
  }

  /** `pick` keeps column `k` under the key list `allowed`. */
  predicate Allowed(allowed: Option<seq<string>>, k: string)
  {
    allowed.None? || k in allowed.value
  }

  /** Column `k` of the body reaches Prisma as a value: it is picked and
      not `undefined`, which Prisma skips. */
  predicate Written(body: Body, allowed: Option<seq<string>>, k: string)
  {
    k in body && Allowed(allowed, k) && body[k] != Undefined
  }

  /** The key a created row gets: the body's, when it is written, and
      otherwise the next autoincrement value. */
  function CreatedKey(body: Body, allowed: Option<seq<string>>, field: string, next: int): Value
  {
    if Written(body, allowed, field) then body[field] else IdValue(next)
  }

  /** The key an updated row ends with: the body's, when it is written, and
      otherwise the row's own. */
  function UpdatedKey(row: Row, body: Body, allowed: Option<seq<string>>, field: string): Value
  {
    if Written(body, allowed, field) then body[field] else Get(row, field)
  }

  /** No row other than the one at `except` holds `key` (-1 excepts none). */
  predicate KeyFree(rows: seq<Row>, field: string, key: Value, except: int)
  {
    forall j :: 0 <= j < |rows| && j != except ==> Get(rows[j], field) != key
  }

  /** A table whose rows each hold a key in `field`, no two the same. */
  ghost predicate KeyedTable(rows: seq<Row>, field: string)
  {
    && (forall i :: 0 <= i < |rows| ==> IsKey(Get(rows[i], field)))
    && (forall i, j :: 0 <= i < |rows| && 0 <= j < |rows| && Get(rows[i], field) == Get(rows[j], field) ==> i == j)
  }

  class Crud {
    const modelName: string
    const idField: string
    const createAllowed: Option<seq<string>>
    const updateAllowed: Option<seq<string>>
    var rows: seq<Row>
    /** The next autoincrement key. */
    var nextId: int

    ghost predicate Valid()
      reads this
    {
      KeyedTable(rows, idField)
    }

    /** `createGenericCrud(prisma, modelName, opts)` over a table holding
        `rows`. */
    constructor (modelName: string, opts: CrudOptions, rows: seq<Row>, nextId: int)
      requires KeyedTable(rows, IdFieldOf(opts.idField))
      ensures Valid()
      ensures this.modelName == modelName && idField == IdFieldOf(opts.idField)
      ensures createAllowed == opts.createAllowed && updateAllowed == opts.updateAllowed
      ensures this.rows == rows && this.nextId == nextId
    {
      this.modelName := modelName;
      idField := IdFieldOf(opts.idField);
      createAllowed := opts.createAllowed;
      updateAllowed := opts.updateAllowed;
      this.rows := rows;
      this.nextId := nextId;
    }

    /** `list`: every record, in table order. */
    method List() returns (reply: Reply)
      ensures reply.status == 200 && reply.body.Arr? && |reply.body.elems| == |rows|
      ensures forall i :: 0 <= i < |rows| ==> reply.body.elems[i] == Obj(rows[i])
    {
      var items := seq(|rows|, i requires 0 <= i < |rows| reads this => Obj(rows[i]));
      reply := Reply(200, Arr(items));
    }

    /** `getById`: the record whose key is the coerced route parameter, 404
        when there is none, 500 when the route carries no id at all. */
    method GetById(params: map<string, string>, errorText: string) returns (reply: Reply)
      requires Valid()
      ensures IdRaw(params, idField).None? ==> reply == ErrorDetail(500, "Error al obtener " + modelName, errorText)
      ensures IdRaw(params, idField).Some? ==>
                var id := CoerceId(IdRaw(params, idField).value);
                && ((forall i :: 0 <= i < |rows| ==> Get(rows[i], idField) != id) ==>
                      reply == ErrorReply(404, modelName + " no encontrado"))
                && (forall i :: 0 <= i < |rows| && Get(rows[i], idField) == id ==> reply == Reply(200, Obj(rows[i])))
    {
      var idRaw := IdRaw(params, idField);
      if idRaw.None? {
        return ErrorDetail(500, "Error al obtener " + modelName, errorText);
      }
      var id := CoerceId(idRaw.value);
      var item := IndexOf(rows, idField, id);
      if item.None? {
        return ErrorReply(404, modelName + " no encontrado");
      }
      reply := Reply(200, Obj(rows[item.value]));
    }

    /** `create`: the picked body, without its `undefined` columns, becomes
        a new last row; a missing key is assigned from the autoincrement
        counter. A key that is not a key value, or that another row
        already has, violates the table's constraints and nothing is
        written. */
    method Create(body: Body, errorText: string) returns (reply: Reply)
      requires Valid()
      modifies this`rows, this`nextId
      ensures Valid()
      ensures reply.status == 201 <==>
                var key := CreatedKey(body, createAllowed, idField, old(nextId));
                IsKey(key) && KeyFree(old(rows), idField, key, -1)
      ensures reply.status == 201 ==>
                && |rows| == |old(rows)| + 1 && rows[..|old(rows)|] == old(rows)
                && var row := rows[|old(rows)|];
                   && reply == Reply(201, Obj(row))
                   && (forall k :: k != idField ==> (k in row <==> Written(body, createAllowed, k)))
                   && (forall k :: k in row && k != idField ==> row[k] == body[k])
                   && idField in row && row[idField] == CreatedKey(body, createAllowed, idField, old(nextId))
      ensures reply.status != 201 ==> reply == ErrorDetail(500, "Error al crear " + modelName, errorText) && rows == old(rows)
    {
      var data := Pick(body, createAllowed);
      var row := Defined(data);
      if idField !in row {
        row := row[idField := IdValue(nextId)];
        nextId := nextId + 1;
      }
      var id := row[idField];
      if !IsKey(id) || IndexOf(rows, idField, id).Some? {
        return ErrorDetail(500, "Error al crear " + modelName, errorText);
      }
      rows := rows + [row];
      reply := Reply(201, Obj(row));
    }

    /** `update`: the body filtered through `updateAllowed` is written over
        the row whose key is the coerced route parameter; a missing row, a
        route without an id, or a new key that is no key or belongs to
        another row makes the update throw and nothing is written. */
    method Update(params: map<string, string>, body: Body, errorText: string) returns (reply: Reply)
      requires Valid()
      modifies this`rows
      ensures Valid()
      ensures reply.status == 200 <==>
                && IdRaw(params, idField).Some?
                && exists i :: 0 <= i < |old(rows)| && Get(old(rows)[i], idField) == CoerceId(IdRaw(params, idField).value)
                     && IsKey(UpdatedKey(old(rows)[i], body, updateAllowed, idField))
                     && KeyFree(old(rows), idField, UpdatedKey(old(rows)[i], body, updateAllowed, idField), i)
      ensures reply.status == 200 ==>
                && IdRaw(params, idField).Some?
                && var id := CoerceId(IdRaw(params, idField).value);
                   exists i :: 0 <= i < |rows| && |rows| == |old(rows)| && Get(old(rows)[i], idField) == id
                     && rows == old(rows)[i := rows[i]]
                     && WritesPicked(old(rows)[i], rows[i], body, updateAllowed)
                     && reply == Reply(200, Obj(rows[i]))
      ensures reply.status != 200 ==> reply == ErrorDetail(500, "Error al actualizar " + modelName, errorText) && rows == old(rows)
    {
      var idRaw := IdRaw(params, idField);
      if idRaw.None? {
        return ErrorDetail(500, "Error al actualizar " + modelName, errorText);
      }
      var id := CoerceId(idRaw.value);
      var data := Pick(body, updateAllowed);
      var found := IndexOf(rows, idField, id);
      if found.None? {
        return ErrorDetail(500, "Error al actualizar " + modelName, errorText);
      }
      var i := found.value;
      SameKeySameRow(rows, idField, i);
      var updated := ApplyUpdate(rows[i], data);
      PickedUpdate(rows[i], body, updateAllowed, data, idField);
      var newId := Get(updated, idField);
      var holder := IndexOf(rows, idField, newId);
      FreeIffHolder(rows, idField, newId, i);
      if !IsKey(newId) || (holder.Some? && holder.value != i) {
        return ErrorDetail(500, "Error al actualizar " + modelName, errorText);
      }
      ReplaceKeepsKeyed(rows, idField, i, updated);
      rows := rows[i := updated];
      reply := Reply(200, Obj(updated));
      assert Get(old(rows)[i], idField) == id && rows == old(rows)[i := rows[i]];
      assert IsKey(UpdatedKey(old(rows)[i], body, updateAllowed, idField))
          && KeyFree(old(rows), idField, UpdatedKey(old(rows)[i], body, updateAllowed, idField), i);
    }

    /** `delete`: exactly the row whose key is the coerced route parameter
        is removed; without such a row the delete throws and nothing is
        removed. */
    method Remove(params: map<string, string>, errorText: string) returns (reply: Reply)
      requires Valid()
      modifies this`rows
      ensures Valid()
      ensures reply.status == 200 ==>
                && IdRaw(params, idField).Some?
                && (exists i :: 0 <= i < |old(rows)| && Get(old(rows)[i], idField) == CoerceId(IdRaw(params, idField).value)
                      && rows == old(rows)[..i] + old(rows)[i + 1..])
                && reply == Reply(200, Obj(map["mensaje" := Str(modelName + " eliminado correctamente")]))
      ensures reply.status != 200 ==> reply == ErrorDetail(500, "Error al eliminar " + modelName, errorText) && rows == old(rows)
      ensures reply.status != 200 <==>
                IdRaw(params, idField).None?
                || forall i :: 0 <= i < |old(rows)| ==> Get(old(rows)[i], idField) != CoerceId(IdRaw(params, idField).value)
    {
      var idRaw := IdRaw(params, idField);
      if idRaw.None? {
        return ErrorDetail(500, "Error al eliminar " + modelName, errorText);
      }
      var id := CoerceId(idRaw.value);
      var found := IndexOf(rows, idField, id);
      if found.None? {
        return ErrorDetail(500, "Error al eliminar " + modelName, errorText);
      }
      var i := found.value;
      RemoveKeepsKeyed(rows, idField, i);
      rows := rows[..i] + rows[i + 1..];
      reply := Reply(200, Obj(map["mensaje" := Str(modelName + " eliminado correctamente")]));
    }
  }

  /** In a keyed table only one row holds the key of row `i`. */
  lemma SameKeySameRow(rows: seq<Row>, field: string, i: nat)
    requires KeyedTable(rows, field) && i < |rows|
    ensures forall j :: 0 <= j < |rows| && Get(rows[j], field) == Get(rows[i], field) ==> j == i
  {
  }

  /** `after` is `before` with every written column of the body set and
      every other column as it was. */
  ghost predicate WritesPicked(before: Row, after: Row, body: Body, allowed: Option<seq<string>>)
  {
    && (forall k :: Written(body, allowed, k) ==> k in after && after[k] == body[k])
    && (forall k :: !Written(body, allowed, k) ==> (k in after <==> k in before) && (k in before ==> after[k] == before[k]))
  }

  /** Writing the picked body over a row sets exactly the written columns,
      and the row's key ends as `UpdatedKey` says. */
  lemma PickedUpdate(row: Row, body: Body, allowed: Option<seq<string>>, data: Body, field: string)
    requires allowed.None? ==> data == body
    requires allowed.Some? ==> forall k :: k in data <==> k in allowed.value && k in body
    requires forall k :: k in data ==> k in body && data[k] == body[k]
    ensures WritesPicked(row, ApplyUpdate(row, data), body, allowed)
    ensures Get(ApplyUpdate(row, data), field) == UpdatedKey(row, body, allowed, field)
  {
  }

  /** In a keyed table, no row but `i` holds `key` exactly when the lookup
      of `key` finds nothing or finds row `i`. */
  lemma FreeIffHolder(rows: seq<Row>, field: string, key: Value, i: nat)
    requires KeyedTable(rows, field) && i < |rows|
    ensures KeyFree(rows, field, key, i) <==>
              IndexOf(rows, field, key).None? || IndexOf(rows, field, key).value == i
  {
  }

  /** Replacing row `i` by one whose key is a key no other row holds keeps
      the table keyed. */
  lemma ReplaceKeepsKeyed(rows: seq<Row>, field: string, i: nat, row: Row)
    requires KeyedTable(rows, field) && i < |rows|
    requires IsKey(Get(row, field)) && KeyFree(rows, field, Get(row, field), i)
    ensures KeyedTable(rows[i := row], field)
  {
  }

  /** Removing a row keeps the keys of the others unique. */
  lemma RemoveKeepsKeyed(rows: seq<Row>, field: string, i: nat)
    requires KeyedTable(rows, field) && i < |rows|
    ensures KeyedTable(rows[..i] + rows[i + 1..], field)
  {
    var r := rows[..i] + rows[i + 1..];
    assert forall a :: 0 <= a < |r| ==> r[a] == rows[if a < i then a else a + 1];
  }
}
