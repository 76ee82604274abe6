/**
 * What the resource models do around `mysql.execute`: the driver's answer
 * comes in as a value; the models take result sets out of it by index, read
 * a count from the first row, strip bookkeeping keys from rows and refuse a
 * re-read row that is deleted.
 */
module ModelKit {
  import opened Js
  import opened Errors
  import opened Sql

  /**
   * `mysql.execute(query, conn, params)`: what its promise resolves with
   * (`Ok`) or rejects with (`Err`). The connection is implicit.
   */
  type Executor = (Script, Props) -> Result<Value, Error>

  /** The keys every model strips from its rows. */
  const AuditKeys: set<string> := {"id", "created", "deleted", "createdBy", "deletedBy"}

  /** A TypeError: a property read on `undefined` or `null`, or a call of something that is not a function. */
  function TypeError(what: string): (e: Error)
    ensures StatusAndText(e.code).0 == 500
  {
    Error("TypeError: " + what, None, None)
  }

  /** What a SELECT resolves with: an array of row objects. */
  predicate IsRows(v: Value)
  {
    v.Arr? && forall i | 0 <= i < |v.items| :: v.items[i].Obj?
  }

  /**
   * The shape of the driver's answer when every statement of the script
   * succeeds: a SELECT gives its rows and any other statement a result
   * packet (an object); a script of several statements gives the array of
   * their answers, a single statement its bare answer.
   */
  predicate StatementAnswer(s: Statement, v: Value)
  {
    if s.SelectStmt? then IsRows(v) else v.Obj?
  }

  predicate Answers(script: Script, v: Value)
  {
    if |script| == 1 then StatementAnswer(script[0], v)
    else v.Arr? && |v.items| == |script| && forall i | 0 <= i < |script| :: StatementAnswer(script[i], v.items[i])
  }

  /** `out` is `rows` with `keys` taken out of every row and every other field kept, in the same order. */
  predicate Stripped(rows: Value, out: Value, keys: set<string>)
  {
    && IsRows(rows) && IsRows(out) && |out.items| == |rows.items|
    && forall i | 0 <= i < |rows.items| ::
         && out.items[i].fields.Keys == rows.items[i].fields.Keys - keys
         && forall k | k in out.items[i].fields :: out.items[i].fields[k] == rows.items[i].fields[k]
  }

  /**
   * `v.map(({id, created, ..., ...rest}) => rest)`: calling `map` on what
   * is not an array, or destructuring a row that is not an object, throws.
   */
  function StripRows(v: Value, keys: set<string>): (r: Result<Value, Error>)
    ensures r.Ok? <==> IsRows(v)
    ensures r.Ok? ==> Stripped(v, r.value, keys)
    ensures r.Ok? ==> forall i, k | 0 <= i < |r.value.items| && k in keys :: k !in r.value.items[i].fields
    ensures r.Err? ==> StatusAndText(r.error.code).0 == 500
  {
    if IsRows(v) then Ok(Arr(seq(|v.items|, i requires 0 <= i < |v.items| => Obj(v.items[i].fields - keys))))
    else Err(TypeError("map"))
  }

  /** `v[i]`: indexing `undefined` or `null` throws; a missing index, or a value that is not an array, reads as `undefined`. */
  function Index(v: Value, i: nat): (r: Result<Value, Error>)
    ensures r.Err? <==> v.Undefined? || v.Null?
    ensures v.Arr? ==> r == Ok(if i < |v.items| then v.items[i] else Undefined)
    ensures !v.Arr? && r.Ok? ==> r.value == Undefined
    ensures r.Err? ==> StatusAndText(r.error.code).0 == 500
  {
    match v
    case Undefined => Err(TypeError("reading an index of undefined"))
    case Null => Err(TypeError("reading an index of null"))
    case Arr(items) => Ok(if i < |items| then items[i] else Undefined)
    case _ => Ok(Undefined)
  }

  /** The driver's error passes through; a result is handed to `k`. */
  function Then(answer: Result<Value, Error>, k: Value -> Result<Value, Error>): (r: Result<Value, Error>)
    ensures answer.Err? ==> r == answer
    ensures answer.Ok? ==> r == k(answer.value)
  {
    match answer
    case Err(e) => Err(e)
    case Ok(v) => k(v)
  }

  /** `.then(rows => rows.map(strip keys))` */
  function ListRows(answer: Result<Value, Error>, keys: set<string>): (r: Result<Value, Error>)
    ensures answer.Err? ==> r == answer
    ensures r.Ok? <==> answer.Ok? && IsRows(answer.value)
    ensures r.Ok? ==> Stripped(answer.value, r.value, keys)
  {
    Then(answer, v => StripRows(v, keys))
  }

  /** `.then(results => results[0].count)`: an empty answer has no first row to read. */
  function CountOf(answer: Result<Value, Error>): (r: Result<Value, Error>)
    ensures answer.Err? ==> r == answer
    ensures r.Ok? ==> answer.Ok? && answer.value.Arr? && |answer.value.items| > 0 && Prop(answer.value.items[0], "count") == Some(r.value)
    ensures answer.Ok? && answer.value.Arr? && |answer.value.items| > 0 && answer.value.items[0].Obj? ==> r.Ok?
    ensures answer == Ok(Arr([])) ==> r.Err?
  {
    Then(answer, v =>
      match Index(v, 0)
      case Err(e) => Err(e)
      case Ok(first) =>
        match Prop(first, "count")
        case None => Err(TypeError("reading 'count' of " + (if first.Null? then "null" else "undefined")))
        case Some(c) => Ok(c))
  }

  /** `.then(queryResult => queryResult[at].map(strip keys))` */
  function ResultSetRows(answer: Result<Value, Error>, at: nat, keys: set<string>): (r: Result<Value, Error>)
    ensures answer.Err? ==> r == answer
    ensures r.Ok? <==> answer.Ok? && Index(answer.value, at).Ok? && IsRows(Index(answer.value, at).value)
    ensures r.Ok? ==> Stripped(Index(answer.value, at).value, r.value, keys)
  {
    Then(answer, v => match Index(v, at) case Err(e) => Err(e) case Ok(set_) => StripRows(set_, keys))
  }

  /**
   * `items.find(item => item.deleted !== null)`: the first item whose
   * `deleted` is not null; a row without the key reads `undefined`, which
   * is not null, and reading `deleted` of `undefined` or `null` throws.
   */
  function FindDeleted(items: seq<Value>): (r: Result<Option<Value>, Error>)
    ensures r.Ok? && r.value.Some? ==> r.value.value in items && Prop(r.value.value, "deleted").Some? && Prop(r.value.value, "deleted") != Some(Null)
    ensures r.Ok? && r.value.None? ==> forall i | 0 <= i < |items| :: Prop(items[i], "deleted") == Some(Null)
    ensures (forall i | 0 <= i < |items| :: items[i].Obj?) ==> r.Ok?
    ensures r.Err? ==> StatusAndText(r.error.code).0 == 500
  {
    if items == [] then Ok(None)
    else
      match Prop(items[0], "deleted")
      case None => Err(TypeError("reading 'deleted'"))
      case Some(d) =>
        if d != Null then Ok(Some(items[0]))
        else
          var rest := FindDeleted(items[1..]);
          assert forall i | 1 <= i < |items| :: items[i] == items[1..][i - 1];
          rest
  }

  /**
   * `if (rows.find(item => item.deleted !== null)) throw notFound; return
   * rows.map(strip keys)`: refuse a result set holding a deleted row.
   */
  function RefuseDeleted(rows: Value, keys: set<string>, notFound: Error): (r: Result<Value, Error>)
    ensures r.Ok? ==> Stripped(rows, r.value, keys) && forall i | 0 <= i < |rows.items| :: Get(rows.items[i].fields, "deleted") == Null
    ensures IsRows(rows) ==>
      && (r.Ok? || r == Err(notFound))
      && (r == Err(notFound) <==> exists i | 0 <= i < |rows.items| :: Get(rows.items[i].fields, "deleted") != Null)
    ensures r.Err? ==> r.error == notFound || StatusAndText(r.error.code).0 == 500
  {
    if !rows.Arr? then Err(TypeError("find is not a function"))
    else
      match FindDeleted(rows.items)
      case Err(e) => Err(e)
      case Ok(found) =>
        if found.Some? && Truthy(found.value) then Err(notFound)
        else StripRows(rows, keys)
  }

  /**
   * The `.then` of the modify models: take the re-read result set
   * `queryResult[at]` and refuse it when one of its rows is deleted.
   */
  function RereadRows(answer: Result<Value, Error>, at: nat, keys: set<string>, notFound: Error): (r: Result<Value, Error>)
    ensures answer.Err? ==> r == answer
    ensures answer.Ok? ==> r == (match Index(answer.value, at) case Err(e) => Err(e) case Ok(rows) => RefuseDeleted(rows, keys, notFound))
    ensures r.Ok? ==> answer.Ok? && Index(answer.value, at).Ok?
    ensures answer.Ok? && r.Err? ==> r.error == notFound || StatusAndText(r.error.code).0 == 500
  {
    Then(answer, v => match Index(v, at) case Err(e) => Err(e) case Ok(rows) => RefuseDeleted(rows, keys, notFound))
  }

  /** `{...rest, now}` */
  function WithNow(rest: Props, now: Value): (p: Props)
    ensures p.Keys == rest.Keys + {"now"} && p["now"] == now
    ensures forall k | k in rest && k != "now" :: p[k] == rest[k]
  {
    rest["now" := now]
  }

  /** `{...params, uuid, now}` */
  function InsertParams(params: Props, uuid: Value, now: Value): (p: Props)
    ensures p.Keys == params.Keys + {"uuid", "now"} && p["uuid"] == uuid && p["now"] == now
    ensures forall k | k in params && k !in {"uuid", "now"} :: p[k] == params[k]
  {
    params["uuid" := uuid]["now" := now]
  }

  /** `deleted ? deleted : now`: the deletion time given, or now (its formatting is not modelled). */
  function DeletionTime(deleted: Value, now: Value): (t: Value)
    ensures Truthy(deleted) ==> t == deleted
    ensures !Truthy(deleted) ==> t == now
  {
    if Truthy(deleted) then deleted else now
  }

  /** `{uuid, deletedBy, deleted: deletedData}`: the parameters of the single-row soft deletes. */
  function DeleteParams(args: Props, now: Value): (p: Props)
    ensures p.Keys == {"uuid", "deletedBy", "deleted"}
    ensures p["uuid"] == Get(args, "uuid") && p["deletedBy"] == Get(args, "deletedBy")
    ensures p["deleted"] == DeletionTime(Get(args, "deleted"), now)
  {
    map["uuid" := Get(args, "uuid"), "deletedBy" := Get(args, "deletedBy"), "deleted" := DeletionTime(Get(args, "deleted"), now)]
  }
}
