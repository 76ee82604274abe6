/**
 * The places model: each operation builds its query, hands it to the
 * driver with its parameters and post-processes the answer. `now`, the
 * fresh uuid and the driver are parameters.
 */
module PlacesModel {
  import opened Js
  import opened Errors
  import opened Sql
  import opened ModelKit
  import opened PlaceRepository

  /** `getPlaceListModel({conn, ...rest})`: the list query at `now`; each row loses its id and audit columns. */
  function GetPlaceListModel(rest: Props, now: Value, db: Executor): (r: Result<Value, Error>)
    ensures var p := WithNow(rest, now);
      var answer := db([SelectStmt(GetPlaceListQuery(p))], p);
      && (answer.Err? ==> r == answer)
      && (r.Ok? <==> answer.Ok? && IsRows(answer.value))
      && (r.Ok? ==> Stripped(answer.value, r.value, AuditKeys))
  {
    var p := WithNow(rest, now);
    ListRows(db([SelectStmt(GetPlaceListQuery(p))], p), AuditKeys)
  }

  /** `countPlaceListModel({conn, ...rest})`: the `count` field of the first row the count query returns. */
  function CountPlaceListModel(rest: Props, now: Value, db: Executor): (r: Result<Value, Error>)
    ensures var p := WithNow(rest, now);
      var answer := db([SelectStmt(CountPlaceListQuery(p))], p);
      && (answer.Err? ==> r == answer)
      && (r.Ok? ==> answer.Ok? && answer.value.Arr? && |answer.value.items| > 0 && Prop(answer.value.items[0], "count") == Some(r.value))
  {
    var p := WithNow(rest, now);
    CountOf(db([SelectStmt(CountPlaceListQuery(p))], p))
  }

  /** `insertPlaceModel({conn, ...params})`: a fresh uuid and `now` join the parameters; the rows are `queryResult[1]`. */
  function InsertPlaceModel(params: Props, now: Value, uuid: Value, db: Executor): (r: Result<Value, Error>)
    ensures var p := InsertParams(params, uuid, now);
      var answer := db(InsertPlaceQuery(p), p);
      && (answer.Err? ==> r == answer)
      && (r.Ok? ==> Index(answer.value, 1).Ok? && Stripped(Index(answer.value, 1).value, r.value, AuditKeys))
  {
    var p := InsertParams(params, uuid, now);
    ResultSetRows(db(InsertPlaceQuery(p), p), 1, AuditKeys)
  }

  /**
   * `modifyPlaceModel({conn, ...params})`: a deleted row in
   * `queryResult[1]` makes it throw; `error404` is not imported here, so
   * the throw is a ReferenceError, which classifies as 500, not 404.
   */
  function ModifyPlaceModel(params: Props, db: Executor): (r: Result<Value, Error>)
    ensures var answer := db(UpdatePlaceQuery(params), params);
      && (answer.Err? ==> r == answer)
      && (r.Ok? ==> Index(answer.value, 1).Ok? && Stripped(Index(answer.value, 1).value, r.value, AuditKeys))
      && (r.Err? && answer.Ok? ==> StatusAndText(r.error.code).0 == 500)
  {
    RereadRows(db(UpdatePlaceQuery(params), params), 1, AuditKeys, RuntimeError("error404 is not defined"))
  }

  /** `deletePlaceModel({uuid, deleted, deletedBy, conn})`: the driver's answer, unchanged. */
  function DeletePlaceModel(args: Props, now: Value, db: Executor): (r: Result<Value, Error>)
  {
    db(DeletePlaceQuery(), DeleteParams(args, now))
  }

  /**
   * The insert is a single statement, so the driver answers it with a bare
   * result packet: `queryResult[1]` is undefined, and the model rejects
   * with a TypeError whenever the statement succeeds.
   */
  lemma InsertPlaceRejects(params: Props, now: Value, uuid: Value, db: Executor)
    requires var p := InsertParams(params, uuid, now);
      db(InsertPlaceQuery(p), p).Ok? ==> Answers(InsertPlaceQuery(p), db(InsertPlaceQuery(p), p).value)
    ensures InsertPlaceModel(params, now, uuid, db).Err?
    ensures var p := InsertParams(params, uuid, now);
      db(InsertPlaceQuery(p), p).Ok? ==> StatusAndText(InsertPlaceModel(params, now, uuid, db).error.code).0 == 500
  {
    InsertPlaceValues(InsertParams(params, uuid, now));
  }

  /** The update is a single statement too: the modify model rejects whenever it succeeds, with a 500. */
  lemma ModifyPlaceRejects(params: Props, db: Executor)
    requires db(UpdatePlaceQuery(params), params).Ok? ==> Answers(UpdatePlaceQuery(params), db(UpdatePlaceQuery(params), params).value)
    ensures ModifyPlaceModel(params, db).Err?
    ensures db(UpdatePlaceQuery(params), params).Ok? ==> StatusAndText(ModifyPlaceModel(params, db).error.code).0 == 500
  {
    assert |UpdatePlaceQuery(params)| == 1;
  }

  /**
   * The delete stamps the row with the time given, or with `now` when none
   * is, and records who deleted it; once stamped with a time that is not
   * null, the row no longer passes the delete's guard.
   */
  lemma PlaceDeleteStamps(args: Props, now: Value, env: Env, row: Props)
    requires env.params == DeleteParams(args, now)
    ensures var u := DeletePlaceQuery()[0].update;
      && (Touches(u, env, row) ==>
            Get(ApplyUpdate(u, env, row), "deleted") == Sqlish(DeletionTime(Get(args, "deleted"), now)) &&
            Get(ApplyUpdate(u, env, row), "deletedby") == Sqlish(Get(args, "deletedBy")))
      && (Touches(u, env, row) && !IsNullValue(now) ==> !Touches(u, env, ApplyUpdate(u, env, row)))
  {
    DeletePlaceEffect(env, row);
  }
}
