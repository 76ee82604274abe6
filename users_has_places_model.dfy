/**
 * The user-place links model: each operation builds its query, hands it to
 * the driver with its parameters and post-processes the answer. `now`, the
 * fresh uuid and the driver are parameters.
 */
module UsersHasPlacesModel {
  import opened Js
  import opened Errors
  import opened Sql
  import opened ModelKit
  import opened UsersHasPlacesRepository

  /** The keys the list strips: the audit keys, both foreign keys and `fk_report_type`. */
  const LinkKeys: set<string> := AuditKeys + {"fk_user", "fk_place", "fk_report_type"}

  /** `getUserHasPlacesListModel({conn, ...rest})`: the list query at `now`; each row loses its ids and audit columns. */
  function GetUserHasPlacesListModel(rest: Props, now: Value, db: Executor): (r: Result<Value, Error>)
    ensures var p := WithNow(rest, now);
      var answer := db([SelectStmt(GetUserHasPlacesListQuery(p))], p);
      && (answer.Err? ==> r == answer)
      && (r.Ok? <==> answer.Ok? && IsRows(answer.value))
      && (r.Ok? ==> Stripped(answer.value, r.value, LinkKeys))
  {
    var p := WithNow(rest, now);
    ListRows(db([SelectStmt(GetUserHasPlacesListQuery(p))], p), LinkKeys)
  }

  /** `countUserHasPlacesListModel({conn, ...rest})`: the `count` field of the first row the count query returns. */
  function CountUserHasPlacesListModel(rest: Props, now: Value, db: Executor): (r: Result<Value, Error>)
    ensures var p := WithNow(rest, now);
      var answer := db([SelectStmt(CountUserHasPlacesListQuery(p))], p);
      && (answer.Err? ==> r == answer)
      && (r.Ok? ==> answer.Ok? && answer.value.Arr? && |answer.value.items| > 0 && Prop(answer.value.items[0], "count") == Some(r.value))
  {
    var p := WithNow(rest, now);
    CountOf(db([SelectStmt(CountUserHasPlacesListQuery(p))], p))
  }

  /**
   * The count query selects the link columns, not a count: when its rows
   * carry no `count` field the model resolves with `undefined`, and with
   * no row at all it rejects.
   */
  lemma LinkCountIsUndefined(rest: Props, now: Value, db: Executor)
    requires var p := WithNow(rest, now);
      var answer := db([SelectStmt(CountUserHasPlacesListQuery(p))], p);
      answer.Ok? && IsRows(answer.value) && forall i | 0 <= i < |answer.value.items| :: "count" !in answer.value.items[i].fields
    ensures var p := WithNow(rest, now);
      var answer := db([SelectStmt(CountUserHasPlacesListQuery(p))], p);
      answer.value.items != [] ==> CountUserHasPlacesListModel(rest, now, db) == Ok(Undefined)
    ensures var p := WithNow(rest, now);
      var answer := db([SelectStmt(CountUserHasPlacesListQuery(p))], p);
      answer.value.items == [] ==> CountUserHasPlacesListModel(rest, now, db).Err?
  {
  }

  /** `insertUserHasPlacesModel({conn, ...params})`: a fresh uuid and `now` join the parameters; the rows are `queryResult[2]`. */
  function InsertUserHasPlacesModel(params: Props, now: Value, uuid: Value, db: Executor): (r: Result<Value, Error>)
    ensures var p := InsertParams(params, uuid, now);
      var answer := db(InsertUserHasPlacesQuery(p), p);
      && (answer.Err? ==> r == answer)
      && (r.Ok? ==> Index(answer.value, 2).Ok? && Stripped(Index(answer.value, 2).value, r.value, AuditKeys))
  {
    var p := InsertParams(params, uuid, now);
    ResultSetRows(db(InsertUserHasPlacesQuery(p), p), 2, AuditKeys)
  }

  /**
   * The insert script has two statements, so `queryResult[2]` is undefined
   * and the model rejects with a TypeError whenever the script succeeds.
   */
  lemma InsertUserHasPlacesRejects(params: Props, now: Value, uuid: Value, db: Executor)
    requires var p := InsertParams(params, uuid, now);
      db(InsertUserHasPlacesQuery(p), p).Ok? ==> Answers(InsertUserHasPlacesQuery(p), db(InsertUserHasPlacesQuery(p), p).value)
    ensures InsertUserHasPlacesModel(params, now, uuid, db).Err?
    ensures var p := InsertParams(params, uuid, now);
      db(InsertUserHasPlacesQuery(p), p).Ok? ==> StatusAndText(InsertUserHasPlacesModel(params, now, uuid, db).error.code).0 == 500
  {
  }

  /**
   * `modifyUserHasPlacesModel({conn, ...params})`: the builder throws
   * before any query exists, so the call itself throws, synchronously,
   * whatever the parameters.
   */
  function ModifyUserHasPlacesModel(params: Props, now: Value): (e: Error)
    ensures ModifyUserHasPlacesQuery() == Err(e)
    ensures StatusAndText(e.code).0 == 500
  {
    ModifyUserHasPlacesQuery().error
  }

  /** `softDeleteUserHasPlacesModel({uuid, deleted, deletedBy, conn})`: the driver's answer, unchanged. */
  function SoftDeleteUserHasPlacesModel(args: Props, now: Value, db: Executor): (r: Result<Value, Error>)
  {
    db(SoftDeleteUserHasPlacesQuery(), DeleteParams(args, now))
  }

  /**
   * The soft delete stamps the time given, or `now`; called without a
   * `uuid` argument it matches no row at all.
   */
  lemma LinkDeleteStamps(args: Props, now: Value, env: Env, row: Props)
    requires env.params == DeleteParams(args, now)
    ensures var u := SoftDeleteUserHasPlacesQuery()[0].update;
      && (Touches(u, env, row) ==>
            Get(ApplyUpdate(u, env, row), "deleted") == Sqlish(DeletionTime(Get(args, "deleted"), now)) &&
            Get(ApplyUpdate(u, env, row), "deletedBy") == Sqlish(Get(args, "deletedBy")))
      && ("uuid" !in args ==> !Touches(u, env, row))
      && (Touches(u, env, row) && !IsNullValue(now) ==> !Touches(u, env, ApplyUpdate(u, env, row)))
  {
    LinkSoftDelete(env, row);
  }
}
