/**
 * The coordinates model: each operation builds its query, hands it to the
 * driver with its parameters and post-processes the answer. `now`, the
 * fresh uuid and the driver are parameters.
 */
module CoordinatesModel {
  import opened Js
  import opened Errors
  import opened Sql
  import opened ModelKit
  import opened CoordinateRepository

  /** `getCoordinatesListModel({conn, ...rest})`: the list query at `now`; each row loses its id and audit columns. */
  function GetCoordinatesListModel(rest: Props, now: Value, db: Executor): (r: Result<Value, Error>)
    ensures var p := WithNow(rest, now);
      var answer := db([SelectStmt(GetCoordinatesListQuery(p))], p);
      && (answer.Err? ==> r == answer)
      && (r.Ok? <==> answer.Ok? && IsRows(answer.value))
      && (r.Ok? ==> Stripped(answer.value, r.value, AuditKeys))
  {
    var p := WithNow(rest, now);
    ListRows(db([SelectStmt(GetCoordinatesListQuery(p))], p), AuditKeys)
  }

  /** `countCoordinatesListModel({conn, ...rest})`: the `count` field of the first row the count query returns. */
  function CountCoordinatesListModel(rest: Props, now: Value, db: Executor): (r: Result<Value, Error>)
    ensures var p := WithNow(rest, now);
      var answer := db([SelectStmt(CountCoordinatesListQuery(p))], p);
      && (answer.Err? ==> r == answer)
      && (r.Ok? ==> answer.Ok? && answer.value.Arr? && |answer.value.items| > 0 && Prop(answer.value.items[0], "count") == Some(r.value))
  {
    var p := WithNow(rest, now);
    CountOf(db([SelectStmt(CountCoordinatesListQuery(p))], p))
  }

  /** `insertCoordinatesModel({conn, ...params})`: a fresh uuid and `now` join the parameters; the rows are `queryResult[1]`. */
  function InsertCoordinatesModel(params: Props, now: Value, uuid: Value, db: Executor): (r: Result<Value, Error>)
    ensures var p := InsertParams(params, uuid, now);
      var answer := db(InsertCoordinatesQuery(), p);
      && (answer.Err? ==> r == answer)
      && (r.Ok? ==> Index(answer.value, 1).Ok? && Stripped(Index(answer.value, 1).value, r.value, AuditKeys))
  {
    ResultSetRows(db(InsertCoordinatesQuery(), InsertParams(params, uuid, now)), 1, AuditKeys)
  }

  /**
   * `modifyCoordinatesModel({conn, ...params})`: the whole parameter object
   * is the builder's first positional argument, `latitude`, and nothing is
   * its second; a deleted row in `queryResult[1]` makes it throw 404.
   */
  function ModifyCoordinatesModel(params: Props, db: Executor): (r: Result<Value, Error>)
    ensures var answer := db(UpdateCoordinatesQuery(Obj(params), Undefined), params);
      && (answer.Err? ==> r == answer)
      && (r.Ok? ==> Index(answer.value, 1).Ok? && Stripped(Index(answer.value, 1).value, r.value, AuditKeys))
      && (answer.Ok? && r.Err? ==> r.error == Error404() || StatusAndText(r.error.code).0 == 500)
  {
    RereadRows(db(UpdateCoordinatesQuery(Obj(params), Undefined), params), 1, AuditKeys, Error404())
  }

  /** `softDeleteCoordinatesModel({uuid, deleted, deletedBy, conn})`: the driver's answer, unchanged. */
  function SoftDeleteCoordinatesModel(args: Props, now: Value, db: Executor): (r: Result<Value, Error>)
  {
    db(SoftDeleteCoordinatesQuery(), DeleteParams(args, now))
  }

  /** When the insert and its re-read succeed, the model returns the re-read rows, stripped. */
  lemma InsertCoordinatesReturnsReread(params: Props, now: Value, uuid: Value, db: Executor)
    requires var answer := db(InsertCoordinatesQuery(), InsertParams(params, uuid, now));
      answer.Ok? && Answers(InsertCoordinatesQuery(), answer.value)
    ensures var answer := db(InsertCoordinatesQuery(), InsertParams(params, uuid, now));
      var r := InsertCoordinatesModel(params, now, uuid, db);
      r.Ok? && Stripped(answer.value.items[1], r.value, AuditKeys)
  {
    var answer := db(InsertCoordinatesQuery(), InsertParams(params, uuid, now));
    assert StatementAnswer(InsertCoordinatesQuery()[1], answer.value.items[1]);
  }

  /**
   * When the update and its re-read succeed, the model answers 404 exactly
   * when a re-read row is deleted, and the stripped rows otherwise.
   */
  lemma ModifyCoordinatesOutcome(params: Props, db: Executor)
    requires var answer := db(UpdateCoordinatesQuery(Obj(params), Undefined), params);
      answer.Ok? && Answers(UpdateCoordinatesQuery(Obj(params), Undefined), answer.value)
    ensures var rows := db(UpdateCoordinatesQuery(Obj(params), Undefined), params).value.items[1];
      var r := ModifyCoordinatesModel(params, db);
      && (r.Ok? || r == Err(Error404()))
      && (r == Err(Error404()) <==> exists i | 0 <= i < |rows.items| :: Get(rows.items[i].fields, "deleted") != Null)
      && (r.Ok? ==> Stripped(rows, r.value, AuditKeys))
  {
    var answer := db(UpdateCoordinatesQuery(Obj(params), Undefined), params);
    assert StatementAnswer(UpdateCoordinatesQuery(Obj(params), Undefined)[1], answer.value.items[1]);
  }

  /**
   * Because the parameter object lands in the `latitude` slot, the update
   * always writes `latitude` from `:latitude` and never writes `longitude`,
   * whatever the caller sent.
   */
  lemma ModifyCoordinatesPositional(params: Props, env: Env, row: Props)
    requires env.params == params
    ensures var u := UpdateCoordinatesQuery(Obj(params), Undefined)[0].update;
      Touches(u, env, row) ==>
        && Get(ApplyUpdate(u, env, row), "latitude") == Sqlish(Get(params, "latitude"))
        && Get(ApplyUpdate(u, env, row), "longitude") == Get(row, "longitude")
  {
    UpdateCoordinateEffect(Obj(params), Undefined, env, row, "deleted");
  }

  /**
   * The soft delete stamps the row with the time given, or with `now` when
   * none is; once stamped with a time that is not null, the row no longer
   * passes the soft delete's guard.
   */
  lemma CoordinateDeleteStamps(args: Props, now: Value, env: Env, row: Props)
    requires env.params == DeleteParams(args, now)
    ensures var u := SoftDeleteCoordinatesQuery()[0].update;
      && (Touches(u, env, row) ==>
            Get(ApplyUpdate(u, env, row), "deleted") == Sqlish(DeletionTime(Get(args, "deleted"), now)) &&
            Get(ApplyUpdate(u, env, row), "deletedby") == Sqlish(Get(args, "deletedBy")))
      && (Touches(u, env, row) && !IsNullValue(now) ==> !Touches(u, env, ApplyUpdate(u, env, row)))
  {
    CoordinateSoftDelete(env, row);
  }
}
