/**
 * The report types model: each operation builds its query, hands it to the
 * driver with its parameters and post-processes the answer. `now`, the
 * fresh uuid and the driver are parameters.
 */
module ReportTypesModel {
  import opened Js
  import opened Errors
  import opened Sql
  import opened ModelKit
  import opened ReportTypeRepository

  /** `getReportTypesListModel({conn, ...rest})`: the list query at `now`; each row loses its id and audit columns. */
  function GetReportTypesListModel(rest: Props, now: Value, db: Executor): (r: Result<Value, Error>)
    ensures var p := WithNow(rest, now);
      var answer := db([SelectStmt(GetReportTypesListQuery(p))], p);
      && (answer.Err? ==> r == answer)
      && (r.Ok? <==> answer.Ok? && IsRows(answer.value))
      && (r.Ok? ==> Stripped(answer.value, r.value, AuditKeys))
  {
    var p := WithNow(rest, now);
    ListRows(db([SelectStmt(GetReportTypesListQuery(p))], p), AuditKeys)
  }

  /** `countReportTypesListModel({conn, ...rest})`: the `count` field of the first row the count query returns. */
  function CountReportTypesListModel(rest: Props, now: Value, db: Executor): (r: Result<Value, Error>)
    ensures var p := WithNow(rest, now);
      var answer := db([SelectStmt(CountReportTypesListQuery(p))], p);
      && (answer.Err? ==> r == answer)
      && (r.Ok? ==> answer.Ok? && answer.value.Arr? && |answer.value.items| > 0 && Prop(answer.value.items[0], "count") == Some(r.value))
  {
    var p := WithNow(rest, now);
    CountOf(db([SelectStmt(CountReportTypesListQuery(p))], p))
  }

  /** `insertReportTypesModel({conn, ...params})`: a fresh uuid and `now` join the parameters; the rows are `queryResult[1]`. */
  function InsertReportTypesModel(params: Props, now: Value, uuid: Value, db: Executor): (r: Result<Value, Error>)
    ensures var p := InsertParams(params, uuid, now);
      var answer := db(InsertReportTypesQuery(), p);
      && (answer.Err? ==> r == answer)
      && (r.Ok? ==> Index(answer.value, 1).Ok? && Stripped(Index(answer.value, 1).value, r.value, AuditKeys))
  {
    ResultSetRows(db(InsertReportTypesQuery(), InsertParams(params, uuid, now)), 1, AuditKeys)
  }

  /**
   * `modifyReportTypesModel({conn, ...params})`: the whole parameter object
   * is the builder's positional argument `name`; a deleted row in
   * `queryResult[1]` makes it throw 404.
   */
  function ModifyReportTypesModel(params: Props, db: Executor): (r: Result<Value, Error>)
    ensures var answer := db(UpdateReportTypesQuery(Obj(params)), params);
      && (answer.Err? ==> r == answer)
      && (r.Ok? ==> Index(answer.value, 1).Ok? && Stripped(Index(answer.value, 1).value, r.value, AuditKeys))
      && (answer.Ok? && r.Err? ==> r.error == Error404() || StatusAndText(r.error.code).0 == 500)
  {
    RereadRows(db(UpdateReportTypesQuery(Obj(params)), params), 1, AuditKeys, Error404())
  }

  /** `softDeleteReportTypesModel({uuid, deleted, deletedBy, conn})`: the driver's answer, unchanged. */
  function SoftDeleteReportTypesModel(args: Props, now: Value, db: Executor): (r: Result<Value, Error>)
  {
    db(SoftDeleteReportTypesQuery(), DeleteParams(args, now))
  }

  /** When the insert and its re-read succeed, the model returns the re-read rows, stripped. */
  lemma InsertReportTypesReturnsReread(params: Props, now: Value, uuid: Value, db: Executor)
    requires var answer := db(InsertReportTypesQuery(), InsertParams(params, uuid, now));
      answer.Ok? && Answers(InsertReportTypesQuery(), answer.value)
    ensures var answer := db(InsertReportTypesQuery(), InsertParams(params, uuid, now));
      var r := InsertReportTypesModel(params, now, uuid, db);
      r.Ok? && Stripped(answer.value.items[1], r.value, AuditKeys)
  {
    var answer := db(InsertReportTypesQuery(), InsertParams(params, uuid, now));
    assert StatementAnswer(InsertReportTypesQuery()[1], answer.value.items[1]);
  }

  /**
   * When the update and its re-read succeed, the model answers 404 exactly
   * when a re-read row is deleted, and the stripped rows otherwise.
   */
  lemma ModifyReportTypesOutcome(params: Props, db: Executor)
    requires var answer := db(UpdateReportTypesQuery(Obj(params)), params);
      answer.Ok? && Answers(UpdateReportTypesQuery(Obj(params)), answer.value)
    ensures var rows := db(UpdateReportTypesQuery(Obj(params)), params).value.items[1];
      var r := ModifyReportTypesModel(params, db);
      && (r.Ok? || r == Err(Error404()))
      && (r == Err(Error404()) <==> exists i | 0 <= i < |rows.items| :: Get(rows.items[i].fields, "deleted") != Null)
      && (r.Ok? ==> Stripped(rows, r.value, AuditKeys))
  {
    var answer := db(UpdateReportTypesQuery(Obj(params)), params);
    assert StatementAnswer(UpdateReportTypesQuery(Obj(params))[1], answer.value.items[1]);
  }

  /**
   * Because the parameter object lands in the `name` slot, the update
   * always writes `name` from `:name`: a request without a name sets it to
   * NULL.
   */
  lemma ModifyReportTypesPositional(params: Props, env: Env, row: Props)
    requires env.params == params
    ensures var u := UpdateReportTypesQuery(Obj(params))[0].update;
      Touches(u, env, row) ==> Get(ApplyUpdate(u, env, row), "name") == Sqlish(Get(params, "name"))
    ensures var u := UpdateReportTypesQuery(Obj(params))[0].update;
      Touches(u, env, row) && "name" !in params ==> Get(ApplyUpdate(u, env, row), "name") == Null
  {
    UpdateReportTypeEffect(Obj(params), env, row, "deleted");
  }

  /**
   * The soft delete stamps the row with the time given, or with `now` when
   * none is; once stamped with a time that is not null, the row no longer
   * passes the soft delete's guard.
   */
  lemma ReportTypeDeleteStamps(args: Props, now: Value, env: Env, row: Props)
    requires env.params == DeleteParams(args, now)
    ensures var u := SoftDeleteReportTypesQuery()[0].update;
      && (Touches(u, env, row) ==>
            Get(ApplyUpdate(u, env, row), "deleted") == Sqlish(DeletionTime(Get(args, "deleted"), now)) &&
            Get(ApplyUpdate(u, env, row), "deletedBy") == Sqlish(Get(args, "deletedBy")))
      && (Touches(u, env, row) && !IsNullValue(now) ==> !Touches(u, env, ApplyUpdate(u, env, row)))
  {
    ReportTypeSoftDelete(env, row);
  }
}
