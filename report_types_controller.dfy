/**
 * The report-type handlers: the list, the lookup by uuid, the insert, the
 * modify and the soft delete.
 */
module ReportTypesController {
  import opened Js
  import opened Errors
  import opened Sql
  import opened ModelKit
  import opened Http
  import opened ControllerKit
  import opened ReportTypeRepository
  import opened ReportTypesModel

  /** `getReportTypesListController`: list and count with the request's query. */
  method GetReportTypesListController(ex: Exchange, pool: Pool, req: Request, environment: Option<string>, now: Value, db: Executor)
    modifies ex, pool
    ensures pool.open == old(pool.open) && ex.auth == old(ex.auth)
    ensures ex.outcome == ListOutcome("report_types", req.query, GetReportTypesListModel(WithConn(req.query), now, db),
                                      CountReportTypesListModel(WithConn(req.query), now, db), environment)
  {
    var rows := GetReportTypesListModel(WithConn(req.query), now, db);
    var count := CountReportTypesListModel(WithConn(req.query), now, db);
    ListFlow(ex, pool, "report_types", req.query, rows, count, environment);
  }

  /** `getReportTypesByUuidController`: the list filtered by the path's uuid; 404 when empty. */
  method GetReportTypesByUuidController(ex: Exchange, pool: Pool, req: Request, environment: Option<string>, now: Value, db: Executor)
    modifies ex, pool
    ensures pool.open == old(pool.open) && ex.auth == old(ex.auth)
    ensures ex.outcome == LookupOutcome(Keyed("report_types"), GetReportTypesListModel(map["uuid" := Get(req.params, "uuid")], now, db), environment)
  {
    LookupFlow(ex, pool, Keyed("report_types"), GetReportTypesListModel(map["uuid" := Get(req.params, "uuid")], now, db), environment);
  }

  /** `{...req.body, created_by: req.auth.user || null}` */
  function ReportTypePostArgs(req: Request, auth: Props): Props
  {
    WithConn(req.body["created_by" := UserOrNull(auth)])
  }

  /** `postReportTypesController` */
  method PostReportTypesController(ex: Exchange, pool: Pool, req: Request, environment: Option<string>, now: Value, uuid: Value, db: Executor)
    modifies ex, pool
    ensures pool.open == old(pool.open) && ex.auth == old(ex.auth)
    ensures ex.outcome == WriteOutcome(Keyed("report_types"), InsertReportTypesModel(ReportTypePostArgs(req, ex.auth), now, uuid, db), environment)
  {
    WriteFlow(ex, pool, Keyed("report_types"), InsertReportTypesModel(ReportTypePostArgs(req, ex.auth), now, uuid, db), environment);
  }

  /** `putReportTypesController`: the body with the path's uuid, which overrides one in the body. */
  method PutReportTypesController(ex: Exchange, pool: Pool, req: Request, environment: Option<string>, db: Executor)
    modifies ex, pool
    ensures pool.open == old(pool.open) && ex.auth == old(ex.auth)
    ensures ex.outcome == WriteOutcome(Keyed("report_types"), ModifyReportTypesModel(WithConn(req.body["uuid" := Get(req.params, "uuid")]), db), environment)
  {
    WriteFlow(ex, pool, Keyed("report_types"), ModifyReportTypesModel(WithConn(req.body["uuid" := Get(req.params, "uuid")]), db), environment);
  }

  /** `{uuid, deleted_by: req.auth.user || null}` */
  function ReportTypeDeleteArgs(req: Request, auth: Props): Props
  {
    map["uuid" := Get(req.params, "uuid"), "deleted_by" := UserOrNull(auth)]
  }

  /** `softDeleteReportTypesController`: the answer is dropped and `next({})` called. */
  method SoftDeleteReportTypesController(ex: Exchange, pool: Pool, req: Request, environment: Option<string>, now: Value, db: Executor)
    modifies ex, pool
    ensures pool.open == old(pool.open) && ex.auth == old(ex.auth)
    ensures ex.outcome == WriteOutcome(Empty, SoftDeleteReportTypesModel(ReportTypeDeleteArgs(req, ex.auth), now, db), environment)
  {
    WriteFlow(ex, pool, Empty, SoftDeleteReportTypesModel(ReportTypeDeleteArgs(req, ex.auth), now, db), environment);
  }

  /**
   * The post hands the user over as `created_by`, but the insert binds
   * `:createdBy`: unless the body itself carries `createdBy`, the new
   * report type records no creator.
   */
  lemma ReportTypeCreatorLost(req: Request, auth: Props, now: Value, uuid: Value, env: Env, t: Tuple)
    requires "createdBy" !in req.body
    requires env.params == InsertParams(ReportTypePostArgs(req, auth), uuid, now)
    ensures var ins := InsertReportTypesQuery()[0].insert;
      ValueOf(ins, "createdBy").Some? && Eval(ValueOf(ins, "createdBy").value, env, t, ins.table) == Null
  {
    InsertReportTypeValues();
  }

  /**
   * The delete hands the user over as `deleted_by`, which the soft delete
   * does not read: it stamps the row with `now` and no deleting user.
   */
  lemma ReportTypeDeleterLost(req: Request, auth: Props, now: Value, env: Env, row: Props)
    requires env.params == DeleteParams(ReportTypeDeleteArgs(req, auth), now)
    ensures var u := SoftDeleteReportTypesQuery()[0].update;
      Touches(u, env, row) ==>
        && Get(ApplyUpdate(u, env, row), "deleted") == Sqlish(now)
        && Get(ApplyUpdate(u, env, row), "deletedBy") == Null
  {
    ReportTypeDeleteStamps(ReportTypeDeleteArgs(req, auth), now, env, row);
  }

  /** The put renames only the row the path's uuid names, and to the body's name: NULL when the body has none. */
  lemma ReportTypePutAddressesPath(req: Request, env: Env, row: Props)
    requires env.params == WithConn(req.body["uuid" := Get(req.params, "uuid")])
    ensures var u := UpdateReportTypesQuery(Obj(env.params))[0].update;
      && (Touches(u, env, row) <==> SqlEq(Get(row, "uuid"), Get(req.params, "uuid")) && IsNullValue(Get(row, "deleted")))
      && (Touches(u, env, row) ==> Get(ApplyUpdate(u, env, row), "name") == Sqlish(Get(req.body, "name")))
  {
    UpdateReportTypeEffect(Obj(env.params), env, row, "deleted");
    ModifyReportTypesPositional(env.params, env, row);
    assert Get(env.params, "name") == Get(req.body, "name");
  }
}
