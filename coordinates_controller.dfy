/**
 * The coordinate handlers: the list, the lookup by uuid, the insert, the
 * modify and the soft delete.
 */
module CoordinatesController {
  import opened Js
  import opened Errors
  import opened Sql
  import opened ModelKit
  import opened Http
  import opened ControllerKit
  import opened CoordinateRepository
  import opened CoordinatesModel

  /** `getCoordinatesListController`: list and count with the request's query. */
  method GetCoordinatesListController(ex: Exchange, pool: Pool, req: Request, environment: Option<string>, now: Value, db: Executor)
    modifies ex, pool
    ensures pool.open == old(pool.open) && ex.auth == old(ex.auth)
    ensures ex.outcome == ListOutcome("coordinates", req.query, GetCoordinatesListModel(WithConn(req.query), now, db),
                                      CountCoordinatesListModel(WithConn(req.query), now, db), environment)
  {
    var rows := GetCoordinatesListModel(WithConn(req.query), now, db);
    var count := CountCoordinatesListModel(WithConn(req.query), now, db);
    ListFlow(ex, pool, "coordinates", req.query, rows, count, environment);
  }

  /** The arguments of the lookup: the path's uuid under the key `uuid_coordinates`. */
  function CoordinateLookupArgs(req: Request): Props
  {
    map["uuid_coordinates" := Get(req.params, "uuid")]
  }

  /** `getCoordinatesByUuidController`: 404 when the list is empty. */
  method GetCoordinatesByUuidController(ex: Exchange, pool: Pool, req: Request, environment: Option<string>, now: Value, db: Executor)
    modifies ex, pool
    ensures pool.open == old(pool.open) && ex.auth == old(ex.auth)
    ensures ex.outcome == LookupOutcome(Keyed("coordinates"), GetCoordinatesListModel(CoordinateLookupArgs(req), now, db), environment)
  {
    LookupFlow(ex, pool, Keyed("coordinates"), GetCoordinatesListModel(CoordinateLookupArgs(req), now, db), environment);
  }

  /** `postCoordinatesController`: the body is the new coordinate. */
  method PostCoordinatesController(ex: Exchange, pool: Pool, req: Request, environment: Option<string>, now: Value, uuid: Value, db: Executor)
    modifies ex, pool
    ensures pool.open == old(pool.open) && ex.auth == old(ex.auth)
    ensures ex.outcome == WriteOutcome(Keyed("coordinates"), InsertCoordinatesModel(WithConn(req.body), now, uuid, db), environment)
  {
    WriteFlow(ex, pool, Keyed("coordinates"), InsertCoordinatesModel(WithConn(req.body), now, uuid, db), environment);
  }

  /** `{...req.body, uuid: req.params.uuid}`: the path's uuid overrides one in the body. */
  function CoordinatePutArgs(req: Request): Props
  {
    WithConn(req.body["uuid" := Get(req.params, "uuid")])
  }

  /** `putCoordinatesController` */
  method PutCoordinatesController(ex: Exchange, pool: Pool, req: Request, environment: Option<string>, db: Executor)
    modifies ex, pool
    ensures pool.open == old(pool.open) && ex.auth == old(ex.auth)
    ensures ex.outcome == WriteOutcome(Keyed("coordinates"), ModifyCoordinatesModel(CoordinatePutArgs(req), db), environment)
  {
    WriteFlow(ex, pool, Keyed("coordinates"), ModifyCoordinatesModel(CoordinatePutArgs(req), db), environment);
  }

  /** `deleteCoordinatesController`: only the path's uuid is passed; 404 when the answer is empty. */
  method DeleteCoordinatesController(ex: Exchange, pool: Pool, req: Request, environment: Option<string>, now: Value, db: Executor)
    modifies ex, pool
    ensures pool.open == old(pool.open) && ex.auth == old(ex.auth)
    ensures ex.outcome == LookupOutcome(Keyed("coordinates"), SoftDeleteCoordinatesModel(map["uuid" := Get(req.params, "uuid")], now, db), environment)
  {
    LookupFlow(ex, pool, Keyed("coordinates"), SoftDeleteCoordinatesModel(map["uuid" := Get(req.params, "uuid")], now, db), environment);
  }

  /**
   * `uuid_coordinates` is not one of the list's filters, so the lookup by
   * uuid admits every coordinate visible at `now`, whatever the path says.
   */
  lemma CoordinateLookupIgnoresUuid(req: Request, now: Value, env: Env, t: Tuple)
    requires env.params == WithNow(CoordinateLookupArgs(req), now)
    ensures Admits(GetCoordinatesListQuery(env.params), env, t) <==> Visible(RowOf(t, "c"), now)
  {
    CoordinateListMeaning(env, t);
  }

  /**
   * The put changes only the row the path's uuid names, while it is not
   * deleted, whatever uuid the body carries; it writes the latitude from
   * the body and leaves the longitude as it was.
   */
  lemma CoordinatePutAddressesPath(req: Request, env: Env, row: Props)
    requires env.params == CoordinatePutArgs(req)
    ensures var u := UpdateCoordinatesQuery(Obj(env.params), Undefined)[0].update;
      && (Touches(u, env, row) <==> SqlEq(Get(row, "uuid"), Get(req.params, "uuid")) && IsNullValue(Get(row, "deleted")))
      && (Touches(u, env, row) ==>
            && Get(ApplyUpdate(u, env, row), "latitude") == Sqlish(Get(req.body, "latitude"))
            && Get(ApplyUpdate(u, env, row), "longitude") == Get(row, "longitude"))
  {
    UpdateCoordinateEffect(Obj(env.params), Undefined, env, row, "deleted");
    ModifyCoordinatesPositional(env.params, env, row);
    assert Get(env.params, "latitude") == Get(req.body, "latitude");
  }

  /**
   * The delete handler stamps the row with `now` and no deleting user; a
   * result packet is never the empty array, so it never answers 404.
   */
  lemma CoordinateDeleteHandler(req: Request, now: Value, env: Env, row: Props, environment: Option<string>, db: Executor)
    requires env.params == DeleteParams(map["uuid" := Get(req.params, "uuid")], now)
    requires var p := DeleteParams(map["uuid" := Get(req.params, "uuid")], now);
      db(SoftDeleteCoordinatesQuery(), p).Ok? ==> Answers(SoftDeleteCoordinatesQuery(), db(SoftDeleteCoordinatesQuery(), p).value)
    ensures var u := SoftDeleteCoordinatesQuery()[0].update;
      Touches(u, env, row) ==>
        && Get(ApplyUpdate(u, env, row), "deleted") == Sqlish(now)
        && Get(ApplyUpdate(u, env, row), "deletedby") == Null
    ensures !LookupOutcome(Keyed("coordinates"), SoftDeleteCoordinatesModel(map["uuid" := Get(req.params, "uuid")], now, db), environment).Replied?
  {
    CoordinateDeleteStamps(map["uuid" := Get(req.params, "uuid")], now, env, row);
  }
}
