/**
 * The favorite handlers: the list, the lookup by uuid, the insert, the
 * restore, the modify and the soft delete.
 */
module FavoritesController {
  import opened Js
  import opened Errors
  import opened Sql
  import opened ModelKit
  import opened Http
  import opened ControllerKit
  import opened FavoriteRepository
  import opened FavoritesModel

  /**
   * `req.query.uuidList && req.query.uuidList.split(',')`: a falsy value is
   * kept as it is, a string is cut at its commas into pieces that join back
   * to it, and any other value has no `split` to call.
   */
  function UuidListOf(query: Props): (r: Result<Value, Error>)
    ensures !Truthy(Get(query, "uuidList")) ==> r == Ok(Get(query, "uuidList"))
    ensures r.Err? <==> Truthy(Get(query, "uuidList")) && !Get(query, "uuidList").Str?
    ensures r.Err? ==> StatusAndText(r.error.code).0 == 500
    ensures r.Ok? && Truthy(Get(query, "uuidList")) ==>
      && r.value.Arr? && |r.value.items| >= 1
      && (forall i | 0 <= i < |r.value.items| :: r.value.items[i].Str? && ',' !in r.value.items[i].s)
      && Js.Join(Texts(r.value.items), ',') == query["uuidList"].s
  {
    var v := Get(query, "uuidList");
    if !Truthy(v) then Ok(v)
    else if v.Str? then
      var pieces := Split(v.s, ',');
      var items := seq(|pieces|, i requires 0 <= i < |pieces| => Str(pieces[i]));
      assert Texts(items) == pieces;
      JoinSplit(v.s, ',');
      Ok(Arr(items))
    else Err(TypeError("uuidList.split is not a function"))
  }

  /** `getFavoritesController`: the list also gets the path parameters, the count does not. */
  method GetFavoritesController(ex: Exchange, pool: Pool, req: Request, environment: Option<string>, now: Value, db: Executor)
    modifies ex, pool
    ensures ex.auth == old(ex.auth)
    ensures UuidListOf(req.query).Err? ==>
      pool.open == old(pool.open) + 1 && ex.outcome == Thrown(UuidListOf(req.query).error)
    ensures UuidListOf(req.query).Ok? ==>
      var l := UuidListOf(req.query).value;
      && pool.open == old(pool.open)
      && ex.outcome == ListOutcome("favorites", req.query,
                                   GetFavoritesModel(WithConn((req.query + req.params)["uuidList" := l]), now, db),
                                   CountFavoritesModel(WithConn(req.query["uuidList" := l]), now, db), environment)
  {
    var list := UuidListOf(req.query);
    if list.Err? {
      // `mysql.start` has already run when `split` throws
      pool.Start();
      ex.Throw(list.error);
    } else {
      var rows := GetFavoritesModel(WithConn((req.query + req.params)["uuidList" := list.value]), now, db);
      var count := CountFavoritesModel(WithConn(req.query["uuidList" := list.value]), now, db);
      ListFlow(ex, pool, "favorites", req.query, rows, count, environment);
    }
  }

  /** `getFavoritesByUuidController`: the list filtered by the path's uuid; 404 when empty. */
  method GetFavoritesByUuidController(ex: Exchange, pool: Pool, req: Request, environment: Option<string>, now: Value, db: Executor)
    modifies ex, pool
    ensures pool.open == old(pool.open) && ex.auth == old(ex.auth)
    ensures ex.outcome == LookupOutcome(Keyed("favorites"), GetFavoritesModel(map["uuid" := Get(req.params, "uuid")], now, db), environment)
  {
    LookupFlow(ex, pool, Keyed("favorites"), GetFavoritesModel(map["uuid" := Get(req.params, "uuid")], now, db), environment);
  }

  /** `postFavoritesController`: body, then path parameters, then the creator; the rows are passed on bare. */
  method PostFavoritesController(ex: Exchange, pool: Pool, req: Request, environment: Option<string>, now: Value, uuid: Value, db: Executor)
    modifies ex, pool
    ensures pool.open == old(pool.open) && ex.auth == old(ex.auth)
    ensures ex.outcome == WriteOutcome(Bare, InsertFavoritesModel(WithConn((req.body + req.params)["createdBy" := UserOrNull(ex.auth)]), now, uuid, db), environment)
  {
    WriteFlow(ex, pool, Bare, InsertFavoritesModel(WithConn((req.body + req.params)["createdBy" := UserOrNull(ex.auth)]), now, uuid, db), environment);
  }

  /** `{...req.params, user_uuid: req.auth.user || null, deleted: false}` */
  function RestoreArgs(req: Request, auth: Props): Props
  {
    WithConn(req.params["user_uuid" := UserOrNull(auth)]["deleted" := Bool(false)])
  }

  /** `restoreFavoritesController` */
  method RestoreFavoritesController(ex: Exchange, pool: Pool, req: Request, environment: Option<string>, db: Executor)
    modifies ex, pool
    ensures pool.open == old(pool.open) && ex.auth == old(ex.auth)
    ensures ex.outcome == WriteOutcome(Bare, ModifyFavoritesModel(RestoreArgs(req, ex.auth), db), environment)
  {
    WriteFlow(ex, pool, Bare, ModifyFavoritesModel(RestoreArgs(req, ex.auth), db), environment);
  }

  /** `putFavoritesController`: body merged with the path parameters, which win; 404 when the answer is empty. */
  method PutFavoritesController(ex: Exchange, pool: Pool, req: Request, environment: Option<string>, db: Executor)
    modifies ex, pool
    ensures pool.open == old(pool.open) && ex.auth == old(ex.auth)
    ensures ex.outcome == LookupOutcome(Bare, ModifyFavoritesModel(WithConn(req.body + req.params), db), environment)
  {
    LookupFlow(ex, pool, Bare, ModifyFavoritesModel(WithConn(req.body + req.params), db), environment);
  }

  /** `{...req.params, deleted: req.body.deleted, deletedby: req.auth.user || null}` */
  function FavoriteDeleteArgs(req: Request, auth: Props): Props
  {
    WithConn(req.params["deleted" := Get(req.body, "deleted")]["deletedby" := UserOrNull(auth)])
  }

  /** `softDeleteFavoritesController`: the answer is dropped and `next({})` called. */
  method SoftDeleteFavoritesController(ex: Exchange, pool: Pool, req: Request, environment: Option<string>, now: Value, db: Executor)
    modifies ex, pool
    ensures pool.open == old(pool.open) && ex.auth == old(ex.auth)
    ensures ex.outcome == WriteOutcome(Empty, SoftDeleteFavoritesModel(FavoriteDeleteArgs(req, ex.auth), now, db), environment)
  {
    WriteFlow(ex, pool, Empty, SoftDeleteFavoritesModel(FavoriteDeleteArgs(req, ex.auth), now, db), environment);
  }

  /**
   * The restore cannot restore: its update only reaches a favorite that is
   * not deleted, and leaves `deleted` as it was.
   */
  lemma RestoreNeverUndeletes(req: Request, auth: Props, env: Env, row: Props)
    requires env.params == RestoreArgs(req, auth)
    ensures var u := ModifyFavoritesQuery(env.params)[0].update;
      Touches(u, env, row) ==>
        && IsNullValue(Get(row, "deleted"))
        && Get(ApplyUpdate(u, env, row), "deleted") == Get(row, "deleted")
  {
    ModifyFavoriteEffect(env, row, "deleted");
  }

  /**
   * The soft delete hands the user over as `deletedby`, which the query
   * does not read: unless the path itself carries `deletedBy`, the row
   * records no deleting user; the time is the body's, or `now`.
   */
  lemma FavoriteDeleterLost(req: Request, auth: Props, now: Value, env: Env, row: Props)
    requires "deletedBy" !in req.params
    requires env.params == FavoriteDeleteParams(FavoriteDeleteArgs(req, auth), now)
    ensures var u := SoftDeleteFavoritesQuery(Get(env.params, "place_uuid"))[0].update;
      Touches(u, env, row) ==>
        && Get(ApplyUpdate(u, env, row), "deletedBy") == Null
        && Get(ApplyUpdate(u, env, row), "deleted") == Sqlish(DeletionTime(Get(req.body, "deleted"), now))
  {
    FavoriteDeleteStamps(FavoriteDeleteArgs(req, auth), now, env, row);
  }
}
