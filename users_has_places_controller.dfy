/**
 * The handlers of the user-place links: the list, the lookups by the
 * link's, the user's and the place's uuid, the insert, the modify and the
 * three soft deletes.
 */
module UsersHasPlacesController {
  import opened Js
  import opened Errors
  import opened Sql
  import opened ModelKit
  import opened Http
  import opened ControllerKit
  import opened UsersHasPlacesRepository
  import opened UsersHasPlacesModel

  /** `getUserHasPlacesListController`: list and count with the request's query. */
  method GetUserHasPlacesListController(ex: Exchange, pool: Pool, req: Request, environment: Option<string>, now: Value, db: Executor)
    modifies ex, pool
    ensures pool.open == old(pool.open) && ex.auth == old(ex.auth)
    ensures ex.outcome == ListOutcome("usersHasPlaces", req.query, GetUserHasPlacesListModel(WithConn(req.query), now, db),
                                      CountUserHasPlacesListModel(WithConn(req.query), now, db), environment)
  {
    var rows := GetUserHasPlacesListModel(WithConn(req.query), now, db);
    var count := CountUserHasPlacesListModel(WithConn(req.query), now, db);
    ListFlow(ex, pool, "usersHasPlaces", req.query, rows, count, environment);
  }

  /** The keys under which the three lookups and the three deletes pass the path's uuid. */
  predicate LinkPathKey(key: string)
  {
    key == "uuid_user_has_places" || key == "uuid_user" || key == "uuid_place"
  }

  /** `getUserHasPlacesByUuidController`, `...ByUserUuidController` and `...ByPlaceUuidController`: 404 when the list is empty. */
  method GetUserHasPlacesByController(ex: Exchange, pool: Pool, key: string, req: Request, environment: Option<string>, now: Value, db: Executor)
    requires LinkPathKey(key)
    modifies ex, pool
    ensures pool.open == old(pool.open) && ex.auth == old(ex.auth)
    ensures ex.outcome == LookupOutcome(Keyed("usersHasPlaces"), GetUserHasPlacesListModel(map[key := Get(req.params, "uuid")], now, db), environment)
  {
    LookupFlow(ex, pool, Keyed("usersHasPlaces"), GetUserHasPlacesListModel(map[key := Get(req.params, "uuid")], now, db), environment);
  }

  /** `postUserHasPlacesController`: the body is the new link. */
  method PostUserHasPlacesController(ex: Exchange, pool: Pool, req: Request, environment: Option<string>, now: Value, uuid: Value, db: Executor)
    modifies ex, pool
    ensures pool.open == old(pool.open) && ex.auth == old(ex.auth)
    ensures ex.outcome == WriteOutcome(Keyed("usersHasPlaces"), InsertUserHasPlacesModel(WithConn(req.body), now, uuid, db), environment)
  {
    WriteFlow(ex, pool, Keyed("usersHasPlaces"), InsertUserHasPlacesModel(WithConn(req.body), now, uuid, db), environment);
  }

  /**
   * `putUserHasPlacesController`: the model throws while the handler is
   * still running, before any `.then`, `.catch` or `.finally` is attached,
   * so the connection just opened is never closed and the exception
   * escapes the handler.
   */
  method PutUserHasPlacesController(ex: Exchange, pool: Pool, req: Request, now: Value)
    modifies ex, pool
    ensures pool.open == old(pool.open) + 1 && ex.auth == old(ex.auth)
    ensures ex.outcome == Thrown(ModifyUserHasPlacesModel(WithConn(req.body), now))
    ensures StatusAndText(ex.outcome.error.code).0 == 500
  {
    pool.Start();
    ex.Throw(ModifyUserHasPlacesModel(WithConn(req.body), now));
  }

  /** `{[key]: req.params.uuid, deleted_by: req.auth.user || null}` */
  function LinkDeleteArgs(key: string, req: Request, auth: Props): Props
  {
    map[key := Get(req.params, "uuid"), "deleted_by" := UserOrNull(auth)]
  }

  /** `deleteUserHasPlacesController`, `...ByUserUuidController` and `...ByPlaceUuidController`: the answer is dropped and `next({})` called. */
  method DeleteUserHasPlacesByController(ex: Exchange, pool: Pool, key: string, req: Request, environment: Option<string>, now: Value, db: Executor)
    requires LinkPathKey(key)
    modifies ex, pool
    ensures pool.open == old(pool.open) && ex.auth == old(ex.auth)
    ensures ex.outcome == WriteOutcome(Empty, SoftDeleteUserHasPlacesModel(LinkDeleteArgs(key, req, ex.auth), now, db), environment)
  {
    WriteFlow(ex, pool, Empty, SoftDeleteUserHasPlacesModel(LinkDeleteArgs(key, req, ex.auth), now, db), environment);
  }

  /**
   * None of the three path keys is one of the list's filters: every lookup
   * admits each visible link of a live user, whatever the path says.
   */
  lemma LinkLookupsIgnorePath(key: string, v: Value, now: Value, env: Env, t: Tuple)
    requires LinkPathKey(key)
    requires env.params == WithNow(map[key := v], now)
    ensures Admits(GetUserHasPlacesListQuery(env.params), env, t) <==>
            && SqlEq(Get(RowOf(t, "up"), "fk_user"), Get(RowOf(t, "u"), "id"))
            && SqlEq(Get(RowOf(t, "up"), "fk_place"), Get(RowOf(t, "p"), "id"))
            && Visible(RowOf(t, "up"), now)
            && IsNullValue(Get(RowOf(t, "u"), "deleted"))
  {
    LinkListMeaning(env, t);
  }

  /** None of the three delete handlers passes a `uuid`, so none of them deletes a link. */
  lemma LinkDeletesTouchNothing(key: string, req: Request, auth: Props, now: Value, env: Env, row: Props)
    requires LinkPathKey(key)
    requires env.params == DeleteParams(LinkDeleteArgs(key, req, auth), now)
    ensures !Touches(SoftDeleteUserHasPlacesQuery()[0].update, env, row)
  {
    LinkDeleteStamps(LinkDeleteArgs(key, req, auth), now, env, row);
  }

  /** Whenever the insert succeeds, the post handler answers 500 and never passes the link on. */
  lemma PostLinkHandlerFails(req: Request, environment: Option<string>, now: Value, uuid: Value, db: Executor)
    requires var p := InsertParams(WithConn(req.body), uuid, now);
      db(InsertUserHasPlacesQuery(p), p).Ok? ==> Answers(InsertUserHasPlacesQuery(p), db(InsertUserHasPlacesQuery(p), p).value)
    ensures var o := WriteOutcome(Keyed("usersHasPlaces"), InsertUserHasPlacesModel(WithConn(req.body), now, uuid, db), environment);
      var p := InsertParams(WithConn(req.body), uuid, now);
      o.Sent? && (db(InsertUserHasPlacesQuery(p), p).Ok? ==> o.status == 500)
  {
    InsertUserHasPlacesRejects(WithConn(req.body), now, uuid, db);
  }

  /**
   * The count query's rows carry no `count` field, so when the list and a
   * non-empty count answer succeed the page block reports `undefined`
   * elements and, without a `page` in the query, page 0.
   */
  lemma LinkListPage(req: Request, environment: Option<string>, now: Value, db: Executor)
    requires GetUserHasPlacesListModel(WithConn(req.query), now, db).Ok?
    requires var p := WithNow(WithConn(req.query), now);
      var answer := db([SelectStmt(CountUserHasPlacesListQuery(p))], p);
      && answer.Ok? && IsRows(answer.value) && answer.value.items != []
      && forall i | 0 <= i < |answer.value.items| :: "count" !in answer.value.items[i].fields
    ensures var o := ListOutcome("usersHasPlaces", req.query, GetUserHasPlacesListModel(WithConn(req.query), now, db),
                                 CountUserHasPlacesListModel(WithConn(req.query), now, db), environment);
      && o.Next?
      && Prop(o.arg.value, "_page") == Some(PageInfo(Undefined, req.query))
      && PageInfo(Undefined, req.query).fields["page"] == (if Truthy(Get(req.query, "page")) then req.query["page"] else Num(0.0))
  {
    LinkCountIsUndefined(WithConn(req.query), now, db);
  }
}
