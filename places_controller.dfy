/**
 * The place handlers: the list with its page block, the lookups by uuid,
 * address, name and coordinate, and the insert, modify and delete. Each
 * opens one connection and closes it again; `now`, the fresh uuid and the
 * driver are parameters.
 */
module PlacesController {
  import opened Js
  import opened Errors
  import opened Sql
  import opened ModelKit
  import opened Http
  import opened ControllerKit
  import opened PlaceRepository
  import opened PlacesModel

  /** `getPlaceListController`: list and count with the request's query. */
  method GetPlaceListController(ex: Exchange, pool: Pool, req: Request, environment: Option<string>, now: Value, db: Executor)
    modifies ex, pool
    ensures pool.open == old(pool.open) && ex.auth == old(ex.auth)
    ensures ex.outcome == ListOutcome("places", req.query, GetPlaceListModel(WithConn(req.query), now, db),
                                      CountPlaceListModel(WithConn(req.query), now, db), environment)
  {
    var rows := GetPlaceListModel(WithConn(req.query), now, db);
    var count := CountPlaceListModel(WithConn(req.query), now, db);
    ListFlow(ex, pool, "places", req.query, rows, count, environment);
  }

  /** `getPlaceByUuidController`: the list filtered by the path's uuid; 404 when empty. */
  method GetPlaceByUuidController(ex: Exchange, pool: Pool, req: Request, environment: Option<string>, now: Value, db: Executor)
    modifies ex, pool
    ensures pool.open == old(pool.open) && ex.auth == old(ex.auth)
    ensures ex.outcome == LookupOutcome(Keyed("places"), GetPlaceListModel(map["uuid" := Get(req.params, "uuid")], now, db), environment)
  {
    LookupFlow(ex, pool, Keyed("places"), GetPlaceListModel(map["uuid" := Get(req.params, "uuid")], now, db), environment);
  }

  /** `getPlaceByAddressController`: the list filtered by the path's address; 404 when empty. */
  method GetPlaceByAddressController(ex: Exchange, pool: Pool, req: Request, environment: Option<string>, now: Value, db: Executor)
    modifies ex, pool
    ensures pool.open == old(pool.open) && ex.auth == old(ex.auth)
    ensures ex.outcome == LookupOutcome(Keyed("places"), GetPlaceListModel(map["address" := Get(req.params, "address")], now, db), environment)
  {
    LookupFlow(ex, pool, Keyed("places"), GetPlaceListModel(map["address" := Get(req.params, "address")], now, db), environment);
  }

  /** `getPlaceByNameController`: the list filtered by the path's name; 404 when empty. */
  method GetPlaceByNameController(ex: Exchange, pool: Pool, req: Request, environment: Option<string>, now: Value, db: Executor)
    modifies ex, pool
    ensures pool.open == old(pool.open) && ex.auth == old(ex.auth)
    ensures ex.outcome == LookupOutcome(Keyed("places"), GetPlaceListModel(map["name" := Get(req.params, "name")], now, db), environment)
  {
    LookupFlow(ex, pool, Keyed("places"), GetPlaceListModel(map["name" := Get(req.params, "name")], now, db), environment);
  }

  /** `getPlaceByLatLongController`: the list filtered by the path's coordinate; 404 when empty. */
  method GetPlaceByLatLongController(ex: Exchange, pool: Pool, req: Request, environment: Option<string>, now: Value, db: Executor)
    modifies ex, pool
    ensures pool.open == old(pool.open) && ex.auth == old(ex.auth)
    ensures ex.outcome == LookupOutcome(Keyed("places"),
      GetPlaceListModel(map["latitude" := Get(req.params, "latitude"), "longitude" := Get(req.params, "longitude")], now, db), environment)
  {
    var position := map["latitude" := Get(req.params, "latitude"), "longitude" := Get(req.params, "longitude")];
    LookupFlow(ex, pool, Keyed("places"), GetPlaceListModel(position, now, db), environment);
  }

  /** `insertPlaceController`: the body is the new place. */
  method InsertPlaceController(ex: Exchange, pool: Pool, req: Request, environment: Option<string>, now: Value, uuid: Value, db: Executor)
    modifies ex, pool
    ensures pool.open == old(pool.open) && ex.auth == old(ex.auth)
    ensures ex.outcome == WriteOutcome(Keyed("places"), InsertPlaceModel(WithConn(req.body), now, uuid, db), environment)
  {
    WriteFlow(ex, pool, Keyed("places"), InsertPlaceModel(WithConn(req.body), now, uuid, db), environment);
  }

  /** `modifyPlaceController`: path parameters merged with the body, the body winning. */
  method ModifyPlaceController(ex: Exchange, pool: Pool, req: Request, environment: Option<string>, db: Executor)
    modifies ex, pool
    ensures pool.open == old(pool.open) && ex.auth == old(ex.auth)
    ensures ex.outcome == WriteOutcome(Keyed("places"), ModifyPlaceModel(WithConn(req.params + req.body), db), environment)
  {
    WriteFlow(ex, pool, Keyed("places"), ModifyPlaceModel(WithConn(req.params + req.body), db), environment);
  }

  /** `deletePlaceController`: path parameters merged with the body; the driver's answer is passed on. */
  method DeletePlaceController(ex: Exchange, pool: Pool, req: Request, environment: Option<string>, now: Value, db: Executor)
    modifies ex, pool
    ensures pool.open == old(pool.open) && ex.auth == old(ex.auth)
    ensures ex.outcome == WriteOutcome(Keyed("places"), DeletePlaceModel(WithConn(req.params + req.body), now, db), environment)
  {
    WriteFlow(ex, pool, Keyed("places"), DeletePlaceModel(WithConn(req.params + req.body), now, db), environment);
  }

  /** The lookup by uuid selects the joined, undeleted places created by `now` whose uuid is the one given. */
  lemma PlaceUuidLookupMeaning(u: Value, now: Value, env: Env, t: Tuple)
    requires env.params == WithNow(map["uuid" := u], now) && Truthy(u)
    ensures Admits(GetPlaceListQuery(env.params), env, t) <==>
            && SqlEq(Get(RowOf(t, "p"), "fk_coordinate"), Get(RowOf(t, "c"), "id"))
            && IsNullValue(Get(RowOf(t, "p"), "deleted"))
            && Before(Get(RowOf(t, "p"), "created"), now)
            && SqlEq(Get(RowOf(t, "p"), "uuid"), u)
  {
    PlaceListMeaning(env, t);
  }

  /** The lookups by address and by name match the text given as a substring of that column. */
  lemma PlaceTextLookupMeaning(key: string, text: Value, now: Value, env: Env, t: Tuple)
    requires key == "address" || key == "name"
    requires env.params == WithNow(map[key := text], now) && Truthy(text)
    ensures Admits(GetPlaceListQuery(env.params), env, t) <==>
            && SqlEq(Get(RowOf(t, "p"), "fk_coordinate"), Get(RowOf(t, "c"), "id"))
            && IsNullValue(Get(RowOf(t, "p"), "deleted"))
            && Before(Get(RowOf(t, "p"), "created"), now)
            && Substring(Get(RowOf(t, "p"), key), text)
  {
    PlaceListMeaning(env, t);
  }

  /**
   * Whenever its statement succeeds, the insert handler answers 500 and
   * never passes a place on; so does the modify handler whenever its
   * statement succeeds.
   */
  lemma PlaceWriteHandlersFail(req: Request, environment: Option<string>, now: Value, uuid: Value, db: Executor)
    requires var p := InsertParams(WithConn(req.body), uuid, now);
      db(InsertPlaceQuery(p), p).Ok? ==> Answers(InsertPlaceQuery(p), db(InsertPlaceQuery(p), p).value)
    requires var q := WithConn(req.params + req.body);
      db(UpdatePlaceQuery(q), q).Ok? ==> Answers(UpdatePlaceQuery(q), db(UpdatePlaceQuery(q), q).value)
    ensures var o := WriteOutcome(Keyed("places"), InsertPlaceModel(WithConn(req.body), now, uuid, db), environment);
      var p := InsertParams(WithConn(req.body), uuid, now);
      o.Sent? && (db(InsertPlaceQuery(p), p).Ok? ==> o.status == 500)
    ensures var q := WithConn(req.params + req.body);
      var o := WriteOutcome(Keyed("places"), ModifyPlaceModel(q, db), environment);
      o.Sent? && (db(UpdatePlaceQuery(q), q).Ok? ==> o.status == 500)
  {
    InsertPlaceRejects(WithConn(req.body), now, uuid, db);
    ModifyPlaceRejects(WithConn(req.params + req.body), db);
  }
}
