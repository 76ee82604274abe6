/**
 * The role handlers: the list with its parsed pagination, the lookup by
 * uuid, the insert, the modify and the soft delete. The role model is not
 * part of this model: each handler takes the model operation it calls as a
 * parameter, the connection left implicit.
 */
module RolesController {
  import opened Js
  import opened Errors
  import opened Http
  import opened ControllerKit

  /** A role model operation: its arguments, without `conn`, to what its promise settles with. */
  type RoleModel = Props -> Result<Value, Error>

  /** `parseInt(v, 10) || fallback`: NaN and 0 fall back; any other integer, negative ones included, is kept. */
  function ParsedOr(v: Value, fallback: int): (r: Value)
    ensures ParseIntValue(v).Some? && ParseIntValue(v).value != 0 ==> r == Num(ParseIntValue(v).value as real)
    ensures ParseIntValue(v).None? || ParseIntValue(v).value == 0 ==> r == Num(fallback as real)
  {
    Or(IntValue(ParseIntValue(v)), Num(fallback as real))
  }

  /** `{...req.query, limit, page}` with `limit = parseInt(req.query.limit, 10) || 100` and `page = parseInt(req.query.page, 10) || 1`. */
  function RoleQueryParams(query: Props): (p: Props)
    ensures p.Keys == query.Keys + {"limit", "page"}
    ensures p["limit"] == ParsedOr(Get(query, "limit"), 100) && p["page"] == ParsedOr(Get(query, "page"), 1)
    ensures forall k | k in query && k !in {"limit", "page"} :: p[k] == query[k]
  {
    query["limit" := ParsedOr(Get(query, "limit"), 100)]["page" := ParsedOr(Get(query, "page"), 1)]
  }

  /** `getRoleController`: list and count with the parsed pagination; the page block reports the raw query. */
  method GetRoleController(ex: Exchange, pool: Pool, req: Request, environment: Option<string>, getRole: RoleModel, countRole: RoleModel)
    modifies ex, pool
    ensures pool.open == old(pool.open) && ex.auth == old(ex.auth)
    ensures ex.outcome == ListOutcome("roles", req.query, getRole(WithConn(RoleQueryParams(req.query))),
                                      countRole(WithConn(RoleQueryParams(req.query))), environment)
  {
    var queryParams := RoleQueryParams(req.query);
    ListFlow(ex, pool, "roles", req.query, getRole(WithConn(queryParams)), countRole(WithConn(queryParams)), environment);
  }

  /** `getRoleInfoController`: the role the path's uuid names; 404 when none. */
  method GetRoleInfoController(ex: Exchange, pool: Pool, req: Request, environment: Option<string>, getRole: RoleModel)
    modifies ex, pool
    ensures pool.open == old(pool.open) && ex.auth == old(ex.auth)
    ensures ex.outcome == LookupOutcome(Keyed("roles"), getRole(map["uuid" := Get(req.params, "uuid")]), environment)
  {
    LookupFlow(ex, pool, Keyed("roles"), getRole(map["uuid" := Get(req.params, "uuid")]), environment);
  }

  /** `postRoleController`: the body with the creator. */
  method PostRoleController(ex: Exchange, pool: Pool, req: Request, environment: Option<string>, insertRole: RoleModel)
    modifies ex, pool
    ensures pool.open == old(pool.open) && ex.auth == old(ex.auth)
    ensures ex.outcome == WriteOutcome(Keyed("roles"), insertRole(WithConn(req.body["createdBy" := UserOrNull(ex.auth)])), environment)
  {
    WriteFlow(ex, pool, Keyed("roles"), insertRole(WithConn(req.body["createdBy" := UserOrNull(ex.auth)])), environment);
  }

  /** `putRoleController`: the body with the path's uuid; the result goes out with the message `Role modified`. */
  method PutRoleController(ex: Exchange, pool: Pool, req: Request, environment: Option<string>, modifyRole: RoleModel)
    modifies ex, pool
    ensures pool.open == old(pool.open) && ex.auth == old(ex.auth)
    ensures ex.outcome == WriteOutcome(Messaged("Role modified", "roles"), modifyRole(WithConn(req.body["uuid" := Get(req.params, "uuid")])), environment)
  {
    WriteFlow(ex, pool, Messaged("Role modified", "roles"), modifyRole(WithConn(req.body["uuid" := Get(req.params, "uuid")])), environment);
  }

  /** `deleteRoleController`: the path's uuid and the deleting user; the answer is dropped and `next({})` called. */
  method DeleteRoleController(ex: Exchange, pool: Pool, req: Request, environment: Option<string>, softDeleteRole: RoleModel)
    modifies ex, pool
    ensures pool.open == old(pool.open) && ex.auth == old(ex.auth)
    ensures ex.outcome == WriteOutcome(Empty, softDeleteRole(map["uuid" := Get(req.params, "uuid"), "deletedby" := UserOrNull(ex.auth)]), environment)
  {
    WriteFlow(ex, pool, Empty, softDeleteRole(map["uuid" := Get(req.params, "uuid"), "deletedby" := UserOrNull(ex.auth)]), environment);
  }

  /**
   * The parsing is no sanitising: `limit=-5` reaches the model as -5, and
   * `limit=ten` reaches it as 100 while the page block still reports
   * `"ten"`.
   */
  lemma RolePaginationUnsanitised()
    ensures RoleQueryParams(map["limit" := Str("-5")])["limit"] == Num(-5.0)
    ensures RoleQueryParams(map["limit" := Str("ten")])["limit"] == Num(100.0)
    ensures PageInfo(Num(3.0), map["limit" := Str("ten")]).fields["limit"] == Str("ten")
  {
    assert !IsSpace('-') && !IsSpace('t');
    assert TrimStart("-5") == "-5" && TrimStart("ten") == "ten";
    DigitPrefixOf("5", "");
    assert "-5"[1..] == "5" + "";
    assert DigitsValue("5") == 5;
    assert DigitPrefix("ten") == "";
  }
}
