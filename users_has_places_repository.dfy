/** The query builders of the user-place links: list, count, insert, modify and soft delete. */
module UsersHasPlacesRepository {
  import opened Js
  import opened Sql
  import opened Errors

  /** `(SELECT id FROM <table> WHERE uuid = :<param>)` */
  function IdByUuid(table: string, param: string): Expr
  {
    SubSelect(table, [KeyMatch("uuid", ByParam(param))])
  }

  /** The filters of `_userHasPlacesSelectQuery`. */
  function LinkFilters(f: Props): seq<(Value, Cond)>
  {
    [(Get(f, "uuid"), Cmp(Eq, Qualified("up", "uuid"), Param("uuid"))),
     (Get(f, "uuidUser"), Cmp(Eq, Qualified("up", "fk_user"), IdByUuid("mydb.users", "uuidUser"))),
     (Get(f, "uuidPlace"), Cmp(Eq, Qualified("up", "fk_place"), IdByUuid("mydb.places", "uuidPlace")))]
  }

  /** The fixed select list: the link's columns, its user's name and uuid, its place's name and uuid. */
  function LinkItems(): seq<SelectItem>
  {
    Items([(Field(Column(Some("up"), "uuid")), None), (Field(Column(Some("up"), "fk_user")), None),
           (Field(Column(Some("up"), "fk_place")), None), (Field(Column(Some("up"), "created")), None),
           (Field(Column(Some("up"), "createdby")), None),
           (Field(Column(Some("u"), "username")), Some("user_username")), (Field(Column(Some("u"), "uuid")), Some("user_uuid")),
           (Field(Column(Some("p"), "name")), Some("place_name")), (Field(Column(Some("p"), "uuid")), Some("place_uuid"))])
  }

  /**
   * The WHERE list: the link's window, the user not deleted, the link's
   * window a second time, `true`, then the filters.
   */
  function LinkWhere(f: Props): seq<Cond>
  {
    Window(Some("up"), Param("now")) +
    ([IsNull(Qualified("u", "deleted"))] + (Window(Some("up"), Param("now")) + [Always] + Present(LinkFilters(f))))
  }

  /** `_userHasPlacesSelectQuery(_pagination)({ count })(filters)`: the select list is fixed, so `count` has no effect. */
  function LinkSelect(page: Option<Page>, f: Props): Select
  {
    Select(LinkItems(), Source("mydb.users_has_places", "up", true),
           [Join(Inner, "mydb.users", "u", [Cmp(Eq, Qualified("up", "fk_user"), Qualified("u", "id"))]),
            Join(Inner, "mydb.places", "p", [Cmp(Eq, Qualified("up", "fk_place"), Qualified("p", "id"))])],
           LinkWhere(f), page)
  }

  /** `getUserHasPlacesListQuery({ limit, page, ...rest })` */
  function GetUserHasPlacesListQuery(p: Props): Select
  {
    LinkSelect(Some(PageOf(p)), p - {"limit", "page"})
  }

  /** `countUserHasPlacesListQuery(rest)` */
  function CountUserHasPlacesListQuery(p: Props): Select
  {
    LinkSelect(None, p)
  }

  /** The filters a link's row matches; the user and the place are found by their uuids. */
  predicate LinkMatches(p: Props, ids: Lookup, r: Props)
  {
    (Truthy(Get(p, "uuid")) ==> SqlEq(Get(r, "uuid"), Get(p, "uuid"))) &&
    (Truthy(Get(p, "uuidUser")) ==> SqlEq(Get(r, "fk_user"), ids("mydb.users", [("uuid", Get(p, "uuidUser"))]))) &&
    (Truthy(Get(p, "uuidPlace")) ==> SqlEq(Get(r, "fk_place"), ids("mydb.places", [("uuid", Get(p, "uuidPlace"))])))
  }

  lemma LinkFiltersMean(env: Env, t: Tuple)
    ensures AllHold(Present(LinkFilters(env.params)), env, t, "up") <==> LinkMatches(env.params, env.ids, RowOf(t, "up"))
  {
    var p := env.params;
    var opts := LinkFilters(p);
    AllHoldPresent(opts, env, t, "up");
    assert KeyValues([KeyMatch("uuid", ByParam("uuidUser"))], p) == [("uuid", Sqlish(Get(p, "uuidUser")))];
    assert KeyValues([KeyMatch("uuid", ByParam("uuidPlace"))], p) == [("uuid", Sqlish(Get(p, "uuidPlace")))];
    assert (forall i | 0 <= i < |opts| :: Truthy(opts[i].0) ==> Holds(opts[i].1, env, t, "up")) <==>
           (Truthy(opts[0].0) ==> Holds(opts[0].1, env, t, "up")) &&
           (Truthy(opts[1].0) ==> Holds(opts[1].1, env, t, "up")) &&
           (Truthy(opts[2].0) ==> Holds(opts[2].1, env, t, "up"));
  }

  /** The two inner joins hold when the link's user and place ids match. */
  lemma LinkJoinsMean(page: Option<Page>, f: Props, env: Env, t: Tuple)
    ensures var q := LinkSelect(page, f);
      (forall k :: 0 <= k < |q.joins| && q.joins[k].kind == Inner ==> AllHold(q.joins[k].on, env, t, "up")) <==>
        && SqlEq(Get(RowOf(t, "up"), "fk_user"), Get(RowOf(t, "u"), "id"))
        && SqlEq(Get(RowOf(t, "up"), "fk_place"), Get(RowOf(t, "p"), "id"))
  {
    var q := LinkSelect(page, f);
    AllHoldCons(q.joins[0].on[0], [], env, t, "up");
    AllHoldCons(q.joins[1].on[0], [], env, t, "up");
    assert q.joins[0].on == [q.joins[0].on[0]] + [] && q.joins[1].on == [q.joins[1].on[0]] + [];
    assert (forall k :: 0 <= k < |q.joins| && q.joins[k].kind == Inner ==> AllHold(q.joins[k].on, env, t, "up")) <==>
           AllHold(q.joins[0].on, env, t, "up") && AllHold(q.joins[1].on, env, t, "up");
  }

  /** The WHERE list holds for a visible link of a user not deleted that matches the filters. */
  lemma LinkWhereMeans(f: Props, env: Env, t: Tuple)
    requires LinkFilters(f) == LinkFilters(env.params)
    ensures AllHold(LinkWhere(f), env, t, "up") <==>
            && Visible(RowOf(t, "up"), Get(env.params, "now"))
            && IsNullValue(Get(RowOf(t, "u"), "deleted"))
            && LinkMatches(env.params, env.ids, RowOf(t, "up"))
  {
    var w := Window(Some("up"), Param("now"));
    var tail := w + [Always] + Present(LinkFilters(f));
    AllHoldAppend(w, [IsNull(Qualified("u", "deleted"))] + tail, env, t, "up");
    WindowMeans("up", Param("now"), env, t, "up");
    AllHoldCons(IsNull(Qualified("u", "deleted")), tail, env, t, "up");
    WindowThen(Some("up"), Present(LinkFilters(f)), env, t, "up");
    LinkFiltersMean(env, t);
  }

  /**
   * List and count select the same links: those joined to their user and
   * place, visible at `now`, whose user is not deleted (the place may be),
   * and which match the filters given. The repeated window adds nothing.
   */
  lemma LinkListMeaning(env: Env, t: Tuple)
    ensures Admits(GetUserHasPlacesListQuery(env.params), env, t) <==>
            && SqlEq(Get(RowOf(t, "up"), "fk_user"), Get(RowOf(t, "u"), "id"))
            && SqlEq(Get(RowOf(t, "up"), "fk_place"), Get(RowOf(t, "p"), "id"))
            && Visible(RowOf(t, "up"), Get(env.params, "now"))
            && IsNullValue(Get(RowOf(t, "u"), "deleted"))
            && LinkMatches(env.params, env.ids, RowOf(t, "up"))
    ensures Admits(CountUserHasPlacesListQuery(env.params), env, t) <==> Admits(GetUserHasPlacesListQuery(env.params), env, t)
  {
    var p := env.params;
    assert LinkFilters(p - {"limit", "page"}) == LinkFilters(p);
    LinkJoinsMean(Some(PageOf(p)), p - {"limit", "page"}, env, t);
    LinkJoinsMean(None, p, env, t);
    LinkWhereMeans(p - {"limit", "page"}, env, t);
    LinkWhereMeans(p, env, t);
  }

  /**
   * The count query is the list query without pagination: it selects the
   * nine fixed columns, not a count. Both are well formed, and each filter
   * is present iff given.
   */
  lemma LinkListShape(p: Props, i: nat)
    requires i < 3
    ensures CountUserHasPlacesListQuery(p) == GetUserHasPlacesListQuery(p).(page := None)
    ensures CountUserHasPlacesListQuery(p).items == LinkItems() && |LinkItems()| == 9
    ensures forall k | 0 <= k < |LinkItems()| :: LinkItems()[k].alias != Some("count")
    ensures WellFormed(SelectStmt(GetUserHasPlacesListQuery(p)))
    ensures LinkFilters(p)[i].1 in GetUserHasPlacesListQuery(p).where <==> Truthy(LinkFilters(p)[i].0)
  {
    var opts := LinkFilters(p);
    assert LinkFilters(p - {"limit", "page"}) == opts;
    var w := Window(Some("up"), Param("now"));
    var fixed := w + ([IsNull(Qualified("u", "deleted"))] + (w + [Always]));
    assert LinkWhere(p) == fixed + Present(opts);
    GatedPresence(fixed, opts, i);
  }

  /**
   * `insertUserHasPlacesQuery({ uuidUser, uuidPlace, createdBy })`: an
   * absent user, place or creator interpolates `null`, the text of
   * JavaScript's null, without a comma; `:uuid` is never followed by one.
   * The re-read that follows looks the row up by `UUID()`.
   */
  function InsertUserHasPlacesQuery(p: Props): Script
  {
    var user, place := Get(p, "uuidUser"), Get(p, "uuidPlace");
    var createdBy := Get(p, "createdBy");
    [InsertStmt(Insert("mydb.users_has_places", ["uuid", "fk_user", "fk_place", "created", "createdBy"],
                       [InsertValue(Param("uuid"), false),
                        InsertValue(if Truthy(user) then IdByUuid("mydb.users", "uuidUser") else NullLit, Truthy(user)),
                        InsertValue(if Truthy(place) then IdByUuid("mydb.places", "uuidPlace") else NullLit, Truthy(place)),
                        InsertValue(Param("now"), true),
                        InsertValue(if Truthy(createdBy) then Equals(Plain("createdBy"), Param("createdBy")) else NullLit, false)])),
     SelectStmt(Select([SelectItem(All(None), None, false)], LinksTable, [], [Cmp(Eq, Plain("uuid"), FreshUuid)], None))]
  }

  const LinksTable := Source("mydb.users_has_places", "users_has_places", false)

  /** The re-read after the insert looks for the uuid `UUID()` generates, not the one just written. */
  lemma InsertRereadMeans(p: Props, env: Env, row: Props)
    ensures var q := InsertUserHasPlacesQuery(p)[1].select;
      Admits(q, env, map[q.from.name := row]) <==> SqlEq(Get(row, "uuid"), env.newUuid)
  {
    var q := InsertUserHasPlacesQuery(p)[1].select;
    AllHoldCons(q.where[0], [], env, map[q.from.name := row], q.from.name);
    assert q.where == [q.where[0]] + [];
  }

  /**
   * The insert is malformed whatever is given, since no comma follows
   * `:uuid`; the creator's value is the comparison `createdBy = :createdBy`,
   * not the parameter.
   */
  lemma InsertLinkMalformed(p: Props)
    ensures !ScriptWellFormed(InsertUserHasPlacesQuery(p))
    ensures var ins := InsertUserHasPlacesQuery(p)[0].insert;
      && ValueOf(ins, "createdBy") == Some(if Truthy(Get(p, "createdBy")) then Equals(Plain("createdBy"), Param("createdBy")) else NullLit)
      && ValueOf(ins, "fk_user") == Some(if Truthy(Get(p, "uuidUser")) then IdByUuid("mydb.users", "uuidUser") else NullLit)
      && ValueOf(ins, "created") == Some(Param("now"))
  {
    var ins := InsertUserHasPlacesQuery(p)[0].insert;
    assert ValueCommas(ins.values)[0] == false;
    assert !WellFormed(InsertUserHasPlacesQuery(p)[0]);
    ValueAtIndex(ins.columns, ins.values, 1);
    ValueAtIndex(ins.columns, ins.values, 3);
    ValueAtIndex(ins.columns, ins.values, 4);
  }

  /**
   * `modifyUserHasPlacesQuery()`: its body reads `uuidUser`, a name nothing
   * declares, so every call throws a ReferenceError before any SQL exists.
   */
  function ModifyUserHasPlacesQuery(): (r: Result<Script, Error>)
    ensures r.Err? && StatusAndText(r.error.code).0 == 500
  {
    Err(RuntimeError("uuidUser is not defined"))
  }


  /** `softDeleteUserHasPlacesQuery()` */
  function SoftDeleteUserHasPlacesQuery(): Script
  {
    [UpdateStmt(Update(LinksTable,
                       [Assignment(Column(None, "deleted"), Param("deleted"), true),
                        Assignment(Column(None, "deletedBy"), Param("deletedBy"), false)],
                       [ByUuid(Some("users_has_places")), NotDeleted(Some("users_has_places"))]))]
  }

  /** The soft delete stamps the uuid's link while it is not deleted, and a second one changes nothing. */
  lemma LinkSoftDelete(env: Env, row: Props)
    ensures ScriptWellFormed(SoftDeleteUserHasPlacesQuery())
    ensures var u := SoftDeleteUserHasPlacesQuery()[0].update;
      && (Touches(u, env, row) <==> SqlEq(Get(row, "uuid"), Get(env.params, "uuid")) && IsNullValue(Get(row, "deleted")))
      && (Touches(u, env, row) ==>
            Get(ApplyUpdate(u, env, row), "deleted") == Sqlish(Get(env.params, "deleted")) &&
            Get(ApplyUpdate(u, env, row), "deletedBy") == Sqlish(Get(env.params, "deletedBy")))
      && (Touches(u, env, row) && !IsNullValue(Get(env.params, "deleted")) ==> !Touches(u, env, ApplyUpdate(u, env, row)))
  {
    var u := SoftDeleteUserHasPlacesQuery()[0].update;
    SoftDeleteMeans(u, env, row, Some("users_has_places"), Some("users_has_places"));
    if Touches(u, env, row) {
      AssignColumn(u.sets[1..], env, "users_has_places", row, "deletedBy");
      AssignColumn(u.sets, env, "users_has_places", row, "deletedBy");
    }
  }
}
