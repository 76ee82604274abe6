/** The favorite query builders: list, count, insert, modify and soft delete. */
module FavoriteRepository {
  import opened Js
  import opened Sql

  /** `(SELECT id from <table> WHERE uuid = :<param>)` */
  function IdByUuid(table: string, param: string): Expr
  {
    SubSelect(table, [KeyMatch("uuid", ByParam(param))])
  }

  /** The filters of `_favoritesQuery`, in the order the WHERE clause places them. */
  function FavoriteFilters(f: Props): seq<(Value, Cond)>
  {
    [(Get(f, "uuid"), Cmp(Eq, Qualified("r", "uuid"), Param("uuid"))),
     (Get(f, "user_uuid"), Cmp(Eq, Plain("fk_user"), IdByUuid("dbmaster.users", "user_uuid"))),
     (Get(f, "place_uuid"), Cmp(Eq, Plain("fk_place"), IdByUuid("dbmaster.places", "place_uuid")))]
  }

  /**
   * The default select list of `_favoritesQuery`. The comma after
   * `place.description as place_description` is missing.
   */
  function FavoriteItems(): seq<SelectItem>
  {
    [SelectItem(All(Some("r")), None, true),
     SelectItem(Field(Column(Some("place"), "uuid")), Some("place_uuid"), true),
     SelectItem(Field(Column(Some("p"), "uuid")), Some("user_uuid"), true),
     SelectItem(Field(Column(Some("place"), "name")), Some("place_name"), true),
     SelectItem(Field(Column(Some("place"), "address")), Some("place_address"), true),
     SelectItem(Field(Column(Some("place"), "latitude")), Some("place_latitude"), true),
     SelectItem(Field(Column(Some("place"), "longitude")), Some("place_longitude"), true),
     SelectItem(Field(Column(Some("place"), "description")), Some("place_description"), false),
     SelectItem(Field(Column(Some("p"), "username")), Some("user_username"), false)]
  }

  /** `r.created <= :now AND (r.created > :now OR r.deleted IS NULL) AND true` */
  function FavoriteRowConds(): seq<Cond>
  {
    [Cmp(Le, Qualified("r", "created"), Param("now")),
     Either(Cmp(Gt, Qualified("r", "created"), Param("now")), IsNull(Qualified("r", "deleted"))),
     Always]
  }

  /** `JOIN <table> as <alias> ON r.<fk> = <alias>.id AND <alias>'s window at :now` */
  function VisibleJoin(table: string, alias: string, fk: string): Join
  {
    Join(Inner, table, alias, [Cmp(Eq, Qualified("r", fk), Qualified(alias, "id"))] + Window(Some(alias), Param("now")))
  }

  /** `_favoritesQuery(_pagination)({ count })(filters)` */
  function FavoriteSelect(page: Option<Page>, count: Option<SelectItem>, f: Props): Select
  {
    Select(CountOr(count, FavoriteItems()),
           Source("dbmaster.favorites", "r", true),
           [VisibleJoin("dbmaster.places", "place", "fk_place"), VisibleJoin("dbmaster.users", "p", "fk_user")],
           FavoriteRowConds() + Present(FavoriteFilters(f)),
           page)
  }

  /** `getFavoritesQuery({ limit, page, ...rest })` */
  function GetFavoritesQuery(p: Props): Select
  {
    FavoriteSelect(Some(PageOf(p)), None, p - {"limit", "page"})
  }

  const FavoriteCount := SelectItem(CountAll, Some("count"), false)

  /** `countFavoritesQuery(rest)` */
  function CountFavoritesQuery(p: Props): Select
  {
    FavoriteSelect(None, Some(FavoriteCount), p)
  }

  /** The filters a favorite's row matches; the user and the place are found by their uuids. */
  predicate FavoriteMatches(p: Props, ids: Lookup, r: Props)
  {
    (Truthy(Get(p, "uuid")) ==> SqlEq(Get(r, "uuid"), Get(p, "uuid"))) &&
    (Truthy(Get(p, "user_uuid")) ==> SqlEq(Get(r, "fk_user"), ids("dbmaster.users", [("uuid", Get(p, "user_uuid"))]))) &&
    (Truthy(Get(p, "place_uuid")) ==> SqlEq(Get(r, "fk_place"), ids("dbmaster.places", [("uuid", Get(p, "place_uuid"))])))
  }

  lemma FavoriteFiltersMean(env: Env, t: Tuple)
    ensures AllHold(Present(FavoriteFilters(env.params)), env, t, "r") <==> FavoriteMatches(env.params, env.ids, RowOf(t, "r"))
  {
    var p := env.params;
    var opts := FavoriteFilters(p);
    AllHoldPresent(opts, env, t, "r");
    assert KeyValues([KeyMatch("uuid", ByParam("user_uuid"))], p) == [("uuid", Sqlish(Get(p, "user_uuid")))];
    assert KeyValues([KeyMatch("uuid", ByParam("place_uuid"))], p) == [("uuid", Sqlish(Get(p, "place_uuid")))];
    assert (forall i | 0 <= i < |opts| :: Truthy(opts[i].0) ==> Holds(opts[i].1, env, t, "r")) <==>
           (Truthy(opts[0].0) ==> Holds(opts[0].1, env, t, "r")) &&
           (Truthy(opts[1].0) ==> Holds(opts[1].1, env, t, "r")) &&
           (Truthy(opts[2].0) ==> Holds(opts[2].1, env, t, "r"));
  }

  /**
   * The favorite's own conditions: since `r.created > :now` contradicts
   * `r.created <= :now`, they admit exactly the favorites created by `now`
   * that are not deleted at all, so a favorite whose deletion time lies
   * after `now` is already hidden.
   */
  lemma FavoriteRowMeans(rest: seq<Cond>, env: Env, t: Tuple)
    ensures AllHold(FavoriteRowConds() + rest, env, t, "r") <==>
            Before(Get(RowOf(t, "r"), "created"), Get(env.params, "now")) && IsNullValue(Get(RowOf(t, "r"), "deleted")) &&
            AllHold(rest, env, t, "r")
  {
    var cs := FavoriteRowConds();
    assert cs + rest == [cs[0]] + ([cs[1]] + ([cs[2]] + rest));
    AllHoldCons(cs[0], [cs[1]] + ([cs[2]] + rest), env, t, "r");
    AllHoldCons(cs[1], [cs[2]] + rest, env, t, "r");
    AllHoldCons(cs[2], rest, env, t, "r");
  }

  /** A joined row is kept when it is the one the foreign key names and it is visible at `now`. */
  lemma VisibleJoinMeans(table: string, alias: string, fk: string, env: Env, t: Tuple)
    ensures AllHold(VisibleJoin(table, alias, fk).on, env, t, "r") <==>
            SqlEq(Get(RowOf(t, "r"), fk), Get(RowOf(t, alias), "id")) && Visible(RowOf(t, alias), Get(env.params, "now"))
  {
    var on := VisibleJoin(table, alias, fk).on;
    AllHoldCons(on[0], Window(Some(alias), Param("now")), env, t, "r");
    assert on == [on[0]] + Window(Some(alias), Param("now"));
    WindowMeans(alias, Param("now"), env, t, "r");
  }

  /**
   * List and count select the same favorites: those created by `now` and
   * not deleted, whose place and user are the ones their keys name and are
   * visible at `now`, and which match the filters given.
   */
  lemma FavoriteListMeaning(env: Env, t: Tuple)
    ensures Admits(CountFavoritesQuery(env.params), env, t) <==>
            && SqlEq(Get(RowOf(t, "r"), "fk_place"), Get(RowOf(t, "place"), "id"))
            && Visible(RowOf(t, "place"), Get(env.params, "now"))
            && SqlEq(Get(RowOf(t, "r"), "fk_user"), Get(RowOf(t, "p"), "id"))
            && Visible(RowOf(t, "p"), Get(env.params, "now"))
            && Before(Get(RowOf(t, "r"), "created"), Get(env.params, "now"))
            && IsNullValue(Get(RowOf(t, "r"), "deleted"))
            && FavoriteMatches(env.params, env.ids, RowOf(t, "r"))
    ensures Admits(GetFavoritesQuery(env.params), env, t) <==> Admits(CountFavoritesQuery(env.params), env, t)
  {
    var p := env.params;
    assert FavoriteFilters(p - {"limit", "page"}) == FavoriteFilters(p);
    var q := CountFavoritesQuery(p);
    FavoriteRowMeans(Present(FavoriteFilters(p)), env, t);
    FavoriteFiltersMean(env, t);
    VisibleJoinMeans("dbmaster.places", "place", "fk_place", env, t);
    VisibleJoinMeans("dbmaster.users", "p", "fk_user", env, t);
    assert (forall k :: 0 <= k < |q.joins| && q.joins[k].kind == Inner ==> AllHold(q.joins[k].on, env, t, "r")) <==>
           AllHold(q.joins[0].on, env, t, "r") && AllHold(q.joins[1].on, env, t, "r");
  }

  /**
   * The list query cannot run: its select list lacks a comma. The count
   * query, which replaces that list by `COUNT(*)`, is well formed. Both
   * share joins and WHERE; only the list is paginated; each filter is
   * present iff given.
   */
  lemma FavoriteListShape(p: Props, i: nat)
    requires i < 3
    ensures !WellFormed(SelectStmt(GetFavoritesQuery(p))) && WellFormed(SelectStmt(CountFavoritesQuery(p)))
    ensures GetFavoritesQuery(p).where == CountFavoritesQuery(p).where && GetFavoritesQuery(p).joins == CountFavoritesQuery(p).joins
    ensures GetFavoritesQuery(p).page == Some(PageOf(p)) && CountFavoritesQuery(p).page == None
    ensures CountFavoritesQuery(p).items == [FavoriteCount]
    ensures FavoriteFilters(p)[i].1 in GetFavoritesQuery(p).where <==> Truthy(FavoriteFilters(p)[i].0)
  {
    assert FavoriteFilters(p - {"limit", "page"}) == FavoriteFilters(p);
    var commas := ItemCommas(FavoriteItems());
    assert |commas| == 9 && !commas[7];
    GatedPresence(FavoriteRowConds(), FavoriteFilters(p), i);
  }

  /** The re-read after a write: the favorite with its user's and place's uuids and its place's name. */
  function FavoriteReread(nameAlias: string, where: seq<Cond>): Select
  {
    Select([SelectItem(All(Some("f")), None, true),
            SelectItem(Field(Column(Some("users"), "uuid")), Some("user_uuid"), true),
            SelectItem(Field(Column(Some("places"), "uuid")), Some("place_uuid"), true),
            SelectItem(Field(Column(Some("places"), "name")), Some(nameAlias), false)],
           Source("dbmaster.favorites", "f", true),
           [Join(LeftOuter, "dbmaster.users", "users", [Cmp(Eq, Qualified("f", "fk_user"), Qualified("users", "id"))]),
            Join(LeftOuter, "dbmaster.places", "places", [Cmp(Eq, Qualified("f", "fk_place"), Qualified("places", "id"))])],
           where, None)
  }

  /** `insertFavoritesQuery()` */
  function InsertFavoritesQuery(): Script
  {
    [InsertStmt(Insert("dbmaster.favorites", ["uuid", "fk_place", "fk_user", "created", "createdBy"],
                       [InsertValue(Param("uuid"), true),
                        InsertValue(IdByUuid("dbmaster.places", "place_uuid"), true),
                        InsertValue(IdByUuid("dbmaster.users", "user_uuid"), true),
                        InsertValue(Param("now"), true), InsertValue(Param("createdBy"), false)])),
     SelectStmt(FavoriteReread("role_name", [ByUuid(Some("f"))]))]
  }

  /**
   * The insert is well formed, looks the place and the user up by their
   * uuids and stamps `created` with `:now`.
   */
  lemma InsertFavoriteValues()
    ensures ScriptWellFormed(InsertFavoritesQuery())
    ensures var ins := InsertFavoritesQuery()[0].insert;
      && ValueOf(ins, "uuid") == Some(Param("uuid"))
      && ValueOf(ins, "fk_place") == Some(IdByUuid("dbmaster.places", "place_uuid"))
      && ValueOf(ins, "fk_user") == Some(IdByUuid("dbmaster.users", "user_uuid"))
      && ValueOf(ins, "created") == Some(Param("now"))
      && ValueOf(ins, "createdBy") == Some(Param("createdBy"))
  {
    var ins := InsertFavoritesQuery()[0].insert;
    ValueAtIndex(ins.columns, ins.values, 0);
    ValueAtIndex(ins.columns, ins.values, 1);
    ValueAtIndex(ins.columns, ins.values, 2);
    ValueAtIndex(ins.columns, ins.values, 3);
    ValueAtIndex(ins.columns, ins.values, 4);
  }

  /** The re-read after the insert finds the favorite by its uuid whether or not its user and place exist. */
  lemma InsertRereadMeans(env: Env, t: Tuple)
    ensures Admits(InsertFavoritesQuery()[1].select, env, t) <==> SqlEq(Get(RowOf(t, "f"), "uuid"), Get(env.params, "uuid"))
  {
    var q := InsertFavoritesQuery()[1].select;
    assert q.joins[0].kind == LeftOuter && q.joins[1].kind == LeftOuter;
    AllHoldCons(ByUuid(Some("f")), [], env, t, "f");
    assert q.where == [ByUuid(Some("f"))] + [];
  }

  /** The optional assignments of `modifyFavoritesQuery`, switched by the new uuids. */
  function FavoriteChanges(p: Props): seq<(Value, Assignment)>
  {
    [(Get(p, "new_place_uuid"), Assignment(Column(None, "fk_place"), IdByUuid("dbmaster.places", "new_place_uuid"), true)),
     (Get(p, "new_user_uuid"), Assignment(Column(None, "fk_user"), IdByUuid("dbmaster.users", "new_user_uuid"), true))]
  }

  /** `favorites.created = favorites.created`, the assignment that closes the list. */
  const KeepCreated := Assignment(Column(Some("favorites"), "created"), Qualified("favorites", "created"), false)

  const FavoritesTarget := Source("dbmaster.favorites", "favorites", true)

  /** The favorite a modify or soft delete addresses: by its place's and its user's uuids, while not deleted. */
  function PairGuard(): seq<Cond>
  {
    [Cmp(Eq, Qualified("favorites", "fk_place"), IdByUuid("dbmaster.places", "place_uuid")),
     Cmp(Eq, Qualified("favorites", "fk_user"), IdByUuid("dbmaster.users", "user_uuid")),
     NotDeleted(Some("favorites"))]
  }

  /** `modifyFavoritesQuery({ new_place_uuid, new_user_uuid })` */
  function ModifyFavoritesQuery(p: Props): Script
  {
    [UpdateStmt(Update(FavoritesTarget, Present(FavoriteChanges(p)) + [KeepCreated], PairGuard())),
     SelectStmt(FavoriteReread("place_name",
       [Always] + Present([(Get(p, "new_user_uuid"), Cmp(Eq, Qualified("dbmaster.users", "uuid"), Param("new_user_uuid"))),
                           (Get(p, "new_place_uuid"), Cmp(Eq, Qualified("dbmaster.places", "uuid"), Param("new_place_uuid")))])))]
  }

  /** The id the lookup of `table` by the uuid in parameter `param` finds. */
  function IdOf(env: Env, table: string, param: string): Value
  {
    Sqlish(env.ids(table, [("uuid", Sqlish(Get(env.params, param)))]))
  }

  lemma IdByUuidMeans(env: Env, t: Tuple, home: string, table: string, param: string)
    ensures Eval(IdByUuid(table, param), env, t, home) == IdOf(env, table, param)
  {
    assert KeyValues([KeyMatch("uuid", ByParam(param))], env.params) == [("uuid", Sqlish(Get(env.params, param)))];
  }

  /** The guard changes the favorite whose place and user are the ones the given uuids name, while it is not deleted. */
  lemma PairGuardMeans(u: Update, env: Env, row: Props)
    requires u.target == FavoritesTarget && u.where == PairGuard()
    ensures Touches(u, env, row) <==>
            && SqlEq(Get(row, "fk_place"), IdOf(env, "dbmaster.places", "place_uuid"))
            && SqlEq(Get(row, "fk_user"), IdOf(env, "dbmaster.users", "user_uuid"))
            && IsNullValue(Get(row, "deleted"))
  {
    var t := map["favorites" := row];
    var g := PairGuard();
    assert g == [g[0]] + ([g[1]] + ([g[2]] + []));
    AllHoldCons(g[0], [g[1]] + ([g[2]] + []), env, t, "favorites");
    AllHoldCons(g[1], [g[2]] + [], env, t, "favorites");
    AllHoldCons(g[2], [], env, t, "favorites");
    IdByUuidMeans(env, t, "favorites", "dbmaster.places", "place_uuid");
    IdByUuidMeans(env, t, "favorites", "dbmaster.users", "user_uuid");
    assert RowOf(t, "favorites") == row;
  }

  /**
   * Modify is well formed whatever is given. It changes the favorite the
   * place and user uuids name while it is not deleted, moves it to the new
   * place and the new user when given, and keeps every other column.
   */
  lemma ModifyFavoriteEffect(env: Env, row: Props, column: string)
    ensures ScriptWellFormed(ModifyFavoritesQuery(env.params))
    ensures var u := ModifyFavoritesQuery(env.params)[0].update;
      Touches(u, env, row) <==>
        && SqlEq(Get(row, "fk_place"), IdOf(env, "dbmaster.places", "place_uuid"))
        && SqlEq(Get(row, "fk_user"), IdOf(env, "dbmaster.users", "user_uuid"))
        && IsNullValue(Get(row, "deleted"))
    ensures var u := ModifyFavoritesQuery(env.params)[0].update;
      var p := env.params;
      var after := ApplyUpdate(u, env, row);
      Touches(u, env, row) ==>
        && Get(after, "fk_place") == (if Truthy(Get(p, "new_place_uuid")) then IdOf(env, "dbmaster.places", "new_place_uuid") else Get(row, "fk_place"))
        && Get(after, "fk_user") == (if Truthy(Get(p, "new_user_uuid")) then IdOf(env, "dbmaster.users", "new_user_uuid") else Get(row, "fk_user"))
        && Get(after, "created") == Sqlish(Get(row, "created"))
        && (column !in {"fk_place", "fk_user", "created"} ==> Get(after, column) == Get(row, column))
  {
    var p := env.params;
    var opts := FavoriteChanges(p);
    var u := ModifyFavoritesQuery(p)[0].update;
    GatedSetsSeparated(opts, KeepCreated);
    PairGuardMeans(u, env, row);
    if Touches(u, env, row) {
      var t := map["favorites" := row];
      GatedAssignEffect(opts, [KeepCreated], env, "favorites", row, "fk_place");
      GatedValueAt(opts, "fk_place", 0);
      IdByUuidMeans(env, t, "favorites", "dbmaster.places", "new_place_uuid");
      GatedAssignEffect(opts, [KeepCreated], env, "favorites", row, "fk_user");
      GatedValueAt(opts, "fk_user", 1);
      IdByUuidMeans(env, t, "favorites", "dbmaster.users", "new_user_uuid");
      PresentMembership(opts, opts[0].1);
      assert forall k | 0 <= k < |Present(opts)| :: Present(opts)[k].column.name != "created" by {
        forall k | 0 <= k < |Present(opts)| ensures Present(opts)[k].column.name != "created" {
          PresentMembership(opts, Present(opts)[k]);
        }
      }
      AssignSkip(Present(opts), [KeepCreated], env, "favorites", row, "created");
      assert [KeepCreated][1..] == [];
      if column !in {"fk_place", "fk_user", "created"} {
        GatedAssignEffect(opts, [KeepCreated], env, "favorites", row, column);
        GatedValueNone(opts, column);
      }
    }
  }

  /**
   * Without a new user or place, the re-read after a modify has no
   * condition at all: it returns every favorite, deleted ones included,
   * not the one modified.
   */
  lemma ModifyRereadUnfiltered(env: Env, t: Tuple)
    requires !Truthy(Get(env.params, "new_user_uuid")) && !Truthy(Get(env.params, "new_place_uuid"))
    ensures Admits(ModifyFavoritesQuery(env.params)[1].select, env, t)
  {
    var p := env.params;
    var opts := [(Get(p, "new_user_uuid"), Cmp(Eq, Qualified("dbmaster.users", "uuid"), Param("new_user_uuid"))),
                 (Get(p, "new_place_uuid"), Cmp(Eq, Qualified("dbmaster.places", "uuid"), Param("new_place_uuid")))];
    assert opts[1..][1..] == [];
    assert Present(opts[1..]) == [];
    assert Present(opts) == [];
    var q := ModifyFavoritesQuery(p)[1].select;
    assert q.where == [Always] + [];
    AllHoldCons(Always, [], env, t, "f");
  }

  /** `softDeleteFavoritesQuery({ place_uuid })` */
  function SoftDeleteFavoritesQuery(placeUuid: Value): Script
  {
    [UpdateStmt(Update(FavoritesTarget,
                       [Assignment(Column(None, "deleted"), Param("deleted"), true),
                        Assignment(Column(None, "deletedBy"), Param("deletedBy"), false)],
                       [Cmp(Eq, Qualified("favorites", "fk_user"), IdByUuid("dbmaster.users", "user_uuid"))] +
                       Present([(placeUuid, Cmp(Eq, Qualified("favorites", "fk_place"), IdByUuid("dbmaster.places", "place_uuid")))]) +
                       [NotDeleted(Some("favorites"))]))]
  }

  /** The conditions of the soft delete, one by one. */
  lemma SoftDeleteGuardMeans(placeUuid: Value, env: Env, row: Props)
    ensures var u := SoftDeleteFavoritesQuery(placeUuid)[0].update;
      Touches(u, env, row) <==>
        && SqlEq(Get(row, "fk_user"), IdOf(env, "dbmaster.users", "user_uuid"))
        && (Truthy(placeUuid) ==> SqlEq(Get(row, "fk_place"), IdOf(env, "dbmaster.places", "place_uuid")))
        && IsNullValue(Get(row, "deleted"))
  {
    var u := SoftDeleteFavoritesQuery(placeUuid)[0].update;
    var t := map["favorites" := row];
    var byUser := Cmp(Eq, Qualified("favorites", "fk_user"), IdByUuid("dbmaster.users", "user_uuid"));
    var byPlace := Cmp(Eq, Qualified("favorites", "fk_place"), IdByUuid("dbmaster.places", "place_uuid"));
    var mid := Present([(placeUuid, byPlace)]);
    assert u.where == [byUser] + (mid + [NotDeleted(Some("favorites"))]);
    AllHoldCons(byUser, mid + [NotDeleted(Some("favorites"))], env, t, "favorites");
    AllHoldAppend(mid, [NotDeleted(Some("favorites"))], env, t, "favorites");
    AllHoldCons(NotDeleted(Some("favorites")), [], env, t, "favorites");
    PresentOne(placeUuid, byPlace);
    AllHoldCons(byPlace, [], env, t, "favorites");
    IdByUuidMeans(env, t, "favorites", "dbmaster.places", "place_uuid");
    IdByUuidMeans(env, t, "favorites", "dbmaster.users", "user_uuid");
    assert RowOf(t, "favorites") == row;
  }

  /**
   * The soft delete stamps every not-yet-deleted favorite of the user, or
   * only the one at the given place; with a deletion time, a second one
   * changes nothing.
   */
  lemma FavoriteSoftDelete(placeUuid: Value, env: Env, row: Props)
    ensures ScriptWellFormed(SoftDeleteFavoritesQuery(placeUuid))
    ensures var u := SoftDeleteFavoritesQuery(placeUuid)[0].update;
      && (Touches(u, env, row) <==>
            && SqlEq(Get(row, "fk_user"), IdOf(env, "dbmaster.users", "user_uuid"))
            && (Truthy(placeUuid) ==> SqlEq(Get(row, "fk_place"), IdOf(env, "dbmaster.places", "place_uuid")))
            && IsNullValue(Get(row, "deleted")))
      && (Touches(u, env, row) ==>
            Get(ApplyUpdate(u, env, row), "deleted") == Sqlish(Get(env.params, "deleted")) &&
            Get(ApplyUpdate(u, env, row), "deletedBy") == Sqlish(Get(env.params, "deletedBy")))
      && (Touches(u, env, row) && !IsNullValue(Get(env.params, "deleted")) ==> !Touches(u, env, ApplyUpdate(u, env, row)))
  {
    var u := SoftDeleteFavoritesQuery(placeUuid)[0].update;
    SoftDeleteGuardMeans(placeUuid, env, row);
    if Touches(u, env, row) {
      AssignColumn(u.sets, env, "favorites", row, "deleted");
      AssignColumn(u.sets[1..], env, "favorites", row, "deletedBy");
      AssignColumn(u.sets, env, "favorites", row, "deletedBy");
      if !IsNullValue(Get(env.params, "deleted")) {
        SoftDeleteOnce(u, env, row, |u.where| - 1);
      }
    }
  }
}
