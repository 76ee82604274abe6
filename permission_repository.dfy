/** The permission query builders. */
module PermissionRepository {
  import opened Js
  import opened Sql

  /**
   * The filters of `_permissionsQuery`. Their meaning reads the unqualified
   * columns as the permission's own; MySQL, which finds `uuid` in both joined
   * tables, refuses the `uuid` filter instead (`PermissionResolution`).
   */
  function PermissionFilters(f: Props): seq<(Value, Cond)>
  {
    [(Get(f, "uuid"), Cmp(Eq, Plain("uuid"), Param("uuid"))),
     (Get(f, "action"), Cmp(Eq, Plain("action"), Param("action"))),
     (Get(f, "endpoint"), Cmp(Eq, Plain("fk_endpoint"), SubSelect("dbmaster.endpoints", [KeyMatch("route", ByParam("endpoint"))])))]
  }

  /** `_permissionsQuery(_pagination)({ count })(filters)` */
  function PermissionSelect(page: Option<Page>, count: Option<SelectItem>, f: Props): Select
  {
    Select(CountOr(count, [SelectItem(All(None), None, false)]),
           Source("dbmaster.permissions", "p", true),
           [Join(LeftOuter, "dbmaster.endpoints", "e", [Cmp(Eq, Qualified("p", "fk_endpoint"), Qualified("e", "id"))])],
           Window(Some("e"), Param("now")) + (Window(Some("p"), Param("now")) + [Always] + Present(PermissionFilters(f))),
           page)
  }

  /** `getPermissionsQuery({ limit, page, ...rest })` */
  function GetPermissionsQuery(p: Props): Select
  {
    PermissionSelect(Some(PageOf(p)), None, p - {"limit", "page"})
  }

  const PermissionCount := SelectItem(CountAll, Some("count"), false)

  /** `countPermissionsQuery(rest)` */
  function CountPermissionsQuery(p: Props): Select
  {
    PermissionSelect(None, Some(PermissionCount), p)
  }

  /** The filters a permission's row matches; the endpoint is found by its route. */
  predicate PermissionMatches(p: Props, ids: Lookup, r: Props)
  {
    (Truthy(Get(p, "uuid")) ==> SqlEq(Get(r, "uuid"), Get(p, "uuid"))) &&
    (Truthy(Get(p, "action")) ==> SqlEq(Get(r, "action"), Get(p, "action"))) &&
    (Truthy(Get(p, "endpoint")) ==> SqlEq(Get(r, "fk_endpoint"), ids("dbmaster.endpoints", [("route", Get(p, "endpoint"))])))
  }

  lemma PermissionFiltersMean(env: Env, t: Tuple)
    ensures AllHold(Present(PermissionFilters(env.params)), env, t, "p") <==> PermissionMatches(env.params, env.ids, RowOf(t, "p"))
  {
    var p := env.params;
    var opts := PermissionFilters(p);
    AllHoldPresent(opts, env, t, "p");
    assert KeyValues([KeyMatch("route", ByParam("endpoint"))], p) == [("route", Sqlish(Get(p, "endpoint")))];
    assert (forall i | 0 <= i < |opts| :: Truthy(opts[i].0) ==> Holds(opts[i].1, env, t, "p")) <==>
           (Truthy(opts[0].0) ==> Holds(opts[0].1, env, t, "p")) &&
           (Truthy(opts[1].0) ==> Holds(opts[1].1, env, t, "p")) &&
           (Truthy(opts[2].0) ==> Holds(opts[2].1, env, t, "p"));
  }

  /**
   * List and count select the same permissions: those visible at `now`
   * whose endpoint is visible too, matching the filters given. The left
   * join keeps a permission without an endpoint, but the endpoint window
   * in the WHERE then drops it. This is what the conditions mean; with a
   * `uuid` filter MySQL refuses both statements before reading any row.
   */
  lemma PermissionListMeaning(env: Env, t: Tuple)
    ensures Admits(GetPermissionsQuery(env.params), env, t) <==>
            Visible(RowOf(t, "e"), Get(env.params, "now")) && Visible(RowOf(t, "p"), Get(env.params, "now")) &&
            PermissionMatches(env.params, env.ids, RowOf(t, "p"))
    ensures Admits(CountPermissionsQuery(env.params), env, t) <==> Admits(GetPermissionsQuery(env.params), env, t)
    ensures "e" !in t ==> !Admits(GetPermissionsQuery(env.params), env, t)
  {
    var p := env.params;
    assert PermissionFilters(p - {"limit", "page"}) == PermissionFilters(p);
    var rest := Window(Some("p"), Param("now")) + [Always] + Present(PermissionFilters(p));
    AllHoldAppend(Window(Some("e"), Param("now")), rest, env, t, "p");
    WindowMeans("e", Param("now"), env, t, "p");
    WindowThen(Some("p"), Present(PermissionFilters(p)), env, t, "p");
    PermissionFiltersMean(env, t);
  }

  /** List and count share their WHERE; the list is paginated and selects `*`, the count `COUNT(*)`; each filter is present iff given. */
  lemma PermissionListShape(p: Props, i: nat)
    requires i < 3
    ensures GetPermissionsQuery(p).where == CountPermissionsQuery(p).where
    ensures GetPermissionsQuery(p).page == Some(PageOf(p)) && CountPermissionsQuery(p).page == None
    ensures CountPermissionsQuery(p).items == [PermissionCount]
    ensures WellFormed(SelectStmt(GetPermissionsQuery(p))) && WellFormed(SelectStmt(CountPermissionsQuery(p)))
    ensures PermissionFilters(p)[i].1 in GetPermissionsQuery(p).where <==> Truthy(PermissionFilters(p)[i].0)
    ensures Resolves(GetPermissionsQuery(p), PermissionColumns) <==> !Truthy(Get(p, "uuid"))
    ensures Resolves(CountPermissionsQuery(p), PermissionColumns) <==> !Truthy(Get(p, "uuid"))
  {
    PermissionResolution(p);
    var opts := PermissionFilters(p);
    assert PermissionFilters(p - {"limit", "page"}) == opts;
    var fixed := Window(Some("e"), Param("now")) + (Window(Some("p"), Param("now")) + [Always]);
    assert GetPermissionsQuery(p).where == fixed + Present(opts);
    GatedPresence(fixed, opts, i);
  }

  /** The columns of the two tables the permission queries read, as the repositories' statements name them. */
  function PermissionColumns(table: string): set<string>
  {
    if table == "dbmaster.permissions" then {"uuid", "action", "fk_endpoint", "created", "createdBy", "deleted", "deletedBy"}
    else if table == "dbmaster.endpoints" then {"id", "uuid", "route", "method", "created", "createdBy", "deleted", "deletedBy"}
    else {}
  }

  /** The present filters name `uuid`, `action` and `fk_endpoint` unqualified, each exactly when given. */
  lemma PermissionFilterNames(p: Props)
    ensures CondsPlainNames(Present(PermissionFilters(p))) ==
      (if Truthy(Get(p, "uuid")) then {"uuid"} else {}) + (if Truthy(Get(p, "action")) then {"action"} else {}) +
      (if Truthy(Get(p, "endpoint")) then {"fk_endpoint"} else {})
  {
    var opts := PermissionFilters(p);
    var h0, h1, h2 := Present([opts[0]]), Present([opts[1]]), Present([opts[2]]);
    assert opts[1..] == [opts[1], opts[2]] && opts[1..][1..] == [opts[2]];
    assert Present([opts[2]]) == h2 + Present([]);
    assert Present(opts) == h0 + (h1 + h2);
    PresentOne(opts[0].0, opts[0].1);
    PresentOne(opts[1].0, opts[1].1);
    PresentOne(opts[2].0, opts[2].1);
    CondsPlainNamesAppend(h0, h1 + h2);
    CondsPlainNamesAppend(h1, h2);
    if h0 != [] { CondsPlainNamesOne(opts[0].1); }
    if h1 != [] { CondsPlainNamesOne(opts[1].1); }
    if h2 != [] { CondsPlainNamesOne(opts[2].1); }
  }

  /** The windows and the join name no unqualified column, so the query's unqualified columns are the present filters'. */
  lemma PermissionPlainNames(p: Props)
    ensures PlainNames(GetPermissionsQuery(p)) == CondsPlainNames(Present(PermissionFilters(p)))
  {
    var q := GetPermissionsQuery(p);
    var opts := PermissionFilters(p);
    assert PermissionFilters(p - {"limit", "page"}) == opts;
    var fixed := Window(Some("e"), Param("now")) + (Window(Some("p"), Param("now")) + [Always]);
    assert q.where == fixed + Present(opts);
    CondsPlainNamesAppend(fixed, Present(opts));
    assert CondsPlainNames(fixed) == {} by {
      forall k | 0 <= k < |fixed| ensures CondPlainNames(fixed[k]) == {} { }
    }
    assert CondsPlainNames(q.joins[0].on) == {} by {
      assert q.joins[0].on == [Cmp(Eq, Qualified("p", "fk_endpoint"), Qualified("e", "id"))];
    }
  }

  /** Over the permission and endpoint tables, of the filters' columns only `uuid` is ambiguous. */
  lemma PermissionTablesResolve(q: Select)
    requires SourceTables(q) == ["dbmaster.permissions", "dbmaster.endpoints"]
    requires PlainNames(q) <= {"uuid", "action", "fk_endpoint"}
    ensures Resolves(q, PermissionColumns) <==> "uuid" !in PlainNames(q)
  {
    var tables := SourceTables(q);
    assert "uuid" in PermissionColumns(tables[0]) && "uuid" in PermissionColumns(tables[1]);
    assert Ambiguous(q, "uuid", PermissionColumns);
    assert !Ambiguous(q, "action", PermissionColumns);
    assert !Ambiguous(q, "fk_endpoint", PermissionColumns);
  }

  /** With a `uuid` filter the list names `uuid` unqualified, a column of both tables; without it every name resolves. */
  lemma PermissionResolution(p: Props)
    ensures Resolves(GetPermissionsQuery(p), PermissionColumns) <==> !Truthy(Get(p, "uuid"))
    ensures Resolves(CountPermissionsQuery(p), PermissionColumns) <==> !Truthy(Get(p, "uuid"))
  {
    var q := GetPermissionsQuery(p);
    PermissionPlainNames(p);
    PermissionFilterNames(p);
    assert SourceTables(q) == ["dbmaster.permissions", "dbmaster.endpoints"];
    PermissionTablesResolve(q);
    assert PermissionFilters(p - {"limit", "page"}) == PermissionFilters(p);
    ResolvesAlike(q, CountPermissionsQuery(p), PermissionColumns);
  }

  /** `insertPermissionsQuery(createdBy)` */
  function InsertPermissionsQuery(createdBy: Value): Script
  {
    [InsertStmt(Insert("dbmaster.permissions", ["uuid", "action", "fk_endpoint", "created", "createdBy"],
                       [InsertValue(Param("uuid"), true), InsertValue(Param("action"), true),
                        InsertValue(SubSelect("dbmaster.endpoints", [KeyMatch("route", ByParam("endpoint"))]), true),
                        InsertValue(Param("now"), true),
                        InsertValue(if Truthy(createdBy) then Param("createdBy") else NullLit, false)])),
     SelectStmt(Reselect("dbmaster.permissions", "permissions", None, None))]
  }

  /** The insert is well formed; the endpoint is found by route; without a creator, `createdBy` is a literal null. */
  lemma InsertPermissionValues(createdBy: Value)
    ensures ScriptWellFormed(InsertPermissionsQuery(createdBy))
    ensures var ins := InsertPermissionsQuery(createdBy)[0].insert;
      && ValueOf(ins, "fk_endpoint") == Some(SubSelect("dbmaster.endpoints", [KeyMatch("route", ByParam("endpoint"))]))
      && ValueOf(ins, "createdBy") == Some(if Truthy(createdBy) then Param("createdBy") else NullLit)
      && ValueOf(ins, "created") == Some(Param("now"))
  {
    var ins := InsertPermissionsQuery(createdBy)[0].insert;
    ValueAtIndex(ins.columns, ins.values, 2);
    ValueAtIndex(ins.columns, ins.values, 3);
    ValueAtIndex(ins.columns, ins.values, 4);
  }

  const KeepUuid := Assignment(Column(None, "uuid"), Param("uuid"), false)

  /** The optional assignments of `modifyPermissionsQuery`, switched by its two arguments. */
  function PermissionChanges(action: Value, endpoint: Value): seq<(Value, Assignment)>
  {
    [(action, Assignment(Column(None, "action"), Param("action"), true)),
     (endpoint, Assignment(Column(None, "fk_endpoint"), SubSelect("dbmaster.endpoints", [KeyMatch("route", ByParam("endpoint"))]), true))]
  }

  /** `modifyPermissionsQuery(action, endpoint)` */
  function ModifyPermissionsQuery(action: Value, endpoint: Value): Script
  {
    [UpdateStmt(Update(Source("dbmaster.permissions", "permissions", true), Present(PermissionChanges(action, endpoint)) + [KeepUuid],
                       [ByUuid(Some("permissions")), NotDeleted(Some("permissions"))])),
     SelectStmt(Reselect("dbmaster.permissions", "permissions", None, None))]
  }

  /**
   * Modify is well formed, changes only the uuid's row while it is not
   * deleted, sets the action and the endpoint (looked up by route) when
   * given and keeps every other column.
   */
  lemma ModifyPermissionEffect(action: Value, endpoint: Value, env: Env, row: Props, column: string)
    ensures ScriptWellFormed(ModifyPermissionsQuery(action, endpoint))
    ensures var u := ModifyPermissionsQuery(action, endpoint)[0].update;
      Touches(u, env, row) <==> SqlEq(Get(row, "uuid"), Get(env.params, "uuid")) && IsNullValue(Get(row, "deleted"))
    ensures var u := ModifyPermissionsQuery(action, endpoint)[0].update;
      var after := ApplyUpdate(u, env, row);
      Touches(u, env, row) ==>
        && Get(after, "action") == (if Truthy(action) then Sqlish(Get(env.params, "action")) else Get(row, "action"))
        && Get(after, "fk_endpoint") ==
             (if Truthy(endpoint) then Sqlish(env.ids("dbmaster.endpoints", [("route", Sqlish(Get(env.params, "endpoint")))])) else Get(row, "fk_endpoint"))
        && (column !in {"action", "fk_endpoint", "uuid"} ==> Get(after, column) == Get(row, column))
  {
    var opts := PermissionChanges(action, endpoint);
    var u := ModifyPermissionsQuery(action, endpoint)[0].update;
    GatedSetsSeparated(opts, KeepUuid);
    UuidGuardMeans(u, env, row, Some("permissions"), Some("permissions"));
    if Touches(u, env, row) {
      GatedAssignEffect(opts, [KeepUuid], env, "permissions", row, "action");
      GatedValueAt(opts, "action", 0);
      GatedAssignEffect(opts, [KeepUuid], env, "permissions", row, "fk_endpoint");
      GatedValueAt(opts, "fk_endpoint", 1);
      assert KeyValues([KeyMatch("route", ByParam("endpoint"))], env.params) == [("route", Sqlish(Get(env.params, "endpoint")))];
      if column !in {"action", "fk_endpoint", "uuid"} {
        GatedAssignEffect(opts, [KeepUuid], env, "permissions", row, column);
        GatedValueNone(opts, column);
      }
    }
  }

  /** `softDeletePermissionsQuery()`: stamps the request time, then re-reads the row. */
  function SoftDeletePermissionsQuery(): Script
  {
    [UpdateStmt(Update(Source("dbmaster.permissions", "permissions", true),
                       [Assignment(Column(None, "deleted"), Param("now"), true),
                        Assignment(Column(None, "deletedBy"), Param("deletedBy"), false)],
                       [ByUuid(Some("permissions")), NotDeleted(Some("permissions"))])),
     SelectStmt(Reselect("dbmaster.permissions", "permissions", None, None))]
  }

  /**
   * The soft delete stamps `deleted` with `:now` on the uuid's row while it
   * is not deleted; with a request time, a second one changes nothing.
   */
  lemma PermissionSoftDelete(env: Env, row: Props)
    ensures ScriptWellFormed(SoftDeletePermissionsQuery())
    ensures var u := SoftDeletePermissionsQuery()[0].update;
      && (Touches(u, env, row) <==> SqlEq(Get(row, "uuid"), Get(env.params, "uuid")) && IsNullValue(Get(row, "deleted")))
      && (Touches(u, env, row) ==>
            Get(ApplyUpdate(u, env, row), "deleted") == Sqlish(Get(env.params, "now")) &&
            Get(ApplyUpdate(u, env, row), "deletedBy") == Sqlish(Get(env.params, "deletedBy")))
      && (Touches(u, env, row) && !IsNullValue(Get(env.params, "now")) ==> !Touches(u, env, ApplyUpdate(u, env, row)))
  {
    var u := SoftDeletePermissionsQuery()[0].update;
    SoftDeleteMeans(u, env, row, Some("permissions"), Some("permissions"));
    if Touches(u, env, row) {
      AssignColumn(u.sets[1..], env, "permissions", row, "deletedBy");
      AssignColumn(u.sets, env, "permissions", row, "deletedBy");
    }
  }
}
