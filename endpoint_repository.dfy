/** The endpoint query builders. */
module EndpointRepository {
  import opened Js
  import opened Sql

  /** The filters of `_endpointsQuery`. */
  function EndpointFilters(f: Props): seq<(Value, Cond)>
  {
    [(Get(f, "uuid"), Cmp(Eq, Plain("uuid"), Param("uuid"))),
     (Get(f, "route"), Cmp(Eq, Plain("route"), Param("route"))),
     (Get(f, "method"), Cmp(Eq, Plain("method"), Param("method")))]
  }

  /** `_endpointsQuery(_pagination)({ count })(filters)` */
  function EndpointSelect(page: Option<Page>, count: Option<SelectItem>, f: Props): Select
  {
    Select(CountOr(count, [SelectItem(All(None), None, false)]),
           Source("dbmaster.endpoints", "e", true), [],
           Window(Some("e"), Param("now")) + [Always] + Present(EndpointFilters(f)),
           page)
  }

  /** `getEndpointsQuery({ limit, page, ...rest })` */
  function GetEndpointsQuery(p: Props): Select
  {
    EndpointSelect(Some(PageOf(p)), None, p - {"limit", "page"})
  }

  const EndpointCount := SelectItem(CountAll, Some("count"), false)

  /** `countEndpointsQuery(rest)` */
  function CountEndpointsQuery(p: Props): Select
  {
    EndpointSelect(None, Some(EndpointCount), p)
  }

  /** The filters an endpoint's row matches: uuid, route and method, exactly, each when given. */
  predicate EndpointMatches(p: Props, r: Props)
  {
    (Truthy(Get(p, "uuid")) ==> SqlEq(Get(r, "uuid"), Get(p, "uuid"))) &&
    (Truthy(Get(p, "route")) ==> SqlEq(Get(r, "route"), Get(p, "route"))) &&
    (Truthy(Get(p, "method")) ==> SqlEq(Get(r, "method"), Get(p, "method")))
  }

  /** List and count select the same endpoints: those visible at `now` matching the filters given. */
  lemma EndpointListMeaning(env: Env, t: Tuple)
    ensures Admits(GetEndpointsQuery(env.params), env, t) <==> Visible(RowOf(t, "e"), Get(env.params, "now")) && EndpointMatches(env.params, RowOf(t, "e"))
    ensures Admits(CountEndpointsQuery(env.params), env, t) <==> Admits(GetEndpointsQuery(env.params), env, t)
  {
    var p := env.params;
    var opts := EndpointFilters(p);
    assert EndpointFilters(p - {"limit", "page"}) == opts;
    WindowThen(Some("e"), Present(opts), env, t, "e");
    AllHoldPresent(opts, env, t, "e");
    assert (forall i | 0 <= i < |opts| :: Truthy(opts[i].0) ==> Holds(opts[i].1, env, t, "e")) <==>
           (Truthy(opts[0].0) ==> Holds(opts[0].1, env, t, "e")) &&
           (Truthy(opts[1].0) ==> Holds(opts[1].1, env, t, "e")) &&
           (Truthy(opts[2].0) ==> Holds(opts[2].1, env, t, "e"));
  }

  /** List and count share their WHERE; only the list is paginated; each filter is present iff given. */
  lemma EndpointListShape(p: Props, i: nat)
    requires i < 3
    ensures GetEndpointsQuery(p).where == CountEndpointsQuery(p).where
    ensures GetEndpointsQuery(p).page == Some(PageOf(p)) && CountEndpointsQuery(p).page == None
    ensures CountEndpointsQuery(p).items == [EndpointCount]
    ensures WellFormed(SelectStmt(GetEndpointsQuery(p))) && WellFormed(SelectStmt(CountEndpointsQuery(p)))
    ensures EndpointFilters(p)[i].1 in GetEndpointsQuery(p).where <==> Truthy(EndpointFilters(p)[i].0)
  {
    assert EndpointFilters(p - {"limit", "page"}) == EndpointFilters(p);
    GatedPresence(Window(Some("e"), Param("now")) + [Always], EndpointFilters(p), i);
  }

  const EndpointsTarget := Source("dbmaster.endpoints", "endpoints", false)

  /** `insertEndpointsQuery()` */
  function InsertEndpointsQuery(): Script
  {
    [InsertStmt(Insert("dbmaster.endpoints", ["uuid", "route", "created", "createdBy"],
                       [InsertValue(Param("uuid"), true), InsertValue(Param("route"), true),
                        InsertValue(Param("now"), true), InsertValue(Param("createdBy"), false)])),
     SelectStmt(Reselect("dbmaster.endpoints", "endpoints", None, None))]
  }

  /** The insert is well formed and writes each column from the parameter of its name, `created` from `:now`. */
  lemma InsertEndpointValues()
    ensures ScriptWellFormed(InsertEndpointsQuery())
    ensures var ins := InsertEndpointsQuery()[0].insert;
      && ValueOf(ins, "uuid") == Some(Param("uuid")) && ValueOf(ins, "route") == Some(Param("route"))
      && ValueOf(ins, "created") == Some(Param("now")) && ValueOf(ins, "createdBy") == Some(Param("createdBy"))
      && ValueOf(ins, "method") == None
  {
    var ins := InsertEndpointsQuery()[0].insert;
    ValueAtIndex(ins.columns, ins.values, 0);
    ValueAtIndex(ins.columns, ins.values, 1);
    ValueAtIndex(ins.columns, ins.values, 2);
    ValueAtIndex(ins.columns, ins.values, 3);
  }

  const KeepUuid := Assignment(Column(None, "uuid"), Param("uuid"), false)

  function EndpointChanges(route: Value): seq<(Value, Assignment)>
  {
    [(route, Assignment(Column(None, "route"), Param("route"), true))]
  }

  /** `updateEndpointsQuery(route)` */
  function UpdateEndpointsQuery(route: Value): Script
  {
    [UpdateStmt(Update(EndpointsTarget, Present(EndpointChanges(route)) + [KeepUuid], [ByUuid(None), NotDeleted(None)])),
     SelectStmt(Reselect("dbmaster.endpoints", "endpoints", None, None))]
  }

  /** The update is well formed, changes only the uuid's row while it is not deleted, sets the route when given and keeps every other column. */
  lemma UpdateEndpointEffect(route: Value, env: Env, row: Props, column: string)
    ensures ScriptWellFormed(UpdateEndpointsQuery(route))
    ensures var u := UpdateEndpointsQuery(route)[0].update;
      Touches(u, env, row) <==> SqlEq(Get(row, "uuid"), Get(env.params, "uuid")) && IsNullValue(Get(row, "deleted"))
    ensures var u := UpdateEndpointsQuery(route)[0].update;
      var after := ApplyUpdate(u, env, row);
      Touches(u, env, row) ==>
        && Get(after, "route") == (if Truthy(route) then Sqlish(Get(env.params, "route")) else Get(row, "route"))
        && (column !in {"route", "uuid"} ==> Get(after, column) == Get(row, column))
  {
    var opts := EndpointChanges(route);
    var u := UpdateEndpointsQuery(route)[0].update;
    GatedSetsSeparated(opts, KeepUuid);
    UuidGuardMeans(u, env, row, None, None);
    if Touches(u, env, row) {
      GatedAssignEffect(opts, [KeepUuid], env, "endpoints", row, "route");
      GatedValueAt(opts, "route", 0);
      if column !in {"route", "uuid"} {
        GatedAssignEffect(opts, [KeepUuid], env, "endpoints", row, column);
        GatedValueNone(opts, column);
      }
    }
  }

  /** `softDeleteEndpointsQuery()` */
  function SoftDeleteEndpointsQuery(): Script
  {
    [UpdateStmt(Update(EndpointsTarget,
                       [Assignment(Column(None, "deleted"), Param("deleted"), true),
                        Assignment(Column(None, "deletedBy"), Param("deletedBy"), false)],
                       [ByUuid(None), NotDeleted(None)]))]
  }

  /** `deleteEndpointsQuery()`: the hard delete, then the re-read, which then finds nothing. */
  function DeleteEndpointsQuery(): Script
  {
    [DeleteStmt(Delete(EndpointsTarget, [ByUuid(None)])),
     SelectStmt(Reselect("dbmaster.endpoints", "endpoints", None, None))]
  }

  /**
   * The soft delete stamps the uuid's row while it is not deleted, and a
   * second one changes nothing; the hard delete removes the uuid's row
   * whether or not it is soft-deleted.
   */
  lemma EndpointDeletes(env: Env, row: Props)
    ensures var u := SoftDeleteEndpointsQuery()[0].update;
      && (Touches(u, env, row) <==> SqlEq(Get(row, "uuid"), Get(env.params, "uuid")) && IsNullValue(Get(row, "deleted")))
      && (Touches(u, env, row) ==>
            Get(ApplyUpdate(u, env, row), "deleted") == Sqlish(Get(env.params, "deleted")) &&
            Get(ApplyUpdate(u, env, row), "deletedBy") == Sqlish(Get(env.params, "deletedBy")))
      && (Touches(u, env, row) && !IsNullValue(Get(env.params, "deleted")) ==> !Touches(u, env, ApplyUpdate(u, env, row)))
    ensures Removes(DeleteEndpointsQuery()[0].delete, env, row) <==> SqlEq(Get(row, "uuid"), Get(env.params, "uuid"))
  {
    var u := SoftDeleteEndpointsQuery()[0].update;
    SoftDeleteMeans(u, env, row, None, None);
    HardDeleteMeans(DeleteEndpointsQuery()[0].delete, env, row, None);
    if Touches(u, env, row) {
      AssignColumn(u.sets[1..], env, "endpoints", row, "deletedBy");
      AssignColumn(u.sets, env, "endpoints", row, "deletedBy");
    }
  }
}
