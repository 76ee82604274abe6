/** The report type query builders. */
module ReportTypeRepository {
  import opened Js
  import opened Sql

  /** The filters of the report type select builder. */
  function ReportTypeFilters(f: Props): seq<(Value, Cond)>
  {
    [(Get(f, "uuid"), Cmp(Eq, Qualified("rt", "uuid"), Param("uuid"))),
     (Get(f, "name"), Like(Qualified("rt", "name"), "name"))]
  }

  /** The fixed select list of the builder. */
  function ReportTypeItems(): seq<SelectItem>
  {
    Items([(Field(Column(Some("rt"), "uuid")), None), (Field(Column(Some("rt"), "name")), None),
           (Field(Column(Some("rt"), "created")), None), (Field(Column(Some("rt"), "createdby")), None)])
  }

  /** The select builder: its select list is fixed, so the `count` argument has no effect. */
  function ReportTypeSelect(page: Option<Page>, f: Props): Select
  {
    Select(ReportTypeItems(), Source("acloc.report_types", "rt", true), [],
           Window(Some("rt"), Param("now")) + [Always] + Present(ReportTypeFilters(f)),
           page)
  }

  /** `getReportTypesListQuery({ limit, page, ...rest })` */
  function GetReportTypesListQuery(p: Props): Select
  {
    ReportTypeSelect(Some(PageOf(p)), p - {"limit", "page"})
  }

  /** `countReportTypesListQuery(rest)` */
  function CountReportTypesListQuery(p: Props): Select
  {
    ReportTypeSelect(None, p)
  }

  /** The filters a report type's row matches: the uuid exactly, the name as a substring. */
  predicate ReportTypeMatches(p: Props, r: Props)
  {
    (Truthy(Get(p, "uuid")) ==> SqlEq(Get(r, "uuid"), Get(p, "uuid"))) &&
    (Truthy(Get(p, "name")) ==> Substring(Get(r, "name"), Get(p, "name")))
  }

  /** List and count select the same report types: those visible at `now` matching the filters given. */
  lemma ReportTypeListMeaning(env: Env, t: Tuple)
    ensures Admits(GetReportTypesListQuery(env.params), env, t) <==>
            Visible(RowOf(t, "rt"), Get(env.params, "now")) && ReportTypeMatches(env.params, RowOf(t, "rt"))
    ensures Admits(CountReportTypesListQuery(env.params), env, t) <==> Admits(GetReportTypesListQuery(env.params), env, t)
  {
    var p := env.params;
    var opts := ReportTypeFilters(p);
    assert ReportTypeFilters(p - {"limit", "page"}) == opts;
    WindowThen(Some("rt"), Present(opts), env, t, "rt");
    AllHoldPresent(opts, env, t, "rt");
    assert (forall i | 0 <= i < |opts| :: Truthy(opts[i].0) ==> Holds(opts[i].1, env, t, "rt")) <==>
           (Truthy(opts[0].0) ==> Holds(opts[0].1, env, t, "rt")) && (Truthy(opts[1].0) ==> Holds(opts[1].1, env, t, "rt"));
  }

  /** The count query is the list query without pagination: it selects the fixed columns, not a count. */
  lemma ReportTypeListShape(p: Props, i: nat)
    requires i < 2
    ensures CountReportTypesListQuery(p) == GetReportTypesListQuery(p).(page := None)
    ensures CountReportTypesListQuery(p).items == ReportTypeItems() && |ReportTypeItems()| == 4
    ensures forall k | 0 <= k < |ReportTypeItems()| :: ReportTypeItems()[k].alias != Some("count")
    ensures WellFormed(SelectStmt(GetReportTypesListQuery(p)))
    ensures ReportTypeFilters(p)[i].1 in GetReportTypesListQuery(p).where <==> Truthy(ReportTypeFilters(p)[i].0)
  {
    assert ReportTypeFilters(p - {"limit", "page"}) == ReportTypeFilters(p);
    GatedPresence(Window(Some("rt"), Param("now")) + [Always], ReportTypeFilters(p), i);
  }

  const ReportTypesTarget := Source("acloc.report_types", "report_types", false)

  /** `insertReportTypesQuery()` */
  function InsertReportTypesQuery(): Script
  {
    [InsertStmt(Insert("acloc.report_types", ["uuid", "name", "created", "createdBy"],
                       [InsertValue(Param("uuid"), true), InsertValue(Param("name"), true),
                        InsertValue(Param("now"), true), InsertValue(Param("createdBy"), false)])),
     SelectStmt(Reselect("acloc.report_types", "report_types", None, None))]
  }

  /** The insert is well formed and writes each column from the parameter of its name, `created` from `:now`. */
  lemma InsertReportTypeValues()
    ensures ScriptWellFormed(InsertReportTypesQuery())
    ensures var ins := InsertReportTypesQuery()[0].insert;
      && ValueOf(ins, "uuid") == Some(Param("uuid")) && ValueOf(ins, "name") == Some(Param("name"))
      && ValueOf(ins, "created") == Some(Param("now")) && ValueOf(ins, "createdBy") == Some(Param("createdBy"))
  {
    var ins := InsertReportTypesQuery()[0].insert;
    ValueAtIndex(ins.columns, ins.values, 0);
    ValueAtIndex(ins.columns, ins.values, 1);
    ValueAtIndex(ins.columns, ins.values, 2);
    ValueAtIndex(ins.columns, ins.values, 3);
  }

  const KeepUuid := Assignment(Column(None, "uuid"), Param("uuid"), false)

  function ReportTypeChanges(name: Value): seq<(Value, Assignment)>
  {
    [(name, Assignment(Column(None, "name"), Param("name"), true))]
  }

  /** `updateReportTypesQuery(name)` */
  function UpdateReportTypesQuery(name: Value): Script
  {
    [UpdateStmt(Update(ReportTypesTarget, Present(ReportTypeChanges(name)) + [KeepUuid], [ByUuid(None), NotDeleted(None)])),
     SelectStmt(Reselect("acloc.report_types", "report_types", None, None))]
  }

  /** The update is well formed, changes only the uuid's row while it is not deleted, renames it when a name is given and keeps every other column. */
  lemma UpdateReportTypeEffect(name: Value, env: Env, row: Props, column: string)
    ensures ScriptWellFormed(UpdateReportTypesQuery(name))
    ensures var u := UpdateReportTypesQuery(name)[0].update;
      Touches(u, env, row) <==> SqlEq(Get(row, "uuid"), Get(env.params, "uuid")) && IsNullValue(Get(row, "deleted"))
    ensures var u := UpdateReportTypesQuery(name)[0].update;
      var after := ApplyUpdate(u, env, row);
      Touches(u, env, row) ==>
        && Get(after, "name") == (if Truthy(name) then Sqlish(Get(env.params, "name")) else Get(row, "name"))
        && Get(after, "uuid") == Sqlish(Get(env.params, "uuid"))
        && (column !in {"name", "uuid"} ==> Get(after, column) == Get(row, column))
  {
    var opts := ReportTypeChanges(name);
    var u := UpdateReportTypesQuery(name)[0].update;
    GatedSetsSeparated(opts, KeepUuid);
    UuidGuardMeans(u, env, row, None, None);
    if Touches(u, env, row) {
      GatedAssignEffect(opts, [KeepUuid], env, "report_types", row, "name");
      GatedValueAt(opts, "name", 0);
      GatedThenLast(opts, KeepUuid, env, "report_types", row);
      if column !in {"name", "uuid"} {
        GatedAssignEffect(opts, [KeepUuid], env, "report_types", row, column);
        GatedValueNone(opts, column);
      }
    }
  }

  /** `softDeleteReportTypesQuery()`: the soft delete, then the re-read. */
  function SoftDeleteReportTypesQuery(): Script
  {
    [UpdateStmt(Update(ReportTypesTarget,
                       [Assignment(Column(None, "deleted"), Param("deleted"), true),
                        Assignment(Column(None, "deletedBy"), Param("deletedBy"), false)],
                       [ByUuid(None), NotDeleted(None)])),
     SelectStmt(Reselect("acloc.report_types", "report_types", None, None))]
  }

  /** The soft delete stamps the uuid's row while it is not deleted, and a second one changes nothing. */
  lemma ReportTypeSoftDelete(env: Env, row: Props)
    ensures ScriptWellFormed(SoftDeleteReportTypesQuery())
    ensures var u := SoftDeleteReportTypesQuery()[0].update;
      && (Touches(u, env, row) <==> SqlEq(Get(row, "uuid"), Get(env.params, "uuid")) && IsNullValue(Get(row, "deleted")))
      && (Touches(u, env, row) ==>
            Get(ApplyUpdate(u, env, row), "deleted") == Sqlish(Get(env.params, "deleted")) &&
            Get(ApplyUpdate(u, env, row), "deletedBy") == Sqlish(Get(env.params, "deletedBy")))
      && (Touches(u, env, row) && !IsNullValue(Get(env.params, "deleted")) ==> !Touches(u, env, ApplyUpdate(u, env, row)))
  {
    var u := SoftDeleteReportTypesQuery()[0].update;
    SoftDeleteMeans(u, env, row, None, None);
    if Touches(u, env, row) {
      AssignColumn(u.sets[1..], env, "report_types", row, "deletedBy");
      AssignColumn(u.sets, env, "report_types", row, "deletedBy");
    }
  }
}
