/** The role query builders. */
module RoleRepository {
  import opened Js
  import opened Sql

  /** The filters of `_roleSelectQuery`, both on the roles table itself. */
  function RoleFilters(f: Props): seq<(Value, Cond)>
  {
    [(Get(f, "uuid"), Cmp(Eq, Plain("uuid"), Param("uuid"))),
     (Get(f, "name"), Cmp(Eq, Plain("name"), Param("name")))]
  }

  /** `_roleSelectQuery(_pagination)({ count })(filters)`: the builder never places its pagination argument. */
  function RoleSelect(count: Option<SelectItem>, f: Props): Select
  {
    Select(CountOr(count, [SelectItem(All(None), None, false)]),
           Source("acloc.roles", "r", true), [],
           Window(Some("r"), Param("now")) + [Always] + Present(RoleFilters(f)),
           None)
  }

  /** `getRoleQuery({ limit, page, ...rest })` */
  function GetRoleQuery(p: Props): Select
  {
    RoleSelect(None, p - {"limit", "page"})
  }

  const RoleCount := SelectItem(CountAll, Some("count"), false)

  /** `countRoleQuery(rest)` */
  function CountRoleQuery(p: Props): Select
  {
    RoleSelect(Some(RoleCount), p)
  }

  /** The filters a role's row matches: uuid and name, exactly, each when given. */
  predicate RoleMatches(p: Props, r: Props)
  {
    (Truthy(Get(p, "uuid")) ==> SqlEq(Get(r, "uuid"), Get(p, "uuid"))) &&
    (Truthy(Get(p, "name")) ==> SqlEq(Get(r, "name"), Get(p, "name")))
  }

  /**
   * List and count select the same roles: those visible at `now` matching
   * the filters given. `limit` and `page` select nothing and, since the
   * builder drops its pagination, do not cut the list either.
   */
  lemma RoleListMeaning(env: Env, t: Tuple)
    ensures Admits(GetRoleQuery(env.params), env, t) <==> Visible(RowOf(t, "r"), Get(env.params, "now")) && RoleMatches(env.params, RowOf(t, "r"))
    ensures Admits(CountRoleQuery(env.params), env, t) <==> Admits(GetRoleQuery(env.params), env, t)
    ensures GetRoleQuery(env.params).page == None
  {
    var p := env.params;
    var opts := RoleFilters(p);
    assert RoleFilters(p - {"limit", "page"}) == opts;
    WindowThen(Some("r"), Present(opts), env, t, "r");
    AllHoldPresent(opts, env, t, "r");
    assert (forall i | 0 <= i < |opts| :: Truthy(opts[i].0) ==> Holds(opts[i].1, env, t, "r")) <==>
           (Truthy(opts[0].0) ==> Holds(opts[0].1, env, t, "r")) && (Truthy(opts[1].0) ==> Holds(opts[1].1, env, t, "r"));
  }

  /** List and count share their WHERE; the list selects `*`, the count `COUNT(*)`; both are well formed. */
  lemma RoleListShape(p: Props, i: nat)
    requires i < 2
    ensures GetRoleQuery(p).where == CountRoleQuery(p).where
    ensures GetRoleQuery(p).items == [SelectItem(All(None), None, false)] && CountRoleQuery(p).items == [RoleCount]
    ensures WellFormed(SelectStmt(GetRoleQuery(p))) && WellFormed(SelectStmt(CountRoleQuery(p)))
    ensures RoleFilters(p)[i].1 in GetRoleQuery(p).where <==> Truthy(RoleFilters(p)[i].0)
  {
    assert RoleFilters(p - {"limit", "page"}) == RoleFilters(p);
    GatedPresence(Window(Some("r"), Param("now")) + [Always], RoleFilters(p), i);
  }

  /** `insertRoleQuery()` */
  function InsertRoleQuery(): Script
  {
    [InsertStmt(Insert("acloc.roles", ["uuid", "name", "created", "createdBy"],
                       [InsertValue(Param("uuid"), true), InsertValue(Param("name"), true),
                        InsertValue(Param("now"), true), InsertValue(Param("createdBy"), false)])),
     SelectStmt(Reselect("acloc.roles", "roles", None, None))]
  }

  /** The insert is well formed and writes each column from the parameter of its name, `created` from `:now`. */
  lemma InsertRoleValues()
    ensures ScriptWellFormed(InsertRoleQuery())
    ensures var ins := InsertRoleQuery()[0].insert;
      && ValueOf(ins, "uuid") == Some(Param("uuid")) && ValueOf(ins, "name") == Some(Param("name"))
      && ValueOf(ins, "created") == Some(Param("now")) && ValueOf(ins, "createdBy") == Some(Param("createdBy"))
  {
    var ins := InsertRoleQuery()[0].insert;
    ValueAtIndex(ins.columns, ins.values, 0);
    ValueAtIndex(ins.columns, ins.values, 1);
    ValueAtIndex(ins.columns, ins.values, 2);
    ValueAtIndex(ins.columns, ins.values, 3);
  }

  const RolesTarget := Source("acloc.roles", "roles", false)
  const KeepUuid := Assignment(Column(None, "uuid"), Param("uuid"), false)

  function RoleChanges(p: Props): seq<(Value, Assignment)>
  {
    [(Get(p, "name"), Assignment(Column(None, "name"), Param("name"), true))]
  }

  /** `modifyRoleQuery({ name })` */
  function ModifyRoleQuery(p: Props): Script
  {
    [UpdateStmt(Update(RolesTarget, Present(RoleChanges(p)) + [KeepUuid], [ByUuid(Some("roles")), NotDeleted(Some("roles"))])),
     SelectStmt(Reselect("acloc.roles", "roles", Some("acloc.roles"), Some("roles")))]
  }

  /**
   * Modify is well formed, changes only the uuid's row while it is not
   * deleted, renames it when a name is given and leaves every other column
   * as it was.
   */
  lemma ModifyRoleEffect(env: Env, row: Props, column: string)
    ensures ScriptWellFormed(ModifyRoleQuery(env.params))
    ensures var u := ModifyRoleQuery(env.params)[0].update;
      Touches(u, env, row) <==> SqlEq(Get(row, "uuid"), Get(env.params, "uuid")) && IsNullValue(Get(row, "deleted"))
    ensures var u := ModifyRoleQuery(env.params)[0].update;
      var after := ApplyUpdate(u, env, row);
      Touches(u, env, row) ==>
        && Get(after, "name") == (if Truthy(Get(env.params, "name")) then Get(env.params, "name") else Get(row, "name"))
        && (column !in {"name", "uuid"} ==> Get(after, column) == Get(row, column))
  {
    var p := env.params;
    var u := ModifyRoleQuery(p)[0].update;
    GatedSetsSeparated(RoleChanges(p), KeepUuid);
    UuidGuardMeans(u, env, row, Some("roles"), Some("roles"));
    if Touches(u, env, row) {
      GatedAssignEffect(RoleChanges(p), [KeepUuid], env, "roles", row, "name");
      GatedValueAt(RoleChanges(p), "name", 0);
      if column !in {"name", "uuid"} {
        GatedAssignEffect(RoleChanges(p), [KeepUuid], env, "roles", row, column);
        GatedValueNone(RoleChanges(p), column);
      }
    }
  }

  /** `deleteRoleQuery()` */
  function DeleteRoleQuery(): Script
  {
    [DeleteStmt(Delete(RolesTarget, [ByUuid(Some("roles"))]))]
  }

  /** `softDeleteRoleQuery()` */
  function SoftDeleteRoleQuery(): Script
  {
    [UpdateStmt(Update(RolesTarget,
                       [Assignment(Column(None, "deleted"), Param("deleted"), true),
                        Assignment(Column(None, "deletedby"), Param("deletedBy"), false)],
                       [ByUuid(Some("roles")), NotDeleted(None)]))]
  }

  /**
   * The soft delete stamps the uuid's row while it is not deleted, and a
   * second one changes nothing; the hard delete removes the uuid's row.
   */
  lemma RoleDeletes(env: Env, row: Props)
    ensures var u := SoftDeleteRoleQuery()[0].update;
      && (Touches(u, env, row) <==> SqlEq(Get(row, "uuid"), Get(env.params, "uuid")) && IsNullValue(Get(row, "deleted")))
      && (Touches(u, env, row) ==>
            Get(ApplyUpdate(u, env, row), "deleted") == Sqlish(Get(env.params, "deleted")) &&
            Get(ApplyUpdate(u, env, row), "deletedby") == Sqlish(Get(env.params, "deletedBy")))
      && (Touches(u, env, row) && !IsNullValue(Get(env.params, "deleted")) ==> !Touches(u, env, ApplyUpdate(u, env, row)))
    ensures Removes(DeleteRoleQuery()[0].delete, env, row) <==> SqlEq(Get(row, "uuid"), Get(env.params, "uuid"))
  {
    var u := SoftDeleteRoleQuery()[0].update;
    SoftDeleteMeans(u, env, row, Some("roles"), None);
    HardDeleteMeans(DeleteRoleQuery()[0].delete, env, row, Some("roles"));
    if Touches(u, env, row) {
      AssignColumn(u.sets[1..], env, "roles", row, "deletedby");
      AssignColumn(u.sets, env, "roles", row, "deletedby");
    }
  }
}
