/** The user query builders: list, count, insert, modify, soft and hard delete. */
module UserRepository {
  import opened Js
  import opened Sql

  const UsersTable := Source("dbmaster.users", "users", true)

  /** The filters of `_userListSelectQuery`, in order, each with the parameter that switches it on. */
  function UserFilters(f: Props): seq<(Value, Cond)>
  {
    [(Get(f, "uuid"), Cmp(Eq, Qualified("users", "uuid"), Param("uuid"))),
     (Get(f, "uuidList"), InList(Qualified("users", "uuid"), "uuidList")),
     (Get(f, "username"), Like(Qualified("users", "username"), "username")),
     (Get(f, "email"), Cmp(Eq, Qualified("users", "email"), Param("email"))),
     (Get(f, "role"), Cmp(Eq, Qualified("users", "fk_role"), Param("role"))),
     (Get(f, "loginUsername"), Cmp(Eq, Qualified("users", "username"), Param("loginUsername"))),
     (Get(f, "roleName"), Cmp(Eq, Qualified("users", "fk_role"), SubSelect("dbmaster.roles", [KeyMatch("name", ByParam("roleName"))])))]
  }

  /** `_userListSelectQuery(_pagination)({ count })(filters)` */
  function UserListSelect(page: Option<Page>, count: Option<SelectItem>, f: Props): Select
  {
    Select(CountOr(count, Items([(All(Some("users")), None), (Field(Column(Some("r"), "name")), Some("role"))])),
           UsersTable,
           [Join(LeftOuter, "dbmaster.roles", "r", [Cmp(Eq, Qualified("users", "fk_role"), Qualified("r", "id"))])],
           Window(Some("users"), Param("now")) + [Always] + Present(UserFilters(f)),
           page)
  }

  /** `getUserListQuery({ limit, page, ...rest })` */
  function GetUserListQuery(p: Props): Select
  {
    UserListSelect(Some(PageOf(p)), None, p - {"limit", "page"})
  }

  const UserCount := SelectItem(CountDistinct(Column(Some("users"), "uuid")), Some("count"), false)

  /** `countUserListQuery(rest)` */
  function CountUserListQuery(p: Props): Select
  {
    UserListSelect(None, Some(UserCount), p)
  }

  /** The filters a user's row matches: each one given, `username` as a substring, the others exactly. */
  predicate UserMatches(p: Props, ids: Lookup, u: Props)
  {
    (Truthy(Get(p, "uuid")) ==> SqlEq(Get(u, "uuid"), Get(p, "uuid"))) &&
    (Truthy(Get(p, "uuidList")) ==> OneOf(Get(u, "uuid"), Get(p, "uuidList"))) &&
    (Truthy(Get(p, "username")) ==> Substring(Get(u, "username"), Get(p, "username"))) &&
    (Truthy(Get(p, "email")) ==> SqlEq(Get(u, "email"), Get(p, "email"))) &&
    (Truthy(Get(p, "role")) ==> SqlEq(Get(u, "fk_role"), Get(p, "role"))) &&
    (Truthy(Get(p, "loginUsername")) ==> SqlEq(Get(u, "username"), Get(p, "loginUsername"))) &&
    (Truthy(Get(p, "roleName")) ==> SqlEq(Get(u, "fk_role"), ids("dbmaster.roles", [("name", Get(p, "roleName"))])))
  }

  /** The gated filter clauses hold exactly when the user's row matches every filter given. */
  lemma UserFiltersMean(env: Env, t: Tuple)
    ensures AllHold(Present(UserFilters(env.params)), env, t, "users") <==> UserMatches(env.params, env.ids, RowOf(t, "users"))
  {
    AllHoldPresent(UserFilters(env.params), env, t, "users");
    if UserMatches(env.params, env.ids, RowOf(t, "users")) {
      UserMatchesGates(env, t);
    }
    var opts := UserFilters(env.params);
    if forall i | 0 <= i < 7 :: Truthy(opts[i].0) ==> Holds(opts[i].1, env, t, "users") {
      UserGatesMatch(env, t);
    }
  }

  lemma UserMatchesGates(env: Env, t: Tuple)
    requires UserMatches(env.params, env.ids, RowOf(t, "users"))
    ensures forall i | 0 <= i < 7 :: Truthy(UserFilters(env.params)[i].0) ==> Holds(UserFilters(env.params)[i].1, env, t, "users")
  {
    var opts := UserFilters(env.params);
    forall i | 0 <= i < 7 && Truthy(opts[i].0)
      ensures Holds(opts[i].1, env, t, "users")
    {
      if i == 6 {
        assert KeyValues([KeyMatch("name", ByParam("roleName"))], env.params) == [("name", Get(env.params, "roleName"))];
      }
    }
  }

  lemma UserGatesMatch(env: Env, t: Tuple)
    requires forall i | 0 <= i < 7 :: Truthy(UserFilters(env.params)[i].0) ==> Holds(UserFilters(env.params)[i].1, env, t, "users")
    ensures UserMatches(env.params, env.ids, RowOf(t, "users"))
  {
    var opts := UserFilters(env.params);
    assert Truthy(opts[0].0) ==> Holds(opts[0].1, env, t, "users");
    assert Truthy(opts[1].0) ==> Holds(opts[1].1, env, t, "users");
    assert Truthy(opts[2].0) ==> Holds(opts[2].1, env, t, "users");
    assert Truthy(opts[3].0) ==> Holds(opts[3].1, env, t, "users");
    assert Truthy(opts[4].0) ==> Holds(opts[4].1, env, t, "users");
    assert Truthy(opts[5].0) ==> Holds(opts[5].1, env, t, "users");
    assert Truthy(opts[6].0) ==> Holds(opts[6].1, env, t, "users");
    assert KeyValues([KeyMatch("name", ByParam("roleName"))], env.params) == [("name", Sqlish(Get(env.params, "roleName")))];
  }

  /**
   * List and count select the same users: those visible at `now` whose row
   * matches every filter given; a falsy filter constrains nothing.
   */
  lemma UserListMeaning(env: Env, t: Tuple)
    ensures Admits(GetUserListQuery(env.params), env, t) <==>
            Visible(RowOf(t, "users"), Get(env.params, "now")) && UserMatches(env.params, env.ids, RowOf(t, "users"))
    ensures Admits(CountUserListQuery(env.params), env, t) <==> Admits(GetUserListQuery(env.params), env, t)
  {
    assert UserFilters(env.params - {"limit", "page"}) == UserFilters(env.params);
    WindowThen(Some("users"), Present(UserFilters(env.params)), env, t, "users");
    UserFiltersMean(env, t);
  }

  /**
   * List and count share FROM, joins and WHERE; the list selects `users.*`
   * and the role name and is paginated, the count selects
   * `COUNT(DISTINCT(users.uuid))` without pagination.
   */
  lemma UserListShape(p: Props)
    ensures GetUserListQuery(p).where == CountUserListQuery(p).where
    ensures GetUserListQuery(p).joins == CountUserListQuery(p).joins && GetUserListQuery(p).from == CountUserListQuery(p).from
    ensures GetUserListQuery(p).page == Some(PageOf(p)) && CountUserListQuery(p).page == None
    ensures CountUserListQuery(p).items == [UserCount]
    ensures |GetUserListQuery(p).items| == 2 && GetUserListQuery(p).items[0].what == All(Some("users"))
    ensures WellFormed(SelectStmt(GetUserListQuery(p))) && WellFormed(SelectStmt(CountUserListQuery(p)))
  {
    assert UserFilters(p - {"limit", "page"}) == UserFilters(p);
  }

  /** Each filter clause is in the WHERE list exactly when its parameter is truthy. */
  lemma UserFilterPresence(p: Props, i: nat)
    requires i < 7
    ensures UserFilters(p)[i].1 in GetUserListQuery(p).where <==> Truthy(UserFilters(p)[i].0)
  {
    assert UserFilters(p - {"limit", "page"}) == UserFilters(p);
    GatedPresence(Window(Some("users"), Param("now")) + [Always], UserFilters(p), i);
  }

  /** `insertUserQuery({ email, fk_role, createdBy })`: the insert, then the re-select by uuid. */
  function InsertUserQuery(p: Props): Script
  {
    var email := if Truthy(Get(p, "email")) then Param("email") else NullLit;
    var role := if Truthy(Get(p, "fk_role")) then ByParam("fk_role") else ByText("viewer");
    var createdBy := if Truthy(Get(p, "createdBy")) then Param("createdBy") else NullLit;
    [InsertStmt(Insert("dbmaster.users", ["uuid", "username", "password", "email", "fk_role", "createdBy", "created"],
                       [InsertValue(Param("uuid"), true), InsertValue(Param("username"), true),
                        InsertValue(Param("password"), true), InsertValue(email, true),
                        InsertValue(SubSelect("dbmaster.roles", [KeyMatch("name", role)]), true),
                        InsertValue(createdBy, true), InsertValue(Param("now"), false)])),
     SelectStmt(Reselect("dbmaster.users", "users", None, None))]
  }

  /**
   * The insert is well formed; the role is looked up by the given name, or
   * 'viewer' without one; an absent email or creator is written as a literal
   * null; the creation time is `:now`.
   */
  lemma InsertUserValues(p: Props)
    ensures ScriptWellFormed(InsertUserQuery(p))
    ensures var ins := InsertUserQuery(p)[0].insert;
      && ValueOf(ins, "fk_role") == Some(SubSelect("dbmaster.roles",
           [KeyMatch("name", if Truthy(Get(p, "fk_role")) then ByParam("fk_role") else ByText("viewer"))]))
      && ValueOf(ins, "email") == Some(if Truthy(Get(p, "email")) then Param("email") else NullLit)
      && ValueOf(ins, "createdBy") == Some(if Truthy(Get(p, "createdBy")) then Param("createdBy") else NullLit)
      && ValueOf(ins, "created") == Some(Param("now"))
      && ValueOf(ins, "uuid") == Some(Param("uuid"))
  {
    var ins := InsertUserQuery(p)[0].insert;
    ValueAtIndex(ins.columns, ins.values, 0);
    ValueAtIndex(ins.columns, ins.values, 3);
    ValueAtIndex(ins.columns, ins.values, 4);
    ValueAtIndex(ins.columns, ins.values, 5);
    ValueAtIndex(ins.columns, ins.values, 6);
  }

  /** The optional assignments of `modifyUserQuery`, each with the parameter that switches it on. */
  function UserChanges(p: Props): seq<(Value, Assignment)>
  {
    [(Get(p, "username"), Assignment(Column(None, "username"), Param("username"), true)),
     (Get(p, "password"), Assignment(Column(None, "password"), Param("password"), true)),
     (Get(p, "email"), Assignment(Column(None, "email"), Param("email"), true)),
     (Get(p, "role"), Assignment(Column(None, "fk_role"), SubSelect("dbmaster.roles", [KeyMatch("name", ByParam("role"))]), true))]
  }

  const KeepUuid := Assignment(Column(None, "uuid"), Param("uuid"), false)

  /** `modifyUserQuery({ username, password, email, role })`: the update, then the re-select by uuid. */
  function ModifyUserQuery(p: Props): Script
  {
    [UpdateStmt(Update(Source("dbmaster.users", "users", false), Present(UserChanges(p)) + [KeepUuid],
                       [ByUuid(Some("users")), NotDeleted(Some("users"))])),
     SelectStmt(Reselect("dbmaster.users", "users", Some("dbmaster.users"), Some("users")))]
  }

  /** Modify is well formed whatever is given, and changes only the uuid's row, and only while that row is not deleted. */
  lemma ModifyUserGuard(env: Env, row: Props)
    ensures ScriptWellFormed(ModifyUserQuery(env.params))
    ensures var u := ModifyUserQuery(env.params)[0].update;
      Touches(u, env, row) <==> SqlEq(Get(row, "uuid"), Get(env.params, "uuid")) && IsNullValue(Get(row, "deleted"))
  {
    GatedSetsSeparated(UserChanges(env.params), KeepUuid);
    UuidGuardMeans(ModifyUserQuery(env.params)[0].update, env, row, Some("users"), Some("users"));
  }

  /**
   * On the row it changes, each given field takes its new value (the role
   * by name lookup) and every other column, `deleted` included, keeps its
   * value.
   */
  lemma ModifyUserEffect(env: Env, row: Props, name: string)
    ensures var u := ModifyUserQuery(env.params)[0].update;
      var p := env.params;
      var after := ApplyUpdate(u, env, row);
      Touches(u, env, row) ==>
        && Get(after, "username") == (if Truthy(Get(p, "username")) then Get(p, "username") else Get(row, "username"))
        && Get(after, "password") == (if Truthy(Get(p, "password")) then Get(p, "password") else Get(row, "password"))
        && Get(after, "email") == (if Truthy(Get(p, "email")) then Get(p, "email") else Get(row, "email"))
        && Get(after, "fk_role") == (if Truthy(Get(p, "role")) then Sqlish(env.ids("dbmaster.roles", [("name", Get(p, "role"))])) else Get(row, "fk_role"))
        && (name !in {"username", "password", "email", "fk_role", "uuid"} ==> Get(after, name) == Get(row, name))
  {
    var p := env.params;
    var u := ModifyUserQuery(p)[0].update;
    if Touches(u, env, row) {
      var opts := UserChanges(p);
      GatedAssignEffect(opts, [KeepUuid], env, "users", row, "username");
      GatedValueAt(opts, "username", 0);
      GatedAssignEffect(opts, [KeepUuid], env, "users", row, "password");
      GatedValueAt(opts, "password", 1);
      GatedAssignEffect(opts, [KeepUuid], env, "users", row, "email");
      GatedValueAt(opts, "email", 2);
      GatedAssignEffect(opts, [KeepUuid], env, "users", row, "fk_role");
      GatedValueAt(opts, "fk_role", 3);
      assert KeyValues([KeyMatch("name", ByParam("role"))], p) == [("name", Sqlish(Get(p, "role")))];
      if name !in {"username", "password", "email", "fk_role", "uuid"} {
        GatedAssignEffect(opts, [KeepUuid], env, "users", row, name);
        GatedValueNone(opts, name);
      }
    }
  }

  /** `deleteUserQuery()`: a hard delete by uuid. */
  function DeleteUserQuery(): Script
  {
    [DeleteStmt(Delete(Source("dbmaster.users", "users", false), [ByUuid(Some("users"))]))]
  }

  /** `softDeleteUserQuery()` */
  function SoftDeleteUserQuery(): Script
  {
    [UpdateStmt(Update(Source("dbmaster.users", "users", false),
                       [Assignment(Column(None, "deleted"), Param("deleted"), true),
                        Assignment(Column(None, "deletedby"), Param("deletedBy"), false)],
                       [ByUuid(Some("users")), NotDeleted(None)]))]
  }

  /**
   * The soft delete stamps `deleted` and `deletedby` on the uuid's row only
   * while it is not deleted, so a second soft delete changes nothing; the
   * hard delete removes the uuid's row whether or not it is soft-deleted.
   */
  lemma UserDeletes(env: Env, row: Props)
    ensures var u := SoftDeleteUserQuery()[0].update;
      && (Touches(u, env, row) <==> SqlEq(Get(row, "uuid"), Get(env.params, "uuid")) && IsNullValue(Get(row, "deleted")))
      && (Touches(u, env, row) ==>
            Get(ApplyUpdate(u, env, row), "deleted") == Sqlish(Get(env.params, "deleted")) &&
            Get(ApplyUpdate(u, env, row), "deletedby") == Sqlish(Get(env.params, "deletedBy")))
      && (Touches(u, env, row) && !IsNullValue(Get(env.params, "deleted")) ==> !Touches(u, env, ApplyUpdate(u, env, row)))
    ensures Removes(DeleteUserQuery()[0].delete, env, row) <==> SqlEq(Get(row, "uuid"), Get(env.params, "uuid"))
  {
    var u := SoftDeleteUserQuery()[0].update;
    SoftDeleteMeans(u, env, row, Some("users"), None);
    HardDeleteMeans(DeleteUserQuery()[0].delete, env, row, Some("users"));
    if Touches(u, env, row) {
      AssignColumn(u.sets[1..], env, "users", row, "deletedby");
      AssignColumn(u.sets, env, "users", row, "deletedby");
    }
  }
}
