/** The place query builders. */
module PlaceRepository {
  import opened Js
  import opened Sql

  /** The coordinates row with the given latitude and longitude, by parameter. */
  const CoordinateByPosition := SubSelect("acloc.coordinates", [KeyMatch("latitude", ByParam("latitude")), KeyMatch("longitude", ByParam("longitude"))])

  /** The filters of `_placeSelectQuery`; the coordinate filter needs both latitude and longitude. */
  function PlaceFilters(f: Props): seq<(Value, Cond)>
  {
    [(Get(f, "uuid"), Cmp(Eq, Qualified("p", "uuid"), Param("uuid"))),
     (Get(f, "name"), Like(Qualified("p", "name"), "name")),
     (Get(f, "description"), Like(Qualified("p", "description"), "description")),
     (Get(f, "address"), Like(Qualified("p", "address"), "address")),
     (And(Get(f, "latitude"), Get(f, "longitude")), Cmp(Eq, Plain("fk_coordinate"), CoordinateByPosition))]
  }

  /** The fixed select list of `_placeSelectQuery`. */
  function PlaceItems(): seq<SelectItem>
  {
    Items([(Field(Column(Some("p"), "uuid")), None), (Field(Column(Some("p"), "name")), None),
           (Field(Column(Some("p"), "description")), None), (Field(Column(Some("p"), "address")), None),
           (Field(Column(Some("c"), "latitude")), None), (Field(Column(Some("c"), "longitude")), None),
           (Field(Column(Some("p"), "created")), None), (Field(Column(Some("p"), "createdby")), None)])
  }

  /**
   * `_placeSelectQuery(_pagination)({ count })(filters)`: the select list is
   * fixed, so the `count` argument has no effect.
   */
  function PlaceSelect(page: Option<Page>, f: Props): Select
  {
    Select(PlaceItems(),
           Source("acloc.places", "p", true),
           [Join(Inner, "acloc.coordinates", "c", [Cmp(Eq, Qualified("p", "fk_coordinate"), Qualified("c", "id"))])],
           [NotDeleted(Some("p"))] + (Window(Some("p"), Param("now")) + [Always] + Present(PlaceFilters(f))),
           page)
  }

  /** `getPlaceListQuery({ limit, page, ...rest })` */
  function GetPlaceListQuery(p: Props): Select
  {
    PlaceSelect(Some(PageOf(p)), p - {"limit", "page"})
  }

  /** `countPlaceListQuery(rest)` */
  function CountPlaceListQuery(p: Props): Select
  {
    PlaceSelect(None, p)
  }

  /** The filters a place's row matches: uuid exactly, name, description and address as substrings, and the coordinate when both halves are given. */
  predicate PlaceMatches(p: Props, ids: Lookup, r: Props)
  {
    (Truthy(Get(p, "uuid")) ==> SqlEq(Get(r, "uuid"), Get(p, "uuid"))) &&
    (Truthy(Get(p, "name")) ==> Substring(Get(r, "name"), Get(p, "name"))) &&
    (Truthy(Get(p, "description")) ==> Substring(Get(r, "description"), Get(p, "description"))) &&
    (Truthy(Get(p, "address")) ==> Substring(Get(r, "address"), Get(p, "address"))) &&
    (Truthy(Get(p, "latitude")) && Truthy(Get(p, "longitude")) ==>
       SqlEq(Get(r, "fk_coordinate"), ids("acloc.coordinates", [("latitude", Get(p, "latitude")), ("longitude", Get(p, "longitude"))])))
  }

  lemma PlaceMatchesGates(env: Env, t: Tuple)
    requires PlaceMatches(env.params, env.ids, RowOf(t, "p"))
    ensures forall i | 0 <= i < 5 :: Truthy(PlaceFilters(env.params)[i].0) ==> Holds(PlaceFilters(env.params)[i].1, env, t, "p")
  {
    var opts := PlaceFilters(env.params);
    forall i | 0 <= i < 5 && Truthy(opts[i].0)
      ensures Holds(opts[i].1, env, t, "p")
    {
      if i == 4 {
        assert KeyValues(CoordinateByPosition.keys, env.params) == [("latitude", Get(env.params, "latitude")), ("longitude", Get(env.params, "longitude"))];
      }
    }
  }

  lemma PlaceGatesMatch(env: Env, t: Tuple)
    requires forall i | 0 <= i < 5 :: Truthy(PlaceFilters(env.params)[i].0) ==> Holds(PlaceFilters(env.params)[i].1, env, t, "p")
    ensures PlaceMatches(env.params, env.ids, RowOf(t, "p"))
  {
    var opts := PlaceFilters(env.params);
    assert Truthy(opts[0].0) ==> Holds(opts[0].1, env, t, "p");
    assert Truthy(opts[1].0) ==> Holds(opts[1].1, env, t, "p");
    assert Truthy(opts[2].0) ==> Holds(opts[2].1, env, t, "p");
    assert Truthy(opts[3].0) ==> Holds(opts[3].1, env, t, "p");
    assert Truthy(opts[4].0) ==> Holds(opts[4].1, env, t, "p");
    if Truthy(Get(env.params, "latitude")) && Truthy(Get(env.params, "longitude")) {
      assert KeyValues(CoordinateByPosition.keys, env.params) == [("latitude", Get(env.params, "latitude")), ("longitude", Get(env.params, "longitude"))];
    }
  }

  /** The gated filter clauses hold exactly when the place's row matches every filter given. */
  lemma PlaceFiltersMean(env: Env, t: Tuple)
    ensures AllHold(Present(PlaceFilters(env.params)), env, t, "p") <==> PlaceMatches(env.params, env.ids, RowOf(t, "p"))
  {
    AllHoldPresent(PlaceFilters(env.params), env, t, "p");
    if PlaceMatches(env.params, env.ids, RowOf(t, "p")) {
      PlaceMatchesGates(env, t);
    }
    var opts := PlaceFilters(env.params);
    if forall i | 0 <= i < 5 :: Truthy(opts[i].0) ==> Holds(opts[i].1, env, t, "p") {
      PlaceGatesMatch(env, t);
    }
  }

  /**
   * List and count select the same places: those joined to their
   * coordinates, never soft-deleted (the extra `deleted IS NULL` hides a
   * place even before its deletion time), created by `now`, and matching
   * the filters given.
   */
  lemma PlaceListMeaning(env: Env, t: Tuple)
    ensures Admits(GetPlaceListQuery(env.params), env, t) <==>
            && SqlEq(Get(RowOf(t, "p"), "fk_coordinate"), Get(RowOf(t, "c"), "id"))
            && IsNullValue(Get(RowOf(t, "p"), "deleted"))
            && Before(Get(RowOf(t, "p"), "created"), Get(env.params, "now"))
            && PlaceMatches(env.params, env.ids, RowOf(t, "p"))
    ensures Admits(CountPlaceListQuery(env.params), env, t) <==> Admits(GetPlaceListQuery(env.params), env, t)
  {
    var p := env.params;
    assert PlaceFilters(p - {"limit", "page"}) == PlaceFilters(p);
    var q := GetPlaceListQuery(p);
    var rest := Window(Some("p"), Param("now")) + [Always] + Present(PlaceFilters(p));
    assert q.where == [NotDeleted(Some("p"))] + rest;
    AllHoldAppend([NotDeleted(Some("p"))], rest, env, t, "p");
    assert [NotDeleted(Some("p"))][1..] == [];
    WindowThen(Some("p"), Present(PlaceFilters(p)), env, t, "p");
    PlaceFiltersMean(env, t);
    var on := q.joins[0].on;
    assert on[1..] == [];
    assert AllHold(on, env, t, "p") <==> SqlEq(Get(RowOf(t, "p"), "fk_coordinate"), Get(RowOf(t, "c"), "id"));
  }

  /**
   * The count query is the list query without pagination: it selects the
   * same fixed columns, not a count. Both are well formed, and each filter
   * is present iff given.
   */
  lemma PlaceListShape(p: Props, i: nat)
    requires i < 5
    ensures CountPlaceListQuery(p) == GetPlaceListQuery(p).(page := None)
    ensures CountPlaceListQuery(p).items == PlaceItems() && |PlaceItems()| == 8
    ensures forall k | 0 <= k < |PlaceItems()| :: PlaceItems()[k].alias != Some("count")
    ensures WellFormed(SelectStmt(GetPlaceListQuery(p))) && WellFormed(SelectStmt(CountPlaceListQuery(p)))
    ensures PlaceFilters(p)[i].1 in GetPlaceListQuery(p).where <==> Truthy(PlaceFilters(p)[i].0)
  {
    var opts := PlaceFilters(p);
    assert PlaceFilters(p - {"limit", "page"}) == opts;
    var fixed := [NotDeleted(Some("p"))] + (Window(Some("p"), Param("now")) + [Always]);
    assert GetPlaceListQuery(p).where == fixed + Present(opts);
    GatedPresence(fixed, opts, i);
  }

  /** `insertPlaceQuery({ description, address, createdBy })` */
  function InsertPlaceQuery(p: Props): Script
  {
    [InsertStmt(Insert("acloc.places", ["uuid", "name", "description", "address", "fk_coordinates", "created", "createdBy"],
                       [InsertValue(Param("uuid"), true), InsertValue(Param("name"), true),
                        InsertValue(if Truthy(Get(p, "description")) then Param("description") else NullLit, true),
                        InsertValue(if Truthy(Get(p, "address")) then Param("address") else NullLit, true),
                        InsertValue(CoordinateByPosition, true),
                        InsertValue(Param("now"), true),
                        InsertValue(if Truthy(Get(p, "createdBy")) then Equals(Plain("createdBy"), Param("createdBy")) else NullLit, false)]))]
  }

  /**
   * The insert is well formed and has no re-read; description and address
   * are a literal null when absent; the coordinate is found by position;
   * with a creator, the `createdBy` column is written the comparison
   * `createdBy = :createdBy` rather than the creator itself.
   */
  lemma InsertPlaceValues(p: Props)
    ensures ScriptWellFormed(InsertPlaceQuery(p)) && |InsertPlaceQuery(p)| == 1
    ensures var ins := InsertPlaceQuery(p)[0].insert;
      && ValueOf(ins, "description") == Some(if Truthy(Get(p, "description")) then Param("description") else NullLit)
      && ValueOf(ins, "address") == Some(if Truthy(Get(p, "address")) then Param("address") else NullLit)
      && ValueOf(ins, "fk_coordinates") == Some(CoordinateByPosition)
      && ValueOf(ins, "createdBy") == Some(if Truthy(Get(p, "createdBy")) then Equals(Plain("createdBy"), Param("createdBy")) else NullLit)
      && (Truthy(Get(p, "createdBy")) ==> ValueOf(ins, "createdBy") != Some(Param("createdBy")))
  {
    var ins := InsertPlaceQuery(p)[0].insert;
    ValueAtIndex(ins.columns, ins.values, 2);
    ValueAtIndex(ins.columns, ins.values, 3);
    ValueAtIndex(ins.columns, ins.values, 4);
    ValueAtIndex(ins.columns, ins.values, 6);
  }

  /** The optional assignments of `updatePlaceQuery`; the address one alone carries no comma. */
  function PlaceChanges(p: Props): seq<(Value, Assignment)>
  {
    [(Get(p, "name"), Assignment(Column(None, "name"), Param("name"), true)),
     (Get(p, "description"), Assignment(Column(None, "description"), Param("description"), true)),
     (Get(p, "address"), Assignment(Column(None, "address"), Param("address"), false)),
     (And(Get(p, "latitude"), Get(p, "longitude")), Assignment(Column(None, "fk_coordinate"), CoordinateByPosition, true))]
  }

  /** `p.uuid = :uuid AND p.deleted IS NULL` and the window at the database clock. */
  function PlaceGuard(): seq<Cond>
  {
    [ByUuid(Some("p")), NotDeleted(Some("p"))] + Window(Some("p"), Now)
  }

  /** `updatePlaceQuery({ name, description, address, latitude, longitude })` */
  function UpdatePlaceQuery(p: Props): Script
  {
    [UpdateStmt(Update(Source("acloc.places", "p", true), Present(PlaceChanges(p)), PlaceGuard()))]
  }

  /**
   * The guard shared by update and delete: the uuid's row, not deleted,
   * created no later than the database clock.
   */
  lemma PlaceGuardMeans(u: Update, env: Env, row: Props)
    requires u.target.name == "p" && u.where == PlaceGuard()
    ensures Touches(u, env, row) <==>
            SqlEq(Get(row, "uuid"), Get(env.params, "uuid")) && IsNullValue(Get(row, "deleted")) && Before(Get(row, "created"), Num(env.dbNow))
  {
    var t := map["p" := row];
    var head := [ByUuid(Some("p")), NotDeleted(Some("p"))];
    AllHoldAppend(head, Window(Some("p"), Now), env, t, "p");
    WindowMeans("p", Now, env, t, "p");
    assert RowOf(t, "p") == row;
    assert head[1..][1..] == [];
    assert AllHold(head[1..], env, t, "p") <==> Holds(head[1], env, t, "p");
  }

  /**
   * The update's SET list is well formed exactly when an address is given
   * and the coordinate is not: any other combination leaves a trailing
   * comma, a missing comma or an empty list.
   */
  lemma UpdatePlaceWellFormed(p: Props)
    ensures ScriptWellFormed(UpdatePlaceQuery(p)) <==> Truthy(Get(p, "address")) && !(Truthy(Get(p, "latitude")) && Truthy(Get(p, "longitude")))
  {
    var opts := PlaceChanges(p);
    var n, d, a, c := Truthy(opts[0].0), Truthy(opts[1].0), Truthy(opts[2].0), Truthy(opts[3].0);
    var o1 := opts[1..];
    var o2 := o1[1..];
    var o3 := o2[1..];
    assert o3[1..] == [];
    assert Present(o3) == (if c then [opts[3].1] else []);
    assert Present(o2) == (if a then [opts[2].1] else []) + Present(o3);
    assert Present(o1) == (if d then [opts[1].1] else []) + Present(o2);
    assert Present(opts) == (if n then [opts[0].1] else []) + Present(o1);
    var script := UpdatePlaceQuery(p);
    assert |script| == 1 && script[0].update.sets == Present(opts);
    assert ScriptWellFormed(script) <==> WellFormed(script[0]);
    MissingCommaShape(opts[0].1, opts[1].1, opts[2].1, opts[3].1, n, d, a, c);
  }

  /** Four optional items, the third alone without a comma: separated exactly when the third is present and the fourth is not. */
  lemma MissingCommaShape(x0: Assignment, x1: Assignment, x2: Assignment, x3: Assignment, n: bool, d: bool, a: bool, c: bool)
    requires x0.comma && x1.comma && !x2.comma && x3.comma
    ensures Separated(SetCommas((if n then [x0] else []) + ((if d then [x1] else []) + ((if a then [x2] else []) + (if c then [x3] else []))))) <==> a && !c
  {
    var front := (if n then [x0] else []) + (if d then [x1] else []);
    var sets := (if n then [x0] else []) + ((if d then [x1] else []) + ((if a then [x2] else []) + (if c then [x3] else [])));
    var commas := SetCommas(sets);
    if c {
      assert sets[|sets| - 1] == x3;
    } else if a {
      assert sets == front + [x2];
      assert forall k | 0 <= k < |sets| - 1 :: sets[k] in front;
    } else {
      assert sets == front;
      if sets != [] {
        assert sets[|sets| - 1] in front;
      }
    }
  }

  /**
   * On the row a well-formed update changes, name and description take
   * their new values when given, the address its new value, and every
   * other column keeps its value; the coordinate is never reassigned by a
   * well-formed update.
   */
  lemma UpdatePlaceEffect(env: Env, row: Props, column: string)
    requires ScriptWellFormed(UpdatePlaceQuery(env.params))
    ensures var u := UpdatePlaceQuery(env.params)[0].update;
      Touches(u, env, row) <==>
        SqlEq(Get(row, "uuid"), Get(env.params, "uuid")) && IsNullValue(Get(row, "deleted")) && Before(Get(row, "created"), Num(env.dbNow))
    ensures var u := UpdatePlaceQuery(env.params)[0].update;
      var p := env.params;
      var after := ApplyUpdate(u, env, row);
      Touches(u, env, row) ==>
        && Get(after, "name") == (if Truthy(Get(p, "name")) then Get(p, "name") else Get(row, "name"))
        && Get(after, "description") == (if Truthy(Get(p, "description")) then Get(p, "description") else Get(row, "description"))
        && Get(after, "address") == Get(p, "address")
        && (column !in {"name", "description", "address"} ==> Get(after, column) == Get(row, column))
  {
    var p := env.params;
    var u := UpdatePlaceQuery(p)[0].update;
    var opts := PlaceChanges(p);
    UpdatePlaceWellFormed(p);
    PlaceGuardMeans(u, env, row);
    if Touches(u, env, row) {
      assert Present(opts) + [] == Present(opts);
      GatedAssignEffect(opts, [], env, "p", row, "name");
      GatedValueAt(opts, "name", 0);
      GatedAssignEffect(opts, [], env, "p", row, "description");
      GatedValueAt(opts, "description", 1);
      GatedAssignEffect(opts, [], env, "p", row, "address");
      GatedValueAt(opts, "address", 2);
      if column !in {"name", "description", "address"} {
        GatedAssignEffect(opts, [], env, "p", row, column);
        if column == "fk_coordinate" {
          GatedValueAt(opts, column, 3);
        } else {
          GatedValueNone(opts, column);
        }
      }
    }
  }

  /** `deletePlaceQuery()`: a soft delete under the same guard as the update. */
  function DeletePlaceQuery(): Script
  {
    [UpdateStmt(Update(Source("acloc.places", "p", true),
                       [Assignment(Column(None, "deleted"), Param("deleted"), true),
                        Assignment(Column(None, "deletedby"), Param("deletedBy"), false)],
                       PlaceGuard()))]
  }

  /**
   * The delete stamps `deleted` and `deletedby` on the uuid's live row and,
   * with a non-null deletion time, a second delete changes nothing.
   */
  lemma DeletePlaceEffect(env: Env, row: Props)
    ensures ScriptWellFormed(DeletePlaceQuery())
    ensures var u := DeletePlaceQuery()[0].update;
      && (Touches(u, env, row) <==>
            SqlEq(Get(row, "uuid"), Get(env.params, "uuid")) && IsNullValue(Get(row, "deleted")) && Before(Get(row, "created"), Num(env.dbNow)))
      && (Touches(u, env, row) ==>
            Get(ApplyUpdate(u, env, row), "deleted") == Sqlish(Get(env.params, "deleted")) &&
            Get(ApplyUpdate(u, env, row), "deletedby") == Sqlish(Get(env.params, "deletedBy")))
      && (Touches(u, env, row) && !IsNullValue(Get(env.params, "deleted")) ==> !Touches(u, env, ApplyUpdate(u, env, row)))
  {
    var u := DeletePlaceQuery()[0].update;
    PlaceGuardMeans(u, env, row);
    if Touches(u, env, row) {
      AssignColumn(u.sets, env, "p", row, "deleted");
      AssignColumn(u.sets[1..], env, "p", row, "deletedby");
      AssignColumn(u.sets, env, "p", row, "deletedby");
      if !IsNullValue(Get(env.params, "deleted")) {
        SoftDeleteOnce(u, env, row, 1);
      }
    }
  }
}
