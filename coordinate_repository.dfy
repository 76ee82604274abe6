/** The coordinate query builders. */
module CoordinateRepository {
  import opened Js
  import opened Sql

  /** The filters of `_coordinatesSelectQuery`. */
  function CoordinateFilters(f: Props): seq<(Value, Cond)>
  {
    [(Get(f, "uuid"), Cmp(Eq, Qualified("c", "uuid"), Param("uuid"))),
     (Get(f, "latitude"), Cmp(Eq, Qualified("c", "latitude"), Param("latitude"))),
     (Get(f, "longitude"), Cmp(Eq, Qualified("c", "longitude"), Param("longitude")))]
  }

  /** The default select list of `_coordinatesSelectQuery`. */
  function CoordinateItems(): seq<SelectItem>
  {
    Items([(Field(Column(Some("c"), "uuid")), None), (Field(Column(Some("c"), "created")), None),
           (Field(Column(Some("c"), "createdby")), None), (Field(Column(Some("c"), "latitude")), None),
           (Field(Column(Some("c"), "longitude")), None)])
  }

  /** `_coordinatesSelectQuery(_pagination)({ count })(filters)` */
  function CoordinateSelect(page: Option<Page>, count: Option<SelectItem>, f: Props): Select
  {
    Select(CountOr(count, CoordinateItems()),
           Source("acloc.coordinates", "c", true), [],
           Window(Some("c"), Param("now")) + [Always] + Present(CoordinateFilters(f)),
           page)
  }

  /** `getCoordinatesListQuery({ limit, page, ...rest })` */
  function GetCoordinatesListQuery(p: Props): Select
  {
    CoordinateSelect(Some(PageOf(p)), None, p - {"limit", "page"})
  }

  const CoordinateCount := SelectItem(CountDistinct(Column(Some("c"), "uuid")), Some("count"), false)

  /** `countCoordinatesListQuery(rest)` */
  function CountCoordinatesListQuery(p: Props): Select
  {
    CoordinateSelect(None, Some(CoordinateCount), p)
  }

  /** The filters a coordinate's row matches: uuid, latitude and longitude, exactly, each when given. */
  predicate CoordinateMatches(p: Props, r: Props)
  {
    (Truthy(Get(p, "uuid")) ==> SqlEq(Get(r, "uuid"), Get(p, "uuid"))) &&
    (Truthy(Get(p, "latitude")) ==> SqlEq(Get(r, "latitude"), Get(p, "latitude"))) &&
    (Truthy(Get(p, "longitude")) ==> SqlEq(Get(r, "longitude"), Get(p, "longitude")))
  }

  /** List and count select the same coordinates: those visible at `now` matching the filters given. */
  lemma CoordinateListMeaning(env: Env, t: Tuple)
    ensures Admits(GetCoordinatesListQuery(env.params), env, t) <==>
            Visible(RowOf(t, "c"), Get(env.params, "now")) && CoordinateMatches(env.params, RowOf(t, "c"))
    ensures Admits(CountCoordinatesListQuery(env.params), env, t) <==> Admits(GetCoordinatesListQuery(env.params), env, t)
  {
    var p := env.params;
    var opts := CoordinateFilters(p);
    assert CoordinateFilters(p - {"limit", "page"}) == opts;
    WindowThen(Some("c"), Present(opts), env, t, "c");
    AllHoldPresent(opts, env, t, "c");
    assert (forall i | 0 <= i < |opts| :: Truthy(opts[i].0) ==> Holds(opts[i].1, env, t, "c")) <==>
           (Truthy(opts[0].0) ==> Holds(opts[0].1, env, t, "c")) &&
           (Truthy(opts[1].0) ==> Holds(opts[1].1, env, t, "c")) &&
           (Truthy(opts[2].0) ==> Holds(opts[2].1, env, t, "c"));
  }

  /** List and count share their WHERE; only the list is paginated; the count is of distinct uuids; each filter is present iff given. */
  lemma CoordinateListShape(p: Props, i: nat)
    requires i < 3
    ensures GetCoordinatesListQuery(p).where == CountCoordinatesListQuery(p).where
    ensures GetCoordinatesListQuery(p).page == Some(PageOf(p)) && CountCoordinatesListQuery(p).page == None
    ensures CountCoordinatesListQuery(p).items == [CoordinateCount] && |GetCoordinatesListQuery(p).items| == 5
    ensures WellFormed(SelectStmt(GetCoordinatesListQuery(p))) && WellFormed(SelectStmt(CountCoordinatesListQuery(p)))
    ensures CoordinateFilters(p)[i].1 in GetCoordinatesListQuery(p).where <==> Truthy(CoordinateFilters(p)[i].0)
  {
    assert CoordinateFilters(p - {"limit", "page"}) == CoordinateFilters(p);
    GatedPresence(Window(Some("c"), Param("now")) + [Always], CoordinateFilters(p), i);
  }

  const CoordinatesTarget := Source("acloc.coordinates", "coordinates", false)

  /** `insertCoordinatesQuery()` */
  function InsertCoordinatesQuery(): Script
  {
    [InsertStmt(Insert("acloc.coordinates", ["uuid", "latitude", "longitude", "created", "createdBy"],
                       [InsertValue(Param("uuid"), true), InsertValue(Param("latitude"), true),
                        InsertValue(Param("longitude"), true), InsertValue(Param("now"), true),
                        InsertValue(Param("createdBy"), false)])),
     SelectStmt(Reselect("acloc.coordinates", "coordinates", None, None))]
  }

  /** The insert is well formed and writes each column from the parameter of its name, `created` from `:now`. */
  lemma InsertCoordinateValues()
    ensures ScriptWellFormed(InsertCoordinatesQuery())
    ensures var ins := InsertCoordinatesQuery()[0].insert;
      && ValueOf(ins, "latitude") == Some(Param("latitude")) && ValueOf(ins, "longitude") == Some(Param("longitude"))
      && ValueOf(ins, "created") == Some(Param("now")) && ValueOf(ins, "createdBy") == Some(Param("createdBy"))
  {
    var ins := InsertCoordinatesQuery()[0].insert;
    ValueAtIndex(ins.columns, ins.values, 1);
    ValueAtIndex(ins.columns, ins.values, 2);
    ValueAtIndex(ins.columns, ins.values, 3);
    ValueAtIndex(ins.columns, ins.values, 4);
  }

  const KeepUuid := Assignment(Column(None, "uuid"), Param("uuid"), false)

  function CoordinateChanges(latitude: Value, longitude: Value): seq<(Value, Assignment)>
  {
    [(latitude, Assignment(Column(None, "latitude"), Param("latitude"), true)),
     (longitude, Assignment(Column(None, "longitude"), Param("longitude"), true))]
  }

  /** `updateCoordinatesQuery(latitude, longitude)` */
  function UpdateCoordinatesQuery(latitude: Value, longitude: Value): Script
  {
    [UpdateStmt(Update(CoordinatesTarget, Present(CoordinateChanges(latitude, longitude)) + [KeepUuid], [ByUuid(None), NotDeleted(None)])),
     SelectStmt(Reselect("acloc.coordinates", "coordinates", None, None))]
  }

  /**
   * The update is well formed, changes only the uuid's row while it is not
   * deleted, sets latitude and longitude each when given and keeps every
   * other column.
   */
  lemma UpdateCoordinateEffect(latitude: Value, longitude: Value, env: Env, row: Props, column: string)
    ensures ScriptWellFormed(UpdateCoordinatesQuery(latitude, longitude))
    ensures var u := UpdateCoordinatesQuery(latitude, longitude)[0].update;
      Touches(u, env, row) <==> SqlEq(Get(row, "uuid"), Get(env.params, "uuid")) && IsNullValue(Get(row, "deleted"))
    ensures var u := UpdateCoordinatesQuery(latitude, longitude)[0].update;
      var after := ApplyUpdate(u, env, row);
      Touches(u, env, row) ==>
        && Get(after, "latitude") == (if Truthy(latitude) then Sqlish(Get(env.params, "latitude")) else Get(row, "latitude"))
        && Get(after, "longitude") == (if Truthy(longitude) then Sqlish(Get(env.params, "longitude")) else Get(row, "longitude"))
        && Get(after, "uuid") == Sqlish(Get(env.params, "uuid"))
        && (column !in {"latitude", "longitude", "uuid"} ==> Get(after, column) == Get(row, column))
  {
    var opts := CoordinateChanges(latitude, longitude);
    var u := UpdateCoordinatesQuery(latitude, longitude)[0].update;
    GatedSetsSeparated(opts, KeepUuid);
    UuidGuardMeans(u, env, row, None, None);
    if Touches(u, env, row) {
      GatedAssignEffect(opts, [KeepUuid], env, "coordinates", row, "latitude");
      GatedValueAt(opts, "latitude", 0);
      GatedAssignEffect(opts, [KeepUuid], env, "coordinates", row, "longitude");
      GatedValueAt(opts, "longitude", 1);
      GatedThenLast(opts, KeepUuid, env, "coordinates", row);
      if column !in {"latitude", "longitude", "uuid"} {
        GatedAssignEffect(opts, [KeepUuid], env, "coordinates", row, column);
        GatedValueNone(opts, column);
      }
    }
  }

  /** `softDeleteCoordinatesQuery()` */
  function SoftDeleteCoordinatesQuery(): Script
  {
    [UpdateStmt(Update(CoordinatesTarget,
                       [Assignment(Column(None, "deleted"), Param("deleted"), true),
                        Assignment(Column(None, "deletedby"), Param("deletedBy"), false)],
                       [ByUuid(None), NotDeleted(None)]))]
  }

  /** The soft delete stamps the uuid's row while it is not deleted, and a second one changes nothing. */
  lemma CoordinateSoftDelete(env: Env, row: Props)
    ensures var u := SoftDeleteCoordinatesQuery()[0].update;
      && (Touches(u, env, row) <==> SqlEq(Get(row, "uuid"), Get(env.params, "uuid")) && IsNullValue(Get(row, "deleted")))
      && (Touches(u, env, row) ==>
            Get(ApplyUpdate(u, env, row), "deleted") == Sqlish(Get(env.params, "deleted")) &&
            Get(ApplyUpdate(u, env, row), "deletedby") == Sqlish(Get(env.params, "deletedBy")))
      && (Touches(u, env, row) && !IsNullValue(Get(env.params, "deleted")) ==> !Touches(u, env, ApplyUpdate(u, env, row)))
  {
    var u := SoftDeleteCoordinatesQuery()[0].update;
    SoftDeleteMeans(u, env, row, None, None);
    if Touches(u, env, row) {
      AssignColumn(u.sets[1..], env, "coordinates", row, "deletedby");
      AssignColumn(u.sets, env, "coordinates", row, "deletedby");
    }
  }
}
