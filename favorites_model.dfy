/**
 * The favorites model: each operation builds its query, hands it to the
 * driver with its parameters and post-processes the answer. `now`, the
 * fresh uuid and the driver are parameters.
 */
module FavoritesModel {
  import opened Js
  import opened Errors
  import opened Sql
  import opened ModelKit
  import opened FavoriteRepository

  /** The keys the list and the insert strip: the audit keys and both foreign keys. */
  const FavoriteKeys: set<string> := AuditKeys + {"fk_user", "fk_place"}

  /** `getFavoritesModel({conn, ...rest})`: the list query at `now`; each row loses its ids and audit columns. */
  function GetFavoritesModel(rest: Props, now: Value, db: Executor): (r: Result<Value, Error>)
    ensures var p := WithNow(rest, now);
      var answer := db([SelectStmt(GetFavoritesQuery(p))], p);
      && (answer.Err? ==> r == answer)
      && (r.Ok? <==> answer.Ok? && IsRows(answer.value))
      && (r.Ok? ==> Stripped(answer.value, r.value, FavoriteKeys))
  {
    var p := WithNow(rest, now);
    ListRows(db([SelectStmt(GetFavoritesQuery(p))], p), FavoriteKeys)
  }

  /** `countFavoritesModel({conn, ...rest})`: the `count` field of the first row the count query returns. */
  function CountFavoritesModel(rest: Props, now: Value, db: Executor): (r: Result<Value, Error>)
    ensures var p := WithNow(rest, now);
      var answer := db([SelectStmt(CountFavoritesQuery(p))], p);
      && (answer.Err? ==> r == answer)
      && (r.Ok? ==> answer.Ok? && answer.value.Arr? && |answer.value.items| > 0 && Prop(answer.value.items[0], "count") == Some(r.value))
  {
    var p := WithNow(rest, now);
    CountOf(db([SelectStmt(CountFavoritesQuery(p))], p))
  }

  /** `insertFavoritesModel({conn, ...rest})`: a fresh uuid and `now` join the parameters; the rows are `results[1]`. */
  function InsertFavoritesModel(rest: Props, now: Value, uuid: Value, db: Executor): (r: Result<Value, Error>)
    ensures var answer := db(InsertFavoritesQuery(), InsertParams(rest, uuid, now));
      && (answer.Err? ==> r == answer)
      && (r.Ok? ==> Index(answer.value, 1).Ok? && Stripped(Index(answer.value, 1).value, r.value, FavoriteKeys))
  {
    ResultSetRows(db(InsertFavoritesQuery(), InsertParams(rest, uuid, now)), 1, FavoriteKeys)
  }

  /**
   * `modifyFavoritesModel({conn, ...params})`: a deleted row in
   * `queryResult[1]` makes it throw 404; otherwise the rows lose only the
   * audit keys and keep both foreign keys.
   */
  function ModifyFavoritesModel(params: Props, db: Executor): (r: Result<Value, Error>)
    ensures var answer := db(ModifyFavoritesQuery(params), params);
      && (answer.Err? ==> r == answer)
      && (r.Ok? ==> Index(answer.value, 1).Ok? && Stripped(Index(answer.value, 1).value, r.value, AuditKeys))
      && (answer.Ok? && r.Err? ==> r.error == Error404() || StatusAndText(r.error.code).0 == 500)
  {
    RereadRows(db(ModifyFavoritesQuery(params), params), 1, AuditKeys, Error404())
  }

  /** `{...rest, deleted: deletedData, deletedBy}`: every other argument passes through. */
  function FavoriteDeleteParams(args: Props, now: Value): (p: Props)
    ensures p.Keys == args.Keys + {"deleted", "deletedBy"}
    ensures p["deleted"] == DeletionTime(Get(args, "deleted"), now) && p["deletedBy"] == Get(args, "deletedBy")
    ensures forall k | k in args && k !in {"deleted", "deletedBy"} :: p[k] == args[k]
  {
    (args - {"deleted", "deletedBy"})["deleted" := DeletionTime(Get(args, "deleted"), now)]["deletedBy" := Get(args, "deletedBy")]
  }

  /** `softDeleteFavoritesModel({conn, deleted, deletedBy, ...rest})`: the driver's answer, unchanged. */
  function SoftDeleteFavoritesModel(args: Props, now: Value, db: Executor): Result<Value, Error>
  {
    var p := FavoriteDeleteParams(args, now);
    db(SoftDeleteFavoritesQuery(Get(p, "place_uuid")), p)
  }

  /** When the insert and its re-read succeed, the model returns the re-read rows without ids or audit columns. */
  lemma InsertFavoritesReturnsReread(rest: Props, now: Value, uuid: Value, db: Executor)
    requires var answer := db(InsertFavoritesQuery(), InsertParams(rest, uuid, now));
      answer.Ok? && Answers(InsertFavoritesQuery(), answer.value)
    ensures var answer := db(InsertFavoritesQuery(), InsertParams(rest, uuid, now));
      var r := InsertFavoritesModel(rest, now, uuid, db);
      r.Ok? && Stripped(answer.value.items[1], r.value, FavoriteKeys)
  {
    var answer := db(InsertFavoritesQuery(), InsertParams(rest, uuid, now));
    assert StatementAnswer(InsertFavoritesQuery()[1], answer.value.items[1]);
  }

  /**
   * When the update and its re-read succeed, the model answers 404 exactly
   * when a re-read row is deleted, and the rows otherwise.
   */
  lemma ModifyFavoritesOutcome(params: Props, db: Executor)
    requires var answer := db(ModifyFavoritesQuery(params), params);
      answer.Ok? && Answers(ModifyFavoritesQuery(params), answer.value)
    ensures var rows := db(ModifyFavoritesQuery(params), params).value.items[1];
      var r := ModifyFavoritesModel(params, db);
      && (r.Ok? || r == Err(Error404()))
      && (r == Err(Error404()) <==> exists i | 0 <= i < |rows.items| :: Get(rows.items[i].fields, "deleted") != Null)
      && (r.Ok? ==> Stripped(rows, r.value, AuditKeys))
  {
    var answer := db(ModifyFavoritesQuery(params), params);
    assert StatementAnswer(ModifyFavoritesQuery(params)[1], answer.value.items[1]);
  }

  /**
   * The soft delete stamps the time given, or `now`, and the `deletedBy`
   * argument; an argument spelled otherwise (such as `deletedby`) is passed
   * through but leaves `deletedBy` NULL.
   */
  lemma FavoriteDeleteStamps(args: Props, now: Value, env: Env, row: Props)
    requires env.params == FavoriteDeleteParams(args, now)
    ensures var u := SoftDeleteFavoritesQuery(Get(env.params, "place_uuid"))[0].update;
      && (Touches(u, env, row) ==>
            Get(ApplyUpdate(u, env, row), "deleted") == Sqlish(DeletionTime(Get(args, "deleted"), now)) &&
            Get(ApplyUpdate(u, env, row), "deletedBy") == Sqlish(Get(args, "deletedBy")))
      && (Touches(u, env, row) && "deletedBy" !in args ==> Get(ApplyUpdate(u, env, row), "deletedBy") == Null)
      && (Touches(u, env, row) && !IsNullValue(now) ==> !Touches(u, env, ApplyUpdate(u, env, row)))
  {
    FavoriteSoftDelete(Get(env.params, "place_uuid"), env, row);
  }
}
