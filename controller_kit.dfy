/**
 * The shape every resource controller shares: open a connection, call the
 * model, settle the exchange from the model's outcome (the result through
 * `next`, an empty lookup as a not-found reply, a rejection through
 * `errorHandler`), and close the connection whatever happened.
 */
module ControllerKit {
  import opened Js
  import opened Errors
  import opened Http

  /** `{...p, conn}` handed to a model that takes `{conn, ...rest}`: the rest is `p` without `conn`. */
  function WithConn(p: Props): (rest: Props)
    ensures rest.Keys == p.Keys - {"conn"}
    ensures forall k | k in rest :: rest[k] == p[k]
  {
    p - {"conn"}
  }

  /** `req.auth.user || null` */
  function UserOrNull(auth: Props): (v: Value)
    ensures Truthy(Get(auth, "user")) ==> v == auth["user"]
    ensures !Truthy(Get(auth, "user")) ==> v == Null
  {
    Or(Get(auth, "user"), Null)
  }

  /** `res.status(error.code).json(error)` with `error = errorHandler(err, environment)`: the status is the one the error's code selects, and the body carries it. */
  function Failure(err: Error, environment: Option<string>): (o: Outcome)
    ensures o.Sent? && o.status == StatusAndText(err.code).0 && o.status in Statuses
    ensures Prop(o.body, "code") == Some(Num(o.status as real))
    ensures Prop(o.body, "message") == Some(Str(StatusAndText(err.code).1))
  {
    var error := Classify(err, environment, None);
    Sent(error.code, ResponseJson(error))
  }

  /** `sendResponseNotFound(res, errorHandler(error404(), environment))` */
  function NotFoundReply(environment: Option<string>): (o: Outcome)
    ensures o.Replied? && o.helper == NotFound
    ensures Prop(o.body, "code") == Some(Num(404.0)) && Prop(o.body, "message") == Some(Str("Not Found"))
  {
    Replied(NotFound, ResponseJson(Classify(Error404(), environment, None)))
  }

  /** How a handler wraps a model's result for `next`. */
  datatype Wrap =
    | Keyed(key: string)                     // `{_data: {key: result}}`
    | Bare                                   // `{_data: result}`
    | Messaged(message: string, key: string) // `{_data: {message, key: result}}`
    | Empty                                  // `{}`, the result dropped

  function Wrapped(w: Wrap, v: Value): (r: Value)
    ensures w.Empty? ==> r == Obj(map[])
    ensures !w.Empty? ==> r.Obj? && r.fields.Keys == {"_data"}
    ensures w.Bare? ==> Prop(r, "_data") == Some(v)
    ensures w.Keyed? ==> Prop(r, "_data") == Some(Obj(map[w.key := v]))
    ensures w.Messaged? ==> Prop(r, "_data") == Some(Obj(map["message" := Str(w.message), w.key := v]))
  {
    match w
    case Keyed(key) => Obj(map["_data" := Obj(map[key := v])])
    case Bare => Obj(map["_data" := v])
    case Messaged(message, key) => Obj(map["_data" := Obj(map["message" := Str(message), key := v])])
    case Empty => Obj(map[])
  }

  /**
   * `_page`: the count as `totalElements`, the query's `limit` or 100, and
   * the query's `page`, else 1 when the count is truthy, else 0.
   */
  function PageInfo(count: Value, query: Props): (v: Value)
    ensures v.Obj? && v.fields.Keys == {"totalElements", "limit", "page"}
    ensures v.fields["totalElements"] == count
    ensures v.fields["limit"] == if Truthy(Get(query, "limit")) then query["limit"] else Num(100.0)
    ensures v.fields["page"] == if Truthy(Get(query, "page")) then query["page"] else if Truthy(count) then Num(1.0) else Num(0.0)
  {
    Obj(map["totalElements" := count,
            "limit" := Or(Get(query, "limit"), Num(100.0)),
            "page" := Or(Get(query, "page"), Or(And(count, Num(1.0)), Num(0.0)))])
  }

  /**
   * The list handlers: `Promise.all` of the list and the count, then
   * `next({_data: {key: rows}, _page})`, or the first rejection (the
   * list's when both reject) through `errorHandler`.
   */
  function ListOutcome(key: string, query: Props, rows: Result<Value, Error>, count: Result<Value, Error>,
                       environment: Option<string>): (o: Outcome)
    ensures o.Next? <==> rows.Ok? && count.Ok?
    ensures o.Next? ==> o.arg.Some? && Prop(o.arg.value, "_data") == Some(Obj(map[key := rows.value])) &&
                        Prop(o.arg.value, "_page") == Some(PageInfo(count.value, query))
    ensures rows.Err? ==> o.Sent? && o.status == StatusAndText(rows.error.code).0
    ensures rows.Ok? && count.Err? ==> o.Sent? && o.status == StatusAndText(count.error.code).0
  {
    match (rows, count)
    case (Err(e), _) => Failure(e, environment)
    case (Ok(_), Err(e)) => Failure(e, environment)
    case (Ok(r), Ok(c)) => Next(Some(Obj(map["_data" := Obj(map[key := r]), "_page" := PageInfo(c, query)])))
  }

  /** The handlers that answer 404 on an empty result: the reply is not-found exactly when the model answers `[]`. */
  function LookupOutcome(w: Wrap, found: Result<Value, Error>, environment: Option<string>): (o: Outcome)
    ensures o.Replied? <==> found.Ok? && NoResults(found.value)
    ensures o.Replied? ==> o == NotFoundReply(environment)
    ensures o.Next? <==> found.Ok? && !NoResults(found.value)
    ensures o.Next? ==> o.arg == Some(Wrapped(w, found.value))
    ensures found.Err? ==> o.Sent? && o.status == StatusAndText(found.error.code).0
  {
    match found
    case Err(e) => Failure(e, environment)
    case Ok(v) => if NoResults(v) then NotFoundReply(environment) else Next(Some(Wrapped(w, v)))
  }

  /** The handlers that pass any result on: `next` with the wrapped result, or the rejection through `errorHandler`. */
  function WriteOutcome(w: Wrap, result: Result<Value, Error>, environment: Option<string>): (o: Outcome)
    ensures o.Next? <==> result.Ok?
    ensures o.Next? ==> o.arg == Some(Wrapped(w, result.value))
    ensures result.Err? ==> o.Sent? && o.status == StatusAndText(result.error.code).0
  {
    match result
    case Err(e) => Failure(e, environment)
    case Ok(v) => Next(Some(Wrapped(w, v)))
  }

  /** `.catch(err => res.status(error.code).json(error))` */
  method Fail(ex: Exchange, err: Error, environment: Option<string>)
    modifies ex
    ensures ex.outcome == Failure(err, environment) && ex.auth == old(ex.auth)
  {
    var error := ErrorHandler(err, environment, None);
    ex.Respond(error.code, ResponseJson(error));
  }

  /** A list handler from `mysql.start` to `mysql.end`: the connection it opens is closed again. */
  method ListFlow(ex: Exchange, pool: Pool, key: string, query: Props, rows: Result<Value, Error>,
                  count: Result<Value, Error>, environment: Option<string>)
    modifies ex, pool
    ensures pool.open == old(pool.open) && ex.auth == old(ex.auth)
    ensures ex.outcome == ListOutcome(key, query, rows, count, environment)
  {
    pool.Start();
    if rows.Err? {
      Fail(ex, rows.error, environment);
    } else if count.Err? {
      Fail(ex, count.error, environment);
    } else {
      ex.Proceed(Some(Obj(map["_data" := Obj(map[key := rows.value]), "_page" := PageInfo(count.value, query)])));
    }
    pool.End();
  }

  /** A lookup handler from `mysql.start` to `mysql.end`. */
  method LookupFlow(ex: Exchange, pool: Pool, w: Wrap, found: Result<Value, Error>, environment: Option<string>)
    modifies ex, pool
    ensures pool.open == old(pool.open) && ex.auth == old(ex.auth)
    ensures ex.outcome == LookupOutcome(w, found, environment)
  {
    pool.Start();
    if found.Err? {
      Fail(ex, found.error, environment);
    } else if NoResults(found.value) {
      var error := ErrorHandler(Error404(), environment, None);
      ex.Reply(NotFound, ResponseJson(error));
    } else {
      ex.Proceed(Some(Wrapped(w, found.value)));
    }
    pool.End();
  }

  /** A write handler from `mysql.start` to `mysql.end`. */
  method WriteFlow(ex: Exchange, pool: Pool, w: Wrap, result: Result<Value, Error>, environment: Option<string>)
    modifies ex, pool
    ensures pool.open == old(pool.open) && ex.auth == old(ex.auth)
    ensures ex.outcome == WriteOutcome(w, result, environment)
  {
    pool.Start();
    if result.Err? {
      Fail(ex, result.error, environment);
    } else {
      ex.Proceed(Some(Wrapped(w, result.value)));
    }
    pool.End();
  }

  /** No handler that settles through these flows leaves the exchange pending or lets an exception escape. */
  lemma FlowsSettle(key: string, w: Wrap, query: Props, a: Result<Value, Error>, b: Result<Value, Error>, environment: Option<string>)
    ensures var o := ListOutcome(key, query, a, b, environment); o.Next? || o.Sent?
    ensures var o := LookupOutcome(w, a, environment); o.Next? || o.Sent? || (o.Replied? && o.helper == NotFound)
    ensures var o := WriteOutcome(w, a, environment); o.Next? || o.Sent?
    ensures a.Err? ==> LookupOutcome(w, a, environment) == WriteOutcome(w, a, environment) == Failure(a.error, environment)
  {
  }
}
