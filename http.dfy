/**
 * The Express side of a handler: the request it reads, the exchange whose
 * outcome it settles (a JSON answer, a call of `next`, a reply through one
 * of the response helpers, or an exception that escapes), and the pool of
 * database connections it opens and closes.
 */
module Http {
  import opened Js
  import opened Errors

  /** The response helpers a handler replies through; what they send is not part of this model. */
  datatype Helper = NotFound | Unauthorized | AccessDenied

  /** How a handler has settled the exchange. */
  datatype Outcome =
    | Pending                               // nothing sent and `next` not called
    | Next(arg: Option<Value>)              // `next()` or `next(result)`
    | Sent(status: int, body: Value)        // `res.status(status).json(body)`
    | Replied(helper: Helper, body: Value)  // `sendResponseNotFound(res, body)` and its siblings
    | Thrown(error: Error)                  // an exception escaped the handler

  /** The parts of `req` the handlers read: the query, path parameters, body, `Authorization` header and HTTP method. */
  datatype Request = Request(query: Props, params: Props, body: Props, authorization: Option<string>, httpMethod: string)

  /**
   * An `Error` as `res.json` serialises it: its own enumerable properties,
   * which are the `code` and `status` the helpers assign; `message` is not
   * one of them.
   */
  function ErrorJson(e: Error): Value
  {
    Obj((if e.code.Some? then map["code" := Str(e.code.value)] else map[]) +
        (if e.status.Some? then map["status" := Num(e.status.value as real)] else map[]))
  }

  /** The JSON body of an `errorHandler` answer. */
  function ResponseJson(r: Response): (v: Value)
    ensures v.Obj? && Prop(v, "message") == Some(Str(r.message)) && Prop(v, "code") == Some(Num(r.code as real))
    ensures "error" in v.fields <==> r.error.Some?
  {
    var base := map["message" := Str(r.message), "code" := Num(r.code as real)];
    Obj(if r.error.Some? then base["error" := ErrorJson(r.error.value)] else base)
  }

  /** `noResults(v)`: the model answered with an empty array. */
  predicate NoResults(v: Value)
  {
    v == Arr([])
  }

  /** The connections `mysql.start` has opened and `mysql.end` not yet closed. */
  class Pool {
    var open: nat

    constructor ()
      ensures open == 0
    {
      open := 0;
    }

    /** `mysql.start(config)` */
    method Start()
      modifies this
      ensures open == old(open) + 1
    {
      open := open + 1;
    }

    /** `mysql.end(conn)` */
    method End()
      requires open > 0
      modifies this
      ensures open == old(open) - 1
    {
      open := open - 1;
    }
  }

  /** One request in flight: `req.auth` and what has been done with `res` and `next`. */
  class Exchange {
    var auth: Props
    var outcome: Outcome

    constructor (auth: Props)
      ensures this.auth == auth && outcome == Pending
    {
      this.auth := auth;
      outcome := Pending;
    }

    /** `res.status(status).json(body)` */
    method Respond(status: int, body: Value)
      modifies this
      ensures outcome == Sent(status, body) && auth == old(auth)
    {
      outcome := Sent(status, body);
    }

    /** `sendResponseNotFound(res, body)` and its siblings */
    method Reply(helper: Helper, body: Value)
      modifies this
      ensures outcome == Replied(helper, body) && auth == old(auth)
    {
      outcome := Replied(helper, body);
    }

    /** `next(arg)` */
    method Proceed(arg: Option<Value>)
      modifies this
      ensures outcome == Next(arg) && auth == old(auth)
    {
      outcome := Next(arg);
    }

    /** `throw error` out of the handler */
    method Throw(error: Error)
      modifies this
      ensures outcome == Thrown(error) && auth == old(auth)
    {
      outcome := Thrown(error);
    }

    /** `req.auth = auth` */
    method SetAuth(auth: Props)
      modifies this
      ensures this.auth == auth && outcome == old(outcome)
    {
      this.auth := auth;
    }
  }
}
