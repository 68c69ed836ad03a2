/**
 * The Express side of the controllers: what a service call can end with,
 * the responses a handler sends, and the `catch` patterns the handlers share.
 */
module Http {
  import opened Wrappers
  import opened Validation

  /**
   * What a handler can catch: a ZodError (a subclass of Error), another
   * Error with its message, or a thrown value that is not an Error.
   */
  datatype Thrown =
    | ZodError(issues: seq<Issue>, message: string)
    | Error(message: string)
    | NonError

  /** `error instanceof Error`. */
  predicate IsError(t: Thrown)
  {
    t.ZodError? || t.Error?
  }

  /** How an awaited service call ends. */
  datatype Outcome<T> = Returned(value: T) | Threw(thrown: Thrown)

  /** A response body: the value as JSON, `{ error }`, `{ error, details }` or nothing. */
  datatype Body<T> =
    | Json(value: T)
    | ErrorMessage(error: string)
    | Details(error: string, details: seq<Issue>)
    | FieldDetails(error: string, fieldErrors: map<string, seq<Violation>>)
    | NoContent

  datatype Response<T> = Response(status: int, body: Body<T>)

  const InvalidDataText: string := "Dados inválidos"

  /** The violations reported at `path`, in order. */
  function ViolationsAt(issues: seq<Issue>, path: string): (vs: seq<Violation>)
    ensures forall v :: v in vs <==> Issue(path, v) in issues
    ensures |vs| <= |issues|
  {
    if issues == [] then []
    else
      var rest := ViolationsAt(issues[1..], path);
      assert forall iss :: iss in issues <==> iss == issues[0] || iss in issues[1..];
      if issues[0].path == path then [issues[0].violation] + rest else rest
  }

  /**
   * `error.flatten().fieldErrors`: the violations grouped by property; an
   * issue about the whole input (path "") goes to the form errors instead.
   */
  function FieldErrors(issues: seq<Issue>): (fe: map<string, seq<Violation>>)
    ensures fe.Keys == Paths(issues) - {""}
    ensures forall p, v :: p in fe ==> (v in fe[p] <==> Issue(p, v) in issues)
  {
    map p | p in Paths(issues) && p != "" :: ViolationsAt(issues, p)
  }

  /** `res.json(value)` on success, 500 with `fallback` on any throw. */
  function Listed<T>(o: Outcome<T>, fallback: string): (r: Response<T>)
    ensures r.status == 200 <==> o.Returned?
    ensures o.Returned? ==> r.body == Json(o.value)
    ensures o.Threw? ==> r == Response(500, ErrorMessage(fallback))
  {
    match o
    case Returned(v) => Response(200, Json(v))
    case Threw(_) => Response(500, ErrorMessage(fallback))
  }

  /** A lookup: 404 with `notFound` on null, the row on a hit, 500 on any throw. */
  function Found<T>(o: Outcome<Option<T>>, notFound: string, fallback: string): (r: Response<T>)
    ensures r.status == 404 <==> o == Returned(None)
    ensures r.status == 200 <==> o.Returned? && o.value.Some?
    ensures r.status == 500 <==> o.Threw?
    ensures o == Returned(None) ==> r.body == ErrorMessage(notFound)
    ensures o.Returned? && o.value.Some? ==> r.body == Json(o.value.value)
    ensures o.Threw? ==> r.body == ErrorMessage(fallback)
  {
    match o
    case Returned(None) => Response(404, ErrorMessage(notFound))
    case Returned(Some(v)) => Response(200, Json(v))
    case Threw(_) => Response(500, ErrorMessage(fallback))
  }

  /**
   * create and update: `okStatus` with the row; a ZodError is 400 with its
   * issues, checked before any other Error, which is 400 with its message;
   * anything else is 500 with `fallback`.
   */
  function Saved<T>(o: Outcome<T>, okStatus: int, fallback: string): (r: Response<T>)
    requires okStatus != 400 && okStatus != 500
    ensures r.status == okStatus <==> o.Returned?
    ensures r.status == 400 <==> o.Threw? && IsError(o.thrown)
    ensures r.status == 500 <==> o.Threw? && !IsError(o.thrown)
    ensures o.Returned? ==> r.body == Json(o.value)
    ensures o.Threw? && o.thrown.ZodError? ==> r.body == Details(InvalidDataText, o.thrown.issues)
    ensures o.Threw? && o.thrown.Error? ==> r.body == ErrorMessage(o.thrown.message)
    ensures o.Threw? && !IsError(o.thrown) ==> r.body == ErrorMessage(fallback)
  {
    match o
    case Returned(v) => Response(okStatus, Json(v))
    case Threw(ZodError(issues, _)) => Response(400, Details(InvalidDataText, issues))
    case Threw(Error(m)) => Response(400, ErrorMessage(m))
    case Threw(NonError) => Response(500, ErrorMessage(fallback))
  }

  /**
   * delete: 204 with no body; any Error, a ZodError included, is 400 with
   * its message; anything else is 500 with `fallback`.
   */
  function Deleted(o: Outcome<()>, fallback: string): (r: Response<()>)
    ensures r.status == 204 <==> o.Returned?
    ensures r.status == 400 <==> o.Threw? && IsError(o.thrown)
    ensures r.status == 500 <==> o.Threw? && !IsError(o.thrown)
    ensures o.Returned? ==> r.body == NoContent
    ensures o.Threw? && IsError(o.thrown) ==> r.body == ErrorMessage(o.thrown.message)
    ensures o.Threw? && !IsError(o.thrown) ==> r.body == ErrorMessage(fallback)
  {
    match o
    case Returned(_) => Response(204, NoContent)
    case Threw(t) =>
      if IsError(t) then Response(400, ErrorMessage(t.message))
      else Response(500, ErrorMessage(fallback))
  }
}
