/**
 * The application's Fastify error handler: a first-match dispatch from the
 * class of a thrown error to the HTTP status, the JSON body that is sent and
 * whether the error is written to the request log.
 */
module ErrorHandler {

  import opened Wrappers

  /** The classes the handler tests with `instanceof`, in the order it tests them. */
  datatype ErrorClass = ZodError | ClientError | FastifyError

  /** Zod's flattened field errors: field name to its messages. */
  type FieldErrors = map<string, seq<string>>

  /**
   * A thrown error. `classes` holds every class of which the error is an
   * instance (a subclass may make it an instance of several); the other
   * fields are read only by the branch that handles that class.
   */
  datatype Error = Error(
    classes: set<ErrorClass>,
    message: string,
    stack: Option<string>,
    code: Option<string>,          // ClientError's code
    statusCode: Option<int>,       // FastifyError's statusCode
    fieldErrors: FieldErrors)      // ZodError's flatten().fieldErrors

  /** The JSON bodies the handler sends. */
  datatype Body =
    | InvalidInput(message: string, errors: FieldErrors)   // { message, errors }
    | ClientFailure(message: string, code: string)          // { message, code }
    | Failure(message: string)                              // { message }

  /** What `logError` writes to the request log: the error's message and stack. */
  datatype LogEntry = LogEntry(message: string, stack: Option<string>)

  /** One handled error: the status and body sent, and the log entry if any. */
  datatype Reply = Reply(status: int, body: Body, log: Option<LogEntry>)

  const INVALID_INPUT := "Invalid input"
  const DEFAULT_CLIENT_CODE := "CLIENT_ERROR"
  const INTERNAL_SERVER_ERROR := "Internal server error"
  const DEFAULT_STATUS := 500

  /** JavaScript truthiness of an optional string: absent and "" are falsy. */
  predicate IsTruthyText(s: Option<string>) {
    s.Some? && s.value != ""
  }

  /** JavaScript truthiness of an optional number: absent and 0 are falsy. */
  predicate IsTruthyNumber(n: Option<int>) {
    n.Some? && n.value != 0
  }

  /** `errorHandler`: the first class the error belongs to decides the reply. */
  function Handle(e: Error): (r: Reply)
    // The body's shape names the branch taken, and the branches are tried in
    // the order validation, client, framework.
    ensures r.body.InvalidInput? <==> ZodError in e.classes
    ensures r.body.ClientFailure? <==> ZodError !in e.classes && ClientError in e.classes
    ensures r.body.Failure? <==> ZodError !in e.classes && ClientError !in e.classes
    // Only the framework and fallback branches log, and they log the error itself.
    ensures r.log.Some? <==> r.body.Failure?
    ensures r.log.Some? ==> r.log.value == LogEntry(e.message, e.stack)
    // Every branch sends a real status and a non-empty message.
    ensures r.status != 0
    ensures r.body.Failure? ==> r.body.message != ""
    // Client-caused errors are the 400s; everything else is the error's own
    // status or 500.
    ensures r.body.InvalidInput? || r.body.ClientFailure? ==> r.status == 400
    ensures r.body.Failure? ==> r.status == 500 || (FastifyError in e.classes && Some(r.status) == e.statusCode)
  {
    if ZodError in e.classes then
      Reply(400, InvalidInput(INVALID_INPUT, e.fieldErrors), None)
    else if ClientError in e.classes then
      Reply(400, ClientFailure(e.message, if IsTruthyText(e.code) then e.code.value else DEFAULT_CLIENT_CODE), None)
    else if FastifyError in e.classes then
      Reply(if IsTruthyNumber(e.statusCode) then e.statusCode.value else DEFAULT_STATUS,
            Failure(if e.message != "" then e.message else INTERNAL_SERVER_ERROR),
            Some(LogEntry(e.message, e.stack)))
    else
      Reply(DEFAULT_STATUS, Failure(INTERNAL_SERVER_ERROR), Some(LogEntry(e.message, e.stack)))
  }

  /** Position of a class in the handler's chain of `instanceof` tests. */
  function Rank(c: ErrorClass): nat {
    match c
    case ZodError => 0
    case ClientError => 1
    case FastifyError => 2
  }

  /** A validation error is answered 400 "Invalid input" with its field errors, unlogged. */
  lemma ValidationReply(e: Error)
    requires ZodError in e.classes
    ensures Handle(e) == Reply(400, InvalidInput("Invalid input", e.fieldErrors), None)
  {
  }

  /** A client error is answered 400 with its own message and its code, or "CLIENT_ERROR". */
  lemma ClientReply(e: Error)
    requires ZodError !in e.classes && ClientError in e.classes
    ensures Handle(e).status == 400 && Handle(e).log == None
    ensures Handle(e).body.ClientFailure? && Handle(e).body.message == e.message
    ensures forall c :: e.code == Some(c) && c != "" ==> Handle(e).body.code == c
    ensures e.code == None || e.code == Some("") ==> Handle(e).body.code == "CLIENT_ERROR"
  {
  }

  /** A framework error keeps its status unless it is falsy, and its message unless it is empty. */
  lemma FrameworkReply(e: Error)
    requires ZodError !in e.classes && ClientError !in e.classes && FastifyError in e.classes
    ensures forall s :: e.statusCode == Some(s) && s != 0 ==> Handle(e).status == s
    ensures e.statusCode == None || e.statusCode == Some(0) ==> Handle(e).status == 500
    ensures e.message != "" ==> Handle(e).body == Failure(e.message)
    ensures e.message == "" ==> Handle(e).body == Failure("Internal server error")
    ensures Handle(e).log == Some(LogEntry(e.message, e.stack))
  {
  }

  /** Any other error is a logged 500 with the fixed message. */
  lemma FallbackReply(e: Error)
    requires e.classes == {}
    ensures Handle(e) == Reply(500, Failure("Internal server error"), Some(LogEntry(e.message, e.stack)))
  {
  }

  /** What an unclassified error sends does not depend on the error at all: its message never leaks. */
  lemma FallbackHidesMessage(e1: Error, e2: Error)
    requires e1.classes == {} && e2.classes == {}
    ensures Handle(e1).status == Handle(e2).status && Handle(e1).body == Handle(e2).body
  {
  }

  /**
   * First match wins: making an error an instance of further classes that the
   * handler tests after one it already belongs to changes nothing.
   */
  lemma FirstMatch(e: Error, k: ErrorClass, extra: set<ErrorClass>)
    requires k in e.classes
    requires forall c :: c in extra ==> Rank(k) < Rank(c)
    ensures Handle(e.(classes := e.classes + extra)) == Handle(e)
  {
  }
}
