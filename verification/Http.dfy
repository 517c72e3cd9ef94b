/** Requests, responses and how the session answers. */
module Http {
  import opened Writers

  datatype Token = Absent | Close | KeepAlive

  /** Version 10 or 11, and the connection option of the header. */
  datatype Request = Request(version: nat, post: bool, target: string, connection: Token, body: string)

  datatype Response = Response(version: nat, connection: Token, status: nat, body: string)

  datatype Outcome = Outcome(error: HandlerError, message: string)

  datatype HandlerError = Okay | BadData | Failed | Unavailable

  /** A message format's checker: does it accept the data, and what does it say if not. */
  datatype Checker = Checker(accepts: string -> bool, complaint: string -> string)

  const ACCEPTED := 202

  /** Before HTTP/1.1 connections close unless told otherwise; from then on they stay. */
  predicate StaysOpen(version: nat, connection: Token) {
    if version < 11 then connection.KeepAlive? else !connection.Close?
  }

  /** `keep_alive(b)`: the header option that says `b` in the message's version. */
  function OptionFor(version: nat, b: bool): Token {
    if version < 11 then (if b then KeepAlive else Absent) else (if b then Absent else Close)
  }

  /** What the handler makes of a writer's result. */
  function OutcomeOf(w: WriteResult): Outcome {
    match w.error
    case Generic => Outcome(Failed, w.message)
    case StorageUnavailable => Outcome(Unavailable, w.message)
    case Stored => Outcome(Okay, "")
  }

  function Quoted(message: string): string { "{\"error\": \"" + message + "\"}" }

  predicate ForHandler(r: Request) { r.post && r.target == "/instrument" }

  /** The answer to `r`; the handler's outcome matters only if the handler is asked. */
  function Answer(r: Request, o: Outcome): Response {
    var shell := Response(r.version, OptionFor(r.version, StaysOpen(r.version, r.connection)), 200, "");
    if !r.post then shell.(status := 405, body := "{\"error\": \"wrong HTTP method\"}")
    else if r.target != "/instrument" then shell.(status := 400, body := "{\"error\": \"wrong path\"}")
    else
      match o.error
      case Okay => shell.(status := ACCEPTED)
      case BadData => shell.(status := 400, body := Quoted(o.message))
      case Unavailable => shell.(status := 503, body := Quoted(o.message))
      case Failed => shell.(status := 500, body := Quoted(o.message))
  }

  /** What the client is told, number by number. */
  predicate Documented(r: Request, o: Outcome, a: Response) {
    && a.version == r.version && StaysOpen(a.version, a.connection) == StaysOpen(r.version, r.connection)
    && (!r.post ==> a.status == 405 && a.body == "{\"error\": \"wrong HTTP method\"}")
    && (r.post && r.target != "/instrument" ==> a.status == 400 && a.body == "{\"error\": \"wrong path\"}")
    && (r.post && r.target == "/instrument" ==>
          && (o.error.Okay? ==> a.status == 202 && a.body == "")
          && (o.error.BadData? ==> a.status == 400)
          && (o.error.Unavailable? ==> a.status == 503)
          && (o.error.Failed? ==> a.status == 500)
          && (!o.error.Okay? ==> a.body == "{\"error\": \"" + o.message + "\"}"))
  }

  /** 405 for another method, 400 for another path or refused data, 202 with no body for success,
      503 and 500 for the writer's two errors; the message goes into the body. */
  lemma AnswerIsDocumented(r: Request, o: Outcome)
    ensures Documented(r, o, Answer(r, o))
  {}

  /** The session decides by the response's flag, and that is the request's flag, in every
      version; and it answers 202 exactly when the handler was asked and agreed. */
  lemma AnswerKeepsFlag(r: Request, o: Outcome)
    ensures StaysOpen(Answer(r, o).version, Answer(r, o).connection) == StaysOpen(r.version, r.connection)
    ensures Answer(r, o).status == ACCEPTED <==> ForHandler(r) && o.error.Okay?
  {}
}
