/** `HttpSession` and the handler behind it. */
module Session {
  import opened Text
  import opened RedisWire
  import opened Writers
  import opened Http
  import RW = RedisWriter

  datatype Asked = Asked(data: string, outcome: Outcome)

  /** What the session is told about a write. */
  predicate Told(result: WriteResult, outcome: Outcome) {
    && (result.error.Stored? ==> outcome == Outcome(Okay, ""))
    && (result.error.Generic? ==> outcome == Outcome(Failed, result.message))
    && (result.error.StorageUnavailable? ==> outcome == Outcome(Unavailable, result.message))
  }

  /** `UniversalHandler` with the Redis writer: data is checked before it is written. */
  class Handler {
    const writer: RW.Writer
    const checker: Checker
    ghost var asked: seq<Asked>   // all calls

    ghost predicate Valid()
      reads this, writer, writer.redis
    {
      writer.Valid()
    }

    constructor (writer: RW.Writer, checker: Checker)
      requires writer.Valid()
      ensures Valid() && this.writer == writer && this.checker == checker && asked == []
    {
      this.writer := writer;
      this.checker := checker;
      asked := [];
    }

    /** Data the checker refuses never reaches the writer; other data is written once, and
        the outcome says how that went. Success means it was accepted and at least one copy is
        in the stream. */
    method Handle(thread: nat, data: string) returns (outcome: Outcome, ghost copies: nat)
      requires Valid()
      modifies this, writer, writer.redis
      ensures asked == old(asked) + [Asked(data, outcome)]
      ensures !checker.accepts(data) ==> writer.writes == old(writer.writes)
      ensures checker.accepts(data) ==>
        exists result :: Told(result, outcome)
          && writer.writes == old(writer.writes) + [RW.Written(thread, data, result)]
      ensures Valid() && writer.redis.replies == old(writer.redis.replies)
      ensures copies <= 2 && RW.Copied(old(writer.redis.entries), writer.redis.entries, data, copies)
      ensures outcome.error.Okay? ==> checker.accepts(data) && copies >= 1
      ensures !checker.accepts(data) ==>
        && outcome == Outcome(BadData, checker.complaint(data)) && copies == 0
        && writer.connections == old(writer.connections)
      ensures outcome.error.BadData? ==> !checker.accepts(data)
    {
      if !checker.accepts(data) {
        outcome, copies := Outcome(BadData, checker.complaint(data)), 0;
      } else {
        var result;
        ghost var trace, opening, made;
        result, copies, trace, opening, made := writer.Write(thread, data);
        outcome := OutcomeOf(result);
      }
      asked := asked + [Asked(data, outcome)];
    }
  }

  datatype ReadEnd = Got(request: Request) | EndOfStream | Reset | ReadError

  /** What the session did so far: completed reads, answers prepared, answers written. */
  datatype History = History(received: seq<Request>, answers: seq<Response>, written: nat)

  ghost predicate Answers(r: Request, a: Response) { exists o: Outcome :: Documented(r, o, a) }

  /** One answer per request, in order, with the request's own flag; 202 only for a body
      the checker accepted and the stream holds. */
  ghost predicate Faithful(h: History, checker: Checker, entries: seq<Entry>) {
    && |h.answers| == |h.received| && h.written <= |h.answers|
    && (forall i :: 0 <= i < |h.answers| ==> Answers(h.received[i], h.answers[i]))
    && (forall i :: 0 <= i < |h.answers| && h.answers[i].status == ACCEPTED ==>
          && checker.accepts(h.received[i].body)
          && exists k :: 0 <= k < |entries| && entries[k].data == h.received[i].body)
  }

  lemma FaithfulPush(h: History, checker: Checker, before: seq<Entry>, after: seq<Entry>,
                     request: Request, o: Outcome)
    requires Faithful(h, checker, before) && before <= after
    requires ForHandler(request) && o.error.Okay? ==>
      checker.accepts(request.body) && exists k :: 0 <= k < |after| && after[k].data == request.body
    ensures Documented(request, o, Answer(request, o))
    ensures Faithful(h.(received := h.received + [request], answers := h.answers + [Answer(request, o)]),
                     checker, after)
  {
    AnswerKeepsFlag(request, o);
    AnswerIsDocumented(request, o);
    assert Answers(request, Answer(request, o));
    forall i | 0 <= i < |h.answers| && h.answers[i].status == ACCEPTED
      ensures exists k :: 0 <= k < |after| && after[k].data == h.received[i].body
    {
      var k :| 0 <= k < |before| && before[k].data == h.received[i].body;
      assert after[k] == before[k];
    }
  }

  class HttpSession {
    const handler: Handler
    var request: Option<Request>
    var response: Option<Response>
    var pendingReads: nat    // async reads without a completion yet
    var pendingWrites: nat   // async writes without a completion yet
    var closed: bool
    ghost var history: History

    /** One operation is outstanding until the session closes, none after; the response
        being written is the last one prepared, all earlier ones are out. */
    ghost predicate Valid()
      reads this, handler, handler.writer, handler.writer.redis
    {
      && handler.Valid()
      && pendingReads + pendingWrites == (if closed then 0 else 1)
      && Faithful(history, handler.checker, handler.writer.redis.entries)
      && (pendingWrites == 1 ==> response.Some? && history.answers != [])
      && (pendingWrites == 1 ==> response.value == history.answers[|history.answers| - 1])
      && (pendingWrites == 1 ==> history.written == |history.answers| - 1)
      && (pendingReads == 1 ==> history.written == |history.answers|)
    }

    /** `run` dispatches the first read. */
    constructor (handler: Handler)
      requires handler.Valid()
      ensures Valid() && this.handler == handler && pendingReads == 1 && history == History([], [], 0)
    {
      this.handler := handler;
      request, response := None, None;
      pendingReads, pendingWrites, closed := 1, 0, false;
      history := History([], [], 0);
    }

    method Read()
      requires pendingReads == 0 && pendingWrites == 0 && !closed
      modifies this`request, this`pendingReads
      ensures request.None? && pendingReads == 1
    {
      request := None;
      pendingReads := pendingReads + 1;
    }

    method Shutdown()
      requires pendingReads == 0 && pendingWrites == 0
      modifies this`closed
      ensures closed
    {
      closed := true;
    }

    /** The completion of an outstanding read. */
    method OnRead(thread: nat, end: ReadEnd)
      requires Valid() && pendingReads == 1
      modifies this, handler, handler.writer, handler.writer.redis
      ensures Valid()
      ensures end.Got? ==> pendingWrites == 1 && history.received == old(history.received) + [end.request]
      ensures end.Got? ==> old(history.answers) <= history.answers && history.written == old(history.written)
      ensures !end.Got? ==> closed && history == old(history)
    {
      pendingReads := pendingReads - 1;
      if !end.Got? {
        Shutdown();
        return;
      }
      request := Some(end.request);
      HandleRequest(thread, end.request);
      pendingWrites := pendingWrites + 1;
    }

    method HandleRequest(thread: nat, r: Request)
      requires handler.Valid() && Faithful(history, handler.checker, handler.writer.redis.entries)
      modifies this`response, this`history, handler, handler.writer, handler.writer.redis
      ensures handler.Valid() && Faithful(history, handler.checker, handler.writer.redis.entries)
      ensures history.received == old(history.received) + [r] && history.written == old(history.written)
      ensures response.Some? && history.answers == old(history.answers) + [response.value]
      ensures !ForHandler(r) ==> handler.writer.redis.entries == old(handler.writer.redis.entries)
      ensures if r.post && r.target == "/instrument" then
                && |handler.asked| == |old(handler.asked)| + 1 && old(handler.asked) <= handler.asked
                && handler.asked[|old(handler.asked)|].data == r.body
                && Documented(r, handler.asked[|old(handler.asked)|].outcome, response.value)
              else handler.asked == old(handler.asked) && Documented(r, Outcome(Okay, ""), response.value)
      ensures ForHandler(r) ==> (response.value.status == 400 <==> !handler.checker.accepts(r.body))
      ensures ForHandler(r) && !handler.checker.accepts(r.body) ==>
        response.value == Answer(r, Outcome(BadData, handler.checker.complaint(r.body)))
    {
      var outcome := Outcome(Okay, "");
      ghost var before := handler.writer.redis.entries;
      if ForHandler(r) {
        ghost var copies;
        outcome, copies := handler.Handle(thread, r.body);
        assert copies >= 1 ==> handler.writer.redis.entries[|before|].data == r.body;
      }
      response := Some(Answer(r, outcome));
      FaithfulPush(history, handler.checker, before, handler.writer.redis.entries, r, outcome);
      history := history.(received := history.received + [r], answers := history.answers + [response.value]);
    }

    /** The completion of an outstanding write: read on exactly if the request that is
        answered asked for it, otherwise close. */
    method OnWrite(failed: bool)
      requires Valid() && pendingWrites == 1
      modifies this
      ensures Valid()
      ensures failed ==> closed && history == old(history)
      ensures !failed ==> history == old(history).(written := old(history.written) + 1)
      ensures !failed ==> var r := history.received[|history.received| - 1];
        (pendingReads == 1 <==> StaysOpen(r.version, r.connection))
    {
      pendingWrites := pendingWrites - 1;
      if failed {
        Shutdown();
        return;
      }
      history := history.(written := history.written + 1);
      ghost var r := history.received[|history.received| - 1];
      assert Answers(r, response.value);
      if StaysOpen(response.value.version, response.value.connection) {
        Read();
      } else {
        Shutdown();
      }
    }

    /** The life of a session: completions arrive, on any worker thread, as long as
        something is outstanding. After close nothing does, so nothing happens. */
    method Live(completions: nat)
      requires Valid()
      modifies this, handler, handler.writer, handler.writer.redis
      ensures Valid() && old(history.received) <= history.received && old(history.answers) <= history.answers
      ensures old(closed) ==> closed && history == old(history)
      ensures old(closed) ==> handler.writer.redis.entries == old(handler.writer.redis.entries)
    {
      for i := 0 to completions
        invariant Valid() && old(history.received) <= history.received && old(history.answers) <= history.answers
        invariant old(closed) ==> closed && history == old(history)
        invariant old(closed) ==> handler.writer.redis.entries == old(handler.writer.redis.entries)
      {
        var worker: int, end: ReadEnd, failed: bool := *, *, *;
        if pendingReads == 1 {
          OnRead(if worker < 0 then 0 else worker, end);
        } else if pendingWrites == 1 {
          OnWrite(failed);
        }
      }
    }
  }
}
