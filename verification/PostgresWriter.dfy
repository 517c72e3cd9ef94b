/** `PostgresWriter`: a connection per thread and up to two retries. */
module PostgresWriter {
  import opened Text
  import opened Libpqxx
  import opened Writers

  const RECONNECT_RETRIES := 2

  // ------------------------------------------------------------- the write, step by step

  /** `write` as a program: what it does after the attempts made so far. Only a broken
      connection is tried again. */
  function Next(trace: seq<CallEnd>): Action {
    if trace == [] then Action.Insert else
    match trace[|trace| - 1]
    case Committed => Return(WriteResult(Stored, ""))
    case BrokenConnection =>
      if |trace| <= RECONNECT_RETRIES then Action.Insert else Return(WriteResult(StorageUnavailable, ""))
    case _ => Return(WriteResult(Generic, ""))
  }

  predicate Attempted(e: CallEnd) { e.Committed? || e.BrokenConnection? || e.OtherException? }

  predicate Fits(trace: seq<CallEnd>, e: CallEnd) { Next(trace).Insert? && Attempted(e) }

  /** How many rows the attempts can have added: a commit one, an exception of unknown fate
      one or none. */
  ghost predicate Traced(trace: seq<CallEnd>, copies: nat) {
    && Follows(Fits, trace)
    && (trace == [] || trace[|trace| - 1].BrokenConnection? ==> copies == 0)
    && (trace != [] && trace[|trace| - 1].Committed? ==> copies == 1)
    && copies <= 1
  }

  predicate AllBroken(trace: seq<CallEnd>) { forall i :: 0 <= i < |trace| ==> trace[i].BrokenConnection? }

  lemma AttemptFollows(trace: seq<CallEnd>, e: CallEnd)
    requires Follows(Fits, trace) && Next(trace).Insert? && Attempted(e)
    ensures Follows(Fits, trace + [e])
    ensures e.BrokenConnection? && |trace| < RECONNECT_RETRIES ==> Next(trace + [e]).Insert?
    ensures AllBroken(trace) && e.BrokenConnection? ==> AllBroken(trace + [e])
  {
    FollowsPush(Fits, trace, e);
  }

  // ------------------------------------------------------------------ library calls

  const INSERT_TEXT := "INSERT INTO messages (data) VALUES ($1)"

  lemma InsertMeans(data: string)
    ensures Meant(Statement(INSERT_TEXT, Binary(data))) == Meaning.Insert(data)
  {}

  /** One pass of the loop: connect if the thread has no connection, then insert in a transaction
      of its own. */
  function Plan(c: nat, opens: bool, data: string): seq<Deed> {
    var deeds := [Deed.Begin(c), Deed.Exec(c, Statement(INSERT_TEXT, Binary(data))), Deed.Commit(c)];
    if opens then [Deed.Connect] + deeds else deeds
  }

  /** How the try block ends when its last library call ended this way. */
  function AttemptEnd(end: End): CallEnd {
    match end
    case Returned => Committed
    case Broke => BrokenConnection
    case Threw => OtherException
  }

  ghost predicate IsAttempt(calls: seq<Call>, data: string, mayOpen: bool, end: CallEnd) {
    exists c: nat, opens: bool ::
      Carried(calls, Plan(c, opens, data)) && (opens ==> mayOpen) && end == AttemptEnd(EndOf(calls))
  }

  ghost predicate AreAttempts(tries: seq<seq<Call>>, data: string, mayOpen: bool, trace: seq<CallEnd>) {
    |tries| == |trace| && forall i :: 0 <= i < |trace| ==> IsAttempt(tries[i], data, mayOpen, trace[i])
  }

  /** At most three attempts, all but the last of which ended with a broken connection; the last
      decides what is reported. */
  predicate Ends(trace: seq<CallEnd>, result: WriteResult) {
    && 1 <= |trace| <= 3 && AllBroken(trace[..|trace| - 1])
    && match trace[|trace| - 1]
       case Committed => result.error.Stored?
       case BrokenConnection => result.error.StorageUnavailable? && |trace| == 3
       case _ => result.error.Generic?
  }

  /** What the catch blocks, or the end of the try block, report. */
  function ResultOf(last: CallEnd): WriteResult {
    match last
    case Committed => WriteResult(Stored, "")
    case BrokenConnection => WriteResult(StorageUnavailable, "")
    case _ => WriteResult(Generic, "")
  }

  lemma Finished(before: seq<CallEnd>, last: CallEnd, copies: nat)
    requires Follows(Fits, before + [last]) && Attempted(last) && |before| <= 2
    requires AllBroken(before) && (last.BrokenConnection? ==> |before| == 2)
    requires copies <= 1 && (last.BrokenConnection? ==> copies == 0) && (last.Committed? ==> copies == 1)
    ensures Ends(before + [last], ResultOf(last)) && Next(before + [last]) == Return(ResultOf(last))
    ensures Traced(before + [last], copies) && Reported(true, ResultOf(last), copies)
  {}

  lemma AttemptsPush(tries: seq<seq<Call>>, calls: seq<Call>, data: string, mayOpen: bool, trace: seq<CallEnd>,
                     end: CallEnd)
    requires AreAttempts(tries, data, mayOpen, trace) && IsAttempt(calls, data, mayOpen, end)
    ensures AreAttempts(tries + [calls], data, mayOpen, trace + [end])
  {
    forall i | 0 <= i <= |trace| ensures IsAttempt((tries + [calls])[i], data, mayOpen, (trace + [end])[i]) {
      if i < |trace| { assert IsAttempt(tries[i], data, mayOpen, trace[i]); }
    }
  }

  function Flat(tries: seq<seq<Call>>): seq<Call> {
    if tries == [] then [] else Flat(tries[..|tries| - 1]) + tries[|tries| - 1]
  }

  lemma FlatPush(before: seq<Call>, tries: seq<seq<Call>>, calls: seq<Call>)
    ensures before + Flat(tries) + calls == before + Flat(tries + [calls])
  {
    assert (tries + [calls])[..|tries|] == tries;
  }

  lemma Opening(before: seq<Call>, opening: seq<Call>, calls: seq<Call>, c: nat, data: string)
    requires opening == [] || opening == [Call(Deed.Connect, Returned)]
    requires Carried(calls, Plan(c, false, data))
    ensures before + opening + calls == before + (opening + calls) && EndOf(opening + calls) == EndOf(calls)
    ensures Carried(opening + calls, Plan(c, opening != [], data))
  {
    if opening == [] { assert opening + calls == calls; }
  }

  ghost predicate HasSlot(slots: seq<Slot>, thread: nat) { exists i :: 0 <= i < |slots| && slots[i].thread == thread }

  class Writer {
    const db: Database
    var connections: seq<Slot>

    ghost predicate Valid()
      reads this, db
    {
      && db.Valid() && OnePerThread(connections) && OnePerConnection(connections)
      && forall i :: 0 <= i < |connections| ==> connections[i].connection in db.links
    }

    constructor (db: Database)
      requires db.Valid()
      ensures Valid() && this.db == db && connections == []
    {
      this.db := db;
      connections := [];
    }

    /** Opening a connection can throw; then nothing was added to the pool. */
    method FindConnection(thread: nat) returns (c: Option<nat>, failure: End, ghost made: seq<Call>)
      requires Valid()
      modifies this`connections, db`links, db`works, db`nextLink, db`calls
      ensures Valid() && db.calls == old(db.calls) + made && (c.None? ==> !failure.Returned?)
      ensures c.Some? ==> Slot(thread, c.value) in connections && c.value in db.links
      ensures c.None? ==> connections == old(connections) && made == [Call(Deed.Connect, failure)]
      ensures HasSlot(old(connections), thread) ==>
        c.Some? && made == [] && connections == old(connections) && db.links == old(db.links)
      ensures !HasSlot(old(connections), thread) && c.Some? ==>
        && made == [Call(Deed.Connect, Returned)] && c.value !in old(db.links)
        && connections == old(connections) + [Slot(thread, c.value)]
    {
      for i := 0 to |connections|
        invariant forall k :: 0 <= k < i ==> connections[k].thread != thread
      {
        if connections[i].thread == thread {
          return Some(connections[i].connection), Returned, [];
        }
      }
      var context;
      failure, context := db.Connect();
      made := [Call(Deed.Connect, failure)];
      if !failure.Returned? {
        return None, failure, made;
      }
      c := Some(context);
      connections := connections + [Slot(thread, context)];
      assert connections[|connections| - 1] == Slot(thread, context);
    }

    /** The INSERT in a transaction of its own. */
    method Insert(c: nat, data: string) returns (end: End, ghost made: seq<Call>)
      requires db.Valid() && c in db.links
      modifies db
      ensures db.Valid() && old(db.links).Keys == db.links.Keys
      ensures db.calls == old(db.calls) + made && Carried(made, Plan(c, false, data)) && end == EndOf(made)
      ensures end.Returned? ==> db.payloads == old(db.payloads) + [data]
      ensures end.Broke? ==> db.payloads == old(db.payloads)
      ensures end.Threw? ==> db.payloads == old(db.payloads) || db.payloads == old(db.payloads) + [data]
    {
      var st := Statement(INSERT_TEXT, Binary(data));
      end := db.Begin(c);
      made := [Call(Deed.Begin(c), end)];
      if end.Returned? {
        var none;
        end, none := db.Exec(c, st);
        made := made + [Call(Deed.Exec(c, st), end)];
        if end.Returned? {
          ghost var applied;
          end, applied := db.Commit(c);
          made := made + [Call(Deed.Commit(c), end)];
        }
      }
    }

    /** The try block. A broken connection is only reported for an insert that was not
        committed; any other exception leaves it open. */
    method TryInsert(thread: nat, data: string) returns (attempt: CallEnd, ghost made: seq<Call>)
      requires Valid()
      modifies this, db
      ensures Valid() && old(connections) <= connections && Attempted(attempt)
      ensures db.calls == old(db.calls) + made
      ensures forall mayOpen ::
        (!mayOpen ==> HasSlot(old(connections), thread)) ==> IsAttempt(made, data, mayOpen, attempt)
      ensures HasSlot(old(connections), thread) ==> connections == old(connections)
      ensures attempt.Committed? ==> db.payloads == old(db.payloads) + [data]
      ensures attempt.BrokenConnection? ==> db.payloads == old(db.payloads)
      ensures attempt.OtherException? ==> db.payloads == old(db.payloads) || db.payloads == old(db.payloads) + [data]
    {
      var c, end;
      c, end, made := FindConnection(thread);
      if c.None? {
        assert Carried(made, Plan(0, true, data));
      } else {
        ghost var more;
        end, more := Insert(c.value, data);
        Opening(old(db.calls), made, more, c.value, data);
        assert Carried(made + more, Plan(c.value, made != [], data));
        made := made + more;
      }
      attempt := AttemptEnd(end);
    }

    /** One pass of the loop, added to the account of the passes before. */
    method NextTry(thread: nat, data: string, ghost mayOpen: bool, ghost start: seq<Call>, ghost trace: seq<CallEnd>,
                   ghost tries: seq<seq<Call>>)
      returns (attempt: CallEnd, ghost trace': seq<CallEnd>, ghost tries': seq<seq<Call>>)
      requires Valid() && (!mayOpen ==> HasSlot(connections, thread))
      requires Follows(Fits, trace) && Next(trace).Insert?
      requires db.calls == start + Flat(tries) && AreAttempts(tries, data, mayOpen, trace)
      modifies this, db
      ensures Valid() && old(connections) <= connections && (!mayOpen ==> HasSlot(connections, thread))
      ensures trace' == trace + [attempt] && Follows(Fits, trace') && Attempted(attempt)
      ensures attempt.BrokenConnection? && |trace| < RECONNECT_RETRIES ==> Next(trace').Insert?
      ensures AllBroken(trace) && attempt.BrokenConnection? ==> AllBroken(trace')
      ensures db.calls == start + Flat(tries') && AreAttempts(tries', data, mayOpen, trace')
      ensures attempt.Committed? ==> db.payloads == old(db.payloads) + [data]
      ensures attempt.BrokenConnection? ==> db.payloads == old(db.payloads)
      ensures attempt.OtherException? ==> db.payloads == old(db.payloads) || db.payloads == old(db.payloads) + [data]
    {
      ghost var made;
      attempt, made := TryInsert(thread, data);
      AttemptFollows(trace, attempt);
      FlatPush(start, tries, made);
      AttemptsPush(tries, made, data, mayOpen, trace, attempt);
      trace', tries' := trace + [attempt], tries + [made];
    }

    /** At most three attempts. Success stores exactly one copy, an unavailable storage
        none, any other error at most one. `trace` is the account of the attempts: they follow
        the program, and the result is what the program returns. Each attempt made the library
        calls in `tries`, and all but the last ended with a broken connection. */
    method Write(thread: nat, data: string)
      returns (result: WriteResult, ghost trace: seq<CallEnd>, ghost tries: seq<seq<Call>>)
      requires Valid()
      modifies this, db
      ensures Valid() && old(connections) <= connections
      ensures old(db.payloads) <= db.payloads && Traced(trace, |db.payloads| - |old(db.payloads)|)
      ensures Next(trace) == Return(result) && Reported(true, result, |db.payloads| - |old(db.payloads)|)
      ensures db.calls == old(db.calls) + Flat(tries)
      ensures AreAttempts(tries, data, !HasSlot(old(connections), thread), trace) && Ends(trace, result)
      ensures result.error.Stored? ==> db.payloads == old(db.payloads) + [data]
      ensures result.error.StorageUnavailable? ==> db.payloads == old(db.payloads)
      ensures result.error.Generic? ==> db.payloads == old(db.payloads) || db.payloads == old(db.payloads) + [data]
    {
      var retriesLeft := RECONNECT_RETRIES;
      ghost var mayOpen, start := !HasSlot(connections, thread), db.calls;
      trace, tries := [], [];
      assert start + Flat(tries) == start;
      while true
        invariant Valid() && old(connections) <= connections && (!mayOpen ==> HasSlot(connections, thread))
        invariant 0 <= retriesLeft <= RECONNECT_RETRIES && |trace| == RECONNECT_RETRIES - retriesLeft
        invariant Follows(Fits, trace) && Next(trace).Insert?
        invariant AllBroken(trace)
        invariant db.calls == start + Flat(tries) && AreAttempts(tries, data, mayOpen, trace)
        invariant db.payloads == old(db.payloads)
        decreases retriesLeft
      {
        var attempt;
        ghost var before := trace;
        attempt, trace, tries := NextTry(thread, data, mayOpen, start, trace, tries);
        if attempt.BrokenConnection? && retriesLeft != 0 {
          retriesLeft := retriesLeft - 1;
          continue;
        }
        result := ResultOf(attempt);
        Finished(before, attempt, |db.payloads| - |old(db.payloads)|);
        return result, trace, tries;
      }
    }
  }
}
