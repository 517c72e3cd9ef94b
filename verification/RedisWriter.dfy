/** `RedisWriter`: a connection per thread, one reconnect and one repeated XADD.

    The library's reply and context tables make ownership exact: every reply is freed
    once, every context sits in one slot or has been freed. */
module RedisWriter {
  import opened Text
  import opened RedisCommands
  import opened RedisWire
  import opened Hiredis
  import opened Writers

  /** `after` is `before` with `k` copies of `data` appended. */
  ghost predicate Copied(before: seq<Entry>, after: seq<Entry>, data: string, k: nat) {
    && |after| == |before| + k && before <= after
    && forall i :: |before| <= i < |after| ==> after[i].data == data
  }

  lemma CopiedTwice(a: seq<Entry>, b: seq<Entry>, c: seq<Entry>, data: string, j: nat, k: nat)
    requires Copied(a, b, data, j) && Copied(b, c, data, k)
    ensures Copied(a, c, data, j + k)
  {}

  // ------------------------------------------------------------- the write, step by step

  /** The context's error, overridden by an error reply. */
  function Judge(err: Err, reply: ReplyPtr): (r: WriteResult)
    ensures r.error.Stored? <==> err.OK? && !(reply.Ptr? && reply.value.Error?)
  {
    if reply.Ptr? && reply.value.Error? then WriteResult(Generic, reply.value.text)
    else
      match err
      case EOF => WriteResult(StorageUnavailable, "")
      case IO => WriteResult(StorageUnavailable, "")
      case OK => WriteResult(Stored, "")
      case OTHER => WriteResult(Generic, "")
  }

  /** `write` as a program: what it does after the calls made so far. Only the first XADD is
      followed by a reconnect. */
  function Next(trace: seq<CallEnd>): Action {
    if trace == [] then FindConnection else
    match trace[|trace| - 1]
    case NotFound(message) => Return(WriteResult(StorageUnavailable, message))
    case Found(_) => Insert
    case Reconnected => Insert
    case NotReconnected(message) => Return(WriteResult(StorageUnavailable, message))
    case Replied(value) => Return(Judge(OK, Ptr(0, value)))
    case NoReply(err) =>
      if |trace| == 2 && (err.EOF? || err.IO?) then Reconnect else Return(Judge(err, Null))
    case _ => Return(WriteResult(Generic, ""))
  }

  /** Is the connection fit to send on? A context with an error sends nothing. */
  predicate Sends(trace: seq<CallEnd>) {
    trace != [] && (trace[|trace| - 1] == Found(OK) || trace[|trace| - 1].Reconnected?)
  }

  /** What the next call can come back with. */
  predicate Fits(trace: seq<CallEnd>, e: CallEnd) {
    match Next(trace)
    case FindConnection => e.Found? || e.NotFound?
    case Reconnect => e.Reconnected? || e.NotReconnected?
    case Insert =>
      if Sends(trace) then e.Replied? || (e.NoReply? && !e.err.OK?)
      else e.NoReply? && !e.err.OK? && trace != [] && trace[|trace| - 1] == Found(e.err)
    case Return(_) => false
  }

  function EndOf(reply: ReplyPtr, err: Err): CallEnd {
    if reply.Ptr? then Replied(reply.value) else NoReply(err)
  }

  /** What follows an XADD. */
  lemma AfterAdd(trace: seq<CallEnd>, reply: ReplyPtr, err: Err)
    requires reply.Null? <==> !err.OK?
    ensures Next(trace + [EndOf(reply, err)]) ==
      if |trace| == 1 && (err.EOF? || err.IO?) then Reconnect else Return(Judge(err, reply))
  {}

  /** What is reported when the last XADD ended, or could not be repeated. */
  function Verdict(err: Err, last: Result<ReplyPtr>): WriteResult {
    if last.Ok? then Judge(err, last.value) else WriteResult(StorageUnavailable, last.reason)
  }

  predicate Executed(e: CallEnd) { e.Replied? && !e.value.Error? }

  /** How many XADDs were executed for sure, and how many can have been. */
  function Sure(trace: seq<CallEnd>): nat {
    if trace == [] then 0
    else Sure(trace[..|trace| - 1]) + if Executed(trace[|trace| - 1]) then 1 else 0
  }

  function Possible(trace: seq<CallEnd>): nat {
    if trace == [] then 0
    else
      var before, e := trace[..|trace| - 1], trace[|trace| - 1];
      Possible(before) + if Executed(e) || (e.NoReply? && Sends(before)) then 1 else 0
  }

  lemma {:induction false} SureIsPossible(trace: seq<CallEnd>)
    ensures Sure(trace) <= Possible(trace)
  {
    if trace != [] { SureIsPossible(trace[..|trace| - 1]); }
  }

  lemma CountPush(trace: seq<CallEnd>, e: CallEnd)
    ensures Sure(trace + [e]) == Sure(trace) + if Executed(e) then 1 else 0
    ensures Possible(trace + [e]) == Possible(trace) + if Executed(e) || (e.NoReply? && Sends(trace)) then 1 else 0
  {
    assert (trace + [e])[..|trace|] == trace;
  }

  /** What the class has done when it has made these calls. */
  ghost predicate Traced(trace: seq<CallEnd>, copies: nat) {
    Follows(Fits, trace) && Sure(trace) <= copies <= Possible(trace)
  }

  lemma TracedPush(trace: seq<CallEnd>, copies: nat, e: CallEnd, more: nat)
    requires Traced(trace, copies) && Fits(trace, e)
    requires (if Executed(e) then 1 else 0) <= more
    requires more <= if Executed(e) || (e.NoReply? && Sends(trace)) then 1 else 0
    ensures Traced(trace + [e], copies + more)
  {
    FollowsPush(Fits, trace, e);
    CountPush(trace, e);
  }

  /** At most four calls: a connection, an XADD, and a reconnect and another XADD only if the
      first one failed with EOF or IO. */
  lemma Shape(trace: seq<CallEnd>)
    requires Follows(Fits, trace)
    ensures |trace| <= 4
    ensures |trace| >= 1 ==> trace[0].Found? || trace[0].NotFound?
    ensures |trace| >= 2 ==> trace[0].Found? && (trace[1].Replied? || trace[1].NoReply?)
    ensures |trace| >= 2 && !trace[0].err.OK? ==> trace[1] == NoReply(trace[0].err)
    ensures |trace| >= 3 ==> trace[1].NoReply? && (trace[1].err.EOF? || trace[1].err.IO?)
    ensures |trace| >= 3 ==> trace[2].Reconnected? || trace[2].NotReconnected?
    ensures |trace| == 4 ==> trace[2].Reconnected? && (trace[3].Replied? || trace[3].NoReply?)
  {
    forall i | 0 <= i < |trace| && i < 5 ensures Fits(trace[..i], trace[i]) {}
    assert |trace| > 0 ==> Fits(trace[..0], trace[0]);
    assert |trace| > 1 ==> Fits(trace[..1], trace[1]);
    assert |trace| > 2 ==> Fits(trace[..2], trace[2]);
    assert |trace| > 3 ==> Fits(trace[..3], trace[3]);
    assert |trace| > 4 ==> Fits(trace[..4], trace[4]);
  }

  lemma OneLess(trace: seq<CallEnd>, i: nat)
    requires 0 < i <= |trace|
    ensures var before, e := trace[..i - 1], trace[i - 1];
      && Sure(trace[..i]) == Sure(before) + (if Executed(e) then 1 else 0)
      && Possible(trace[..i]) == Possible(before) + (if Executed(e) || (e.NoReply? && Sends(before)) then 1 else 0)
  {
    assert trace[..i][..i - 1] == trace[..i - 1];
  }

  /** The first two calls. */
  lemma FirstCounts(trace: seq<CallEnd>, n: nat)
    requires Follows(Fits, trace) && n <= |trace| && n <= 2
    ensures Possible(trace[..n]) <= if n == 2 && trace[0] == Found(OK) then 1 else 0
  {
    Shape(trace);
    if n >= 1 { OneLess(trace, n); }
    if n == 2 { OneLess(trace, 1); }
  }

  /** Only the second and the fourth call can add a copy. */
  lemma CallCounts(trace: seq<CallEnd>)
    requires Follows(Fits, trace)
    ensures Possible(trace) <=
      (if |trace| >= 2 && trace[0] == Found(OK) then 1 else 0) + if |trace| == 4 then 1 else 0
    ensures trace != [] && Executed(trace[|trace| - 1]) ==> Sure(trace) >= 1
  {
    Shape(trace);
    var n := |trace|;
    assert trace[..n] == trace;
    FirstCounts(trace, if n < 2 then n else 2);
    if n >= 1 { OneLess(trace, n); }
    if n == 4 { OneLess(trace, 3); }
  }

  /** What the calls of a finished `write` say about copies and result. */
  lemma TraceCounts(trace: seq<CallEnd>, copies: nat)
    requires Traced(trace, copies) && Next(trace).Return?
    ensures copies <= 2 && (copies == 2 ==> |trace| > 2)
    ensures Next(trace).result.error.Stored? ==> copies >= 1
    ensures trace != [] && trace[0].Found? && (trace[0].err.EOF? || trace[0].err.IO?) ==>
      |trace| > 2 && copies <= 1
    ensures trace != [] && trace[0] == Found(OTHER) ==>
      |trace| == 2 && Next(trace).result.error.Generic? && copies == 0
  {
    Shape(trace);
    CallCounts(trace);
    assert |trace| >= 1;
    if Next(trace).result.error.Stored? {
      assert Fits(trace[..|trace| - 1], trace[|trace| - 1]);
    }
  }

  lemma NotFoundTraced(reason: string)
    ensures Traced([NotFound(reason)], 0)
    ensures Next([NotFound(reason)]) == Return(WriteResult(StorageUnavailable, reason))
  {
    TracedPush([], 0, NotFound(reason), 0);
    assert [] + [NotFound(reason)] == [NotFound(reason)];
  }

  lemma StartTraced(err: Err)
    ensures Traced([Found(err)], 0)
  {
    TracedPush([], 0, Found(err), 0);
    assert [] + [Found(err)] == [Found(err)];
  }

  // ------------------------------------------------------------------ library calls

  /** What `trace` says in the writer's terms, the library's account `made` says in its own. */
  predicate Accounts(trace: seq<CallEnd>, made: seq<Call>) {
    && 0 < |made| && 1 < |trace| && made[0].Runs? && trace[0] == Found(made[0].met) && trace[1] == EndOfCall(made[0])
    && if |made| == 1 then |trace| == 2
       else if |made| == 4 then |trace| == 4 && trace[2].Reconnected? && trace[3] == EndOfCall(made[3])
       else |trace| == 3 && trace[2].NotReconnected?
  }

  /** The error the context had when the first XADD was sent. */
  predicate Meets(made: seq<Call>, err: Err) { made != [] && made[0].Runs? && made[0].met == err }

  function EndOfCall(call: Call): CallEnd {
    if !call.Runs? then NoReply(OTHER)
    else if call.reply.Some? then Replied(call.reply.value)
    else NoReply(call.err)
  }

  predicate EndsWith(call: Call, reply: ReplyPtr, err: Err) {
    call.Runs? && call.reply == ValueOf(reply) && call.err == err && (reply.Null? <==> !err.OK?)
  }

  lemma ReportsFor(result: WriteResult, err: Err, reply: Result<ReplyPtr>, call: Call, more: seq<Call>,
                   last: Option<Call>)
    requires result == Verdict(err, reply)
    requires if last.Some? then reply.Ok? && EndsWith(last.value, reply.value, err) && |more| == 2
             else if more != [] then reply.Throw? && Explains(reply.reason, more) && |more| <= 2
             else reply.Ok? && EndsWith(call, reply.value, err)
    ensures Reports(result, Attempts(call, more, last))
  {
    var made := Attempts(call, more, last);
    if last.Some? {
      assert made[|made| - 1] == last.value;
    } else {
      assert made[1..] == more;
    }
  }

  lemma AccountsFor(trace: seq<CallEnd>, call: Call, more: seq<Call>, last: Option<Call>, c: nat, login: Login)
    requires call.Runs? && trace != [] && trace[0] == Found(call.met)
    requires if last.Some? then
               && last.value.Runs? && ReconnectsWell(more, c, login)
               && trace == [Found(call.met)] + [EndOfCall(call)] + [Reconnected] + [EndOfCall(last.value)]
             else if more != [] then
               && ReconnectFails(more, c, login) && |trace| == 3
               && trace[1] == EndOfCall(call) && trace[2].NotReconnected?
             else trace == [Found(call.met)] + [EndOfCall(call)]
    ensures Accounts(trace, Attempts(call, more, last)) && Meets(Attempts(call, more, last), call.met)
    ensures |trace| > 2 <==> last.Some? || more != []
  {}

  /** What is reported when the last XADD ended this way. */
  predicate ReportsCall(result: WriteResult, last: Call) {
    && last.Runs?
    && (last.err.EOF? || last.err.IO? ==> result.error.StorageUnavailable?)
    && (last.err.OTHER? ==> result.error.Generic?)
    && (last.err.OK? && Went(last) ==> result == WriteResult(Stored, ""))
    && (last.err.OK? && !Went(last) ==> result.error.Generic?)
    && (last.reply.Some? && last.reply.value.Error? ==> result.message == last.reply.value.text)
  }

  /** The report of a write that had a connection: a reconnect that failed makes the storage
      unavailable, otherwise the last XADD decides. */
  predicate Reports(result: WriteResult, made: seq<Call>) {
    if |made| == 1 || |made| == 4 then ReportsCall(result, made[|made| - 1])
    else made != [] && result.error.StorageUnavailable? && Explains(result.message, made[1..])
  }

  /** What the client is told about a connection that could not be made or renewed. */
  predicate Explains(reason: string, calls: seq<Call>) {
    && calls != []
    && (calls[0].Connects? && !calls[0].made ==> reason == "Failed to connect to Redis")
    && (calls[0].Reconnects? && !calls[0].err.OK? ==> reason == "Failed to reconnect to Redis")
    && (|calls| > 1 && calls[1].Runs? && calls[1].reply.Some? && calls[1].reply.value.Error? ==>
          reason == calls[1].reply.value.text)
  }

  lemma AddedAndGone(s: set<nat>, x: nat)
    requires x !in s
    ensures s + {x} - {x} == s
  {}

  datatype Written = Written(thread: nat, data: string, result: WriteResult)

  class Writer {
    const redis: Redis
    const login: Login
    var connections: seq<Slot>
    ghost var writes: seq<Written>   // all calls of `Write`

    /** Every live context is owned by exactly one slot, and no thread has two. */
    ghost predicate Valid()
      reads this, redis
    {
      redis.Valid() && Owned(connections, redis.contexts.Keys)
    }

    constructor (redis: Redis, login: Login)
      requires redis.Valid() && redis.contexts == map[]
      ensures Valid() && this.redis == redis && this.login == login && connections == [] && writes == []
    {
      this.redis := redis;
      this.login := login;
      connections, writes := [], [];
    }

    lemma OwnSlot(slots: seq<Slot>, thread: nat, c: nat, opening: seq<Call>, made: seq<Call>, data: string)
      requires Slot(thread, c) in slots && WithRetry(made, c, Xadd(data), login, {EOF, IO})
      requires opening == [] || ConnectsWell(opening, c, login)
      ensures WrittenAs(slots, thread, opening, made, data)
    {
      var i :| 0 <= i < |slots| && slots[i] == Slot(thread, c);
      assert slots[i].thread == thread && slots[i].connection == c;
    }

    /** The XADDs went over the thread's own connection, found or freshly opened. */
    ghost predicate WrittenAs(slots: seq<Slot>, thread: nat, opening: seq<Call>, made: seq<Call>, data: string) {
      exists i :: 0 <= i < |slots| && slots[i].thread == thread
        && WithRetry(made, slots[i].connection, Xadd(data), login, {EOF, IO})
        && (opening == [] || ConnectsWell(opening, slots[i].connection, login))
    }

    /** A null result comes with every context it made freed again. */
    method CreateConnection() returns (c: Result<nat>, ghost made: seq<Call>)
      requires Valid()
      modifies redis
      ensures redis.Valid() && redis.replies == old(redis.replies) && redis.entries == old(redis.entries)
      ensures redis.reconnects == old(redis.reconnects) && redis.calls == old(redis.calls) + made
      ensures c.Throw? ==>
        redis.contexts == old(redis.contexts) && ConnectFails(made, login, false) && Explains(c.reason, made)
      ensures c.Ok? ==> c.value !in old(redis.contexts) && redis.contexts == old(redis.contexts)[c.value := OK]
      ensures c.Ok? ==> ConnectsWell(made, c.value, login)
    {
      var connected, context := redis.Connect();
      ghost var first := Connects(context, connected, if connected then redis.contexts[context] else OTHER);
      if !connected {
        c, made := Throw("Failed to connect to Redis"), [first];
      } else if !redis.contexts[context].OK? {
        redis.Free(context);
        c, made := Throw("connection error"), [first, Frees(context)];
      } else {
        ghost var last;
        c, last := Authenticate(context);
        made := [first, last];
        if c.Throw? {
          redis.Free(context);
          made := [first, last, Frees(context)];
        }
      }
    }

    method Authenticate(connection: nat) returns (c: Result<nat>, ghost last: Call)
      requires redis.Valid() && connection in redis.contexts
      modifies redis
      ensures redis.reconnects == old(redis.reconnects)
      ensures redis.Valid() && redis.replies == old(redis.replies) && redis.entries == old(redis.entries)
      ensures connection in redis.contexts
      ensures redis.contexts == old(redis.contexts)[connection := redis.contexts[connection]]
      ensures c.Ok? ==> c.value == connection && redis.contexts[connection].OK?
      ensures redis.calls == old(redis.calls) + [last] && Says(last, connection, Auth(login)) && (c.Ok? <==> Went(last))
      ensures c.Throw? && last.reply.Some? ==> last.reply.value.Error? && c.reason == last.reply.value.text
    {
      AuthReading(login);
      ghost var met := redis.contexts[connection];
      var reply := redis.Run(connection, AUTH_FORMAT, [login.user, login.password], Auth(login));
      last := Runs(connection, Auth(login), met, ValueOf(reply), redis.contexts[connection]);
      if !redis.contexts[connection].OK? {
        c := Throw("connection error");  // the reply is null here: nothing to free
      } else {
        c := if reply.Ptr? && reply.value.Error? then Throw(reply.value.text) else Ok(connection);
        AddedAndGone(old(redis.replies), reply.handle);
        redis.FreeReply(reply);
      }
    }

    method Reconnect(connection: nat) returns (c: Result<nat>, ghost made: seq<Call>)
      requires redis.Valid() && connection in redis.contexts
      modifies redis
      ensures redis.reconnects == old(redis.reconnects) + 1
      ensures redis.Valid() && redis.replies == old(redis.replies) && redis.entries == old(redis.entries)
      ensures connection in redis.contexts
      ensures redis.contexts == old(redis.contexts)[connection := redis.contexts[connection]]
      ensures c.Ok? ==> c.value == connection && redis.contexts[connection].OK?
      ensures redis.calls == old(redis.calls) + made
      ensures if c.Ok? then ReconnectsWell(made, connection, login)
              else ReconnectFails(made, connection, login) && Explains(c.reason, made)
    {
      var ok := redis.Reconnect(connection);
      made := [Reconnects(connection, redis.contexts[connection])];
      if !ok {
        return Throw("Failed to reconnect to Redis"), made;
      }
      ghost var last;
      c, last := Authenticate(connection);
      made := made + [last];
    }

    /** The calling thread's own connection, found or made; other slots stay as they are. */
    method FindConnection(thread: nat) returns (c: Result<nat>, ghost made: seq<Call>)
      requires Valid()
      modifies this`connections, redis
      ensures Valid() && redis.replies == old(redis.replies) && redis.entries == old(redis.entries)
      ensures c.Ok? ==> Slot(thread, c.value) in connections
      ensures connections == old(connections)
        || (c.Ok? && connections == old(connections) + [Slot(thread, c.value)])
      ensures redis.reconnects == old(redis.reconnects) && redis.calls == old(redis.calls) + made
      ensures forall i :: 0 <= i < |old(connections)| && old(connections)[i].thread == thread ==>
        && c == Ok(old(connections)[i].connection) && connections == old(connections) && made == []
        && redis.contexts == old(redis.contexts)
      ensures (forall i :: 0 <= i < |old(connections)| ==> old(connections)[i].thread != thread) ==>
        if c.Ok? then ConnectsWell(made, c.value, login) && redis.contexts[c.value].OK?
        else ConnectFails(made, login, false) && Explains(c.reason, made)
    {
      var i := 0;
      while i < |connections|
        invariant 0 <= i <= |connections|
        invariant forall k :: 0 <= k < i ==> connections[k].thread != thread
      {
        if connections[i].thread == thread {
          return Ok(connections[i].connection), [];
        }
        i := i + 1;
      }
      c, made := CreateConnection();
      if c.Ok? {
        OwnedPush(connections, old(redis.contexts).Keys, Slot(thread, c.value));
        connections := connections + [Slot(thread, c.value)];
      }
    }

    /** One XADD. */
    method TryAdd(connection: nat, data: string) returns (reply: ReplyPtr, ghost copies: nat, ghost call: Call)
      requires redis.Valid() && connection in redis.contexts
      modifies redis
      ensures redis.Valid() && redis.contexts.Keys == old(redis.contexts.Keys)
      ensures reply.Null? <==> !redis.contexts[connection].OK?
      ensures reply.Null? ==> redis.replies == old(redis.replies)
      ensures reply.Ptr? ==>
        reply.handle !in old(redis.replies) && redis.replies == old(redis.replies) + {reply.handle}
      ensures redis.reconnects == old(redis.reconnects) && redis.calls == old(redis.calls) + [call]
      ensures Says(call, connection, Xadd(data)) && call.met == old(redis.contexts)[connection]
      ensures EndsWith(call, reply, redis.contexts[connection])
      ensures !old(redis.contexts)[connection].OK? ==>
        redis.contexts[connection] == old(redis.contexts)[connection] && copies == 0
      ensures copies <= 1 && Copied(old(redis.entries), redis.entries, data, copies)
      ensures reply.Ptr? ==> copies == if reply.value.Error? then 0 else 1
    {
      XaddReading(data);
      reply := redis.Run(connection, XADD_FORMAT, [MESSAGES_STREAM, DATA_FIELD, data], Xadd(data));
      call := redis.calls[|redis.calls| - 1];
      copies := if redis.entries == old(redis.entries) then 0 else 1;
    }

    /** One XADD as a call of the program. */
    method Add(connection: nat, data: string, ghost trace: seq<CallEnd>, ghost before: nat)
      returns (reply: ReplyPtr, ghost trace': seq<CallEnd>, ghost copies: nat, ghost call: Call)
      requires redis.Valid() && connection in redis.contexts
      requires Traced(trace, before) && Next(trace).Insert? && trace != []
      requires if redis.contexts[connection].OK? then Sends(trace)
               else trace[|trace| - 1] == Found(redis.contexts[connection])
      modifies redis
      ensures redis.Valid() && redis.contexts.Keys == old(redis.contexts.Keys)
      ensures reply.Null? <==> !redis.contexts[connection].OK?
      ensures reply.Null? ==> redis.replies == old(redis.replies)
      ensures reply.Ptr? ==>
        reply.handle !in old(redis.replies) && redis.replies == old(redis.replies) + {reply.handle}
      ensures redis.reconnects == old(redis.reconnects) && redis.calls == old(redis.calls) + [call]
      ensures Says(call, connection, Xadd(data)) && call.met == old(redis.contexts)[connection]
      ensures EndsWith(call, reply, redis.contexts[connection])
      ensures Copied(old(redis.entries), redis.entries, data, copies) && Traced(trace', before + copies)
      ensures trace' == trace + [EndOfCall(call)]
      ensures var err := redis.contexts[connection];
        Next(trace') == if |trace| == 1 && (err.EOF? || err.IO?) then Action.Reconnect else Return(Judge(err, reply))
    {
      reply, copies, call := TryAdd(connection, data);
      TracedPush(trace, before, EndOf(reply, redis.contexts[connection]), copies);
      AfterAdd(trace, reply, redis.contexts[connection]);
      trace' := trace + [EndOf(reply, redis.contexts[connection])];
    }

    /** Second half of `write`: reconnect and repeat. `before` are the copies so far. */
    method Retry(connection: nat, data: string, first: ReplyPtr, ghost trace: seq<CallEnd>, ghost before: nat)
      returns (again: Result<ReplyPtr>, ghost trace': seq<CallEnd>, ghost copies: nat, ghost more: seq<Call>,
               ghost last: Option<Call>)
      requires redis.Valid() && connection in redis.contexts
      requires Traced(trace, before) && Next(trace).Reconnect? && first.Null?
      modifies redis
      ensures redis.Valid() && redis.contexts.Keys == old(redis.contexts.Keys)
      ensures redis.reconnects == old(redis.reconnects) + 1
      ensures redis.calls == old(redis.calls) + more + if last.Some? then [last.value] else []
      ensures again.Throw? ==> redis.replies == old(redis.replies)
      ensures again.Ok? ==> (again.value.Null? <==> !redis.contexts[connection].OK?)
      ensures again.Ok? && again.value.Null? ==> redis.replies == old(redis.replies)
      ensures again.Ok? && again.value.Ptr? ==>
        again.value.handle !in old(redis.replies) && redis.replies == old(redis.replies) + {again.value.handle}
      ensures Copied(old(redis.entries), redis.entries, data, copies) && Traced(trace', before + copies)
      ensures again.Throw? ==>
        && last.None? && ReconnectFails(more, connection, login) && Explains(again.reason, more)
        && trace' == trace + [NotReconnected(again.reason)]
      ensures again.Ok? ==>
        && last.Some? && Says(last.value, connection, Xadd(data))
        && EndsWith(last.value, again.value, redis.contexts[connection])
        && ReconnectsWell(more, connection, login) && trace' == trace + [Reconnected] + [EndOfCall(last.value)]
      ensures Next(trace') == Return(Verdict(redis.contexts[connection], again))
    {
      var c;
      redis.FreeReply(first);
      c, more := Reconnect(connection);
      last := None;
      if c.Throw? {
        TracedPush(trace, before, NotReconnected(c.reason), 0);
        return Throw(c.reason), trace + [NotReconnected(c.reason)], 0, more, last;
      }
      TracedPush(trace, before, Reconnected, 0);
      var reply;
      ghost var call;
      reply, trace', copies, call := Add(connection, data, trace + [Reconnected], before);
      again, last := Ok(reply), Some(call);
    }

    /** XADD, and once more after a reconnect: the first call, the calls of the reconnect, and the
        second XADD if it came to that. */
    method AddOrRetry(connection: nat, data: string)
      returns (reply: Result<ReplyPtr>, ghost copies: nat, ghost trace: seq<CallEnd>, ghost call: Call,
               ghost more: seq<Call>, ghost last: Option<Call>)
      requires redis.Valid() && connection in redis.contexts
      modifies redis
      ensures redis.Valid() && redis.contexts.Keys == old(redis.contexts.Keys)
      ensures reply.Ok? ==> (reply.value.Null? <==> !redis.contexts[connection].OK?)
      ensures reply.Throw? || reply.value.Null? ==> redis.replies == old(redis.replies)
      ensures reply.Ok? && reply.value.Ptr? ==>
        reply.value.handle !in old(redis.replies) && redis.replies == old(redis.replies) + {reply.value.handle}
      ensures Copied(old(redis.entries), redis.entries, data, copies) && Traced(trace, copies)
      ensures Next(trace) == Return(Verdict(redis.contexts[connection], reply))
      ensures redis.reconnects == old(redis.reconnects) + if more != [] then 1 else 0
      ensures redis.calls == old(redis.calls) + [call] + more + if last.Some? then [last.value] else []
      ensures Says(call, connection, Xadd(data)) && call.met == old(redis.contexts)[connection]
      ensures call.err !in {EOF, IO} <==> more == []
      ensures more == [] ==>
        && last.None? && reply.Ok? && EndsWith(call, reply.value, redis.contexts[connection])
        && trace == [Found(call.met)] + [EndOfCall(call)]
      ensures more != [] && reply.Throw? ==>
        && last.None? && ReconnectFails(more, connection, login) && Explains(reply.reason, more)
        && trace == [Found(call.met)] + [EndOfCall(call)] + [NotReconnected(reply.reason)]
      ensures more != [] && reply.Ok? ==>
        && last.Some? && EndsWith(last.value, reply.value, redis.contexts[connection])
        && Says(last.value, connection, Xadd(data)) && ReconnectsWell(more, connection, login)
        && trace == [Found(call.met)] + [EndOfCall(call)] + [Reconnected] + [EndOfCall(last.value)]
    {
      ghost var first := [Found(redis.contexts[connection])];
      StartTraced(redis.contexts[connection]);
      more, last := [], None;
      var got;
      got, trace, copies, call := Add(connection, data, first, 0);
      reply := Ok(got);
      if redis.contexts[connection].EOF? || redis.contexts[connection].IO? {
        ghost var middle, extra := redis.entries, 0;
        reply, trace, extra, more, last := Retry(connection, data, got, trace, copies);
        CopiedTwice(old(redis.entries), middle, redis.entries, data, copies, extra);
        copies := copies + extra;
      }
    }

    /** The attempts, and the judgement of context and reply. `trace` is the account of the
        calls: they follow the program, and the result is what the program returns. */
    method WriteOn(connection: nat, data: string)
      returns (result: WriteResult, ghost copies: nat, ghost trace: seq<CallEnd>, ghost made: seq<Call>)
      requires redis.Valid() && connection in redis.contexts
      modifies redis
      ensures redis.Valid() && redis.contexts.Keys == old(redis.contexts.Keys)
      ensures redis.replies == old(redis.replies)
      ensures Copied(old(redis.entries), redis.entries, data, copies)
      ensures Traced(trace, copies) && Accounts(trace, made) && Meets(made, old(redis.contexts)[connection])
      ensures redis.calls == old(redis.calls) + made && WithRetry(made, connection, Xadd(data), login, {EOF, IO})
      ensures Reports(result, made)
      ensures Next(trace) == Return(result) && Reported(false, result, copies)
      ensures redis.reconnects == old(redis.reconnects) + if |trace| > 2 then 1 else 0
      ensures copies <= 2 && (copies == 2 ==> redis.reconnects == old(redis.reconnects) + 1)
      ensures result.error.Stored? ==> redis.contexts[connection].OK?
      ensures redis.contexts[connection].EOF? || redis.contexts[connection].IO? ==> result.error.StorageUnavailable?
      ensures old(redis.contexts)[connection].EOF? || old(redis.contexts)[connection].IO? ==>
        redis.reconnects == old(redis.reconnects) + 1 && copies <= 1
      ensures old(redis.contexts)[connection].OTHER? ==>
        result.error.Generic? && copies == 0 && redis.reconnects == old(redis.reconnects)
    {
      var reply;
      ghost var call, more, last;
      reply, copies, trace, call, more, last := AddOrRetry(connection, data);
      TraceCounts(trace, copies);
      made := Attempts(call, more, last);
      AttemptsAdd(old(redis.calls), call, more, last);
      RetryDone(call, more, last, connection, Xadd(data), login, {EOF, IO});
      AccountsFor(trace, call, more, last, connection, login);
      result := Verdict(redis.contexts[connection], reply);
      ReportsFor(result, redis.contexts[connection], reply, call, more, last);
      if reply.Ok? {
        redis.FreeReply(reply.value);
      }
    }

    /** With the connection found, or not. */
    method WriteVia(c: Result<nat>, ghost opening: seq<Call>, thread: nat, data: string)
      returns (result: WriteResult, ghost copies: nat, ghost trace: seq<CallEnd>, ghost made: seq<Call>)
      requires Valid()
      requires c.Ok? ==> Slot(thread, c.value) in connections
      requires c.Ok? ==> opening == [] || ConnectsWell(opening, c.value, login)
      requires c.Throw? ==> ConnectFails(opening, login, false) && Explains(c.reason, opening)
      modifies redis
      ensures Valid() && redis.replies == old(redis.replies)
      ensures copies <= 2 && Copied(old(redis.entries), redis.entries, data, copies)
      ensures Traced(trace, copies) && Next(trace) == Return(result) && Reported(false, result, copies)
      ensures redis.calls == old(redis.calls) + made && (made == [] <==> c.Throw?)
      ensures if made == [] then copies == 0 && result == WriteResult(StorageUnavailable, c.reason)
              else Reports(result, made) && WrittenAs(connections, thread, opening, made, data)
      ensures made != [] ==> Accounts(trace, made) && Meets(made, old(redis.contexts)[c.value])
      ensures redis.reconnects == old(redis.reconnects) + if |trace| > 2 then 1 else 0
      ensures copies == 2 ==> redis.reconnects == old(redis.reconnects) + 1
      ensures c.Ok? ==> var err := old(redis.contexts)[c.value];
        && (err.EOF? || err.IO? ==> redis.reconnects == old(redis.reconnects) + 1 && copies <= 1)
        && (err.OTHER? ==> result.error.Generic? && copies == 0)
    {
      if c.Throw? {
        NotFoundTraced(c.reason);
        result, copies, trace, made := WriteResult(StorageUnavailable, c.reason), 0, [NotFound(c.reason)], [];
      } else {
        result, copies, trace, made := WriteOn(c.value, data);
        OwnSlot(connections, thread, c.value, opening, made, data);
      }
    }

    /** At most two copies, two only after a reconnect; success means the last command was
        executed, so at least one; nothing is leaked or freed twice on any path. A thread
        whose connection carries an EOF or IO error gets a reconnect, with any other error
        it stores nothing and reports a generic failure. `opening` are the library calls made to
        find the connection, `made` those made on it; they decide what is reported. */
    method Write(thread: nat, data: string)
      returns (result: WriteResult, ghost copies: nat, ghost trace: seq<CallEnd>, ghost opening: seq<Call>,
               ghost made: seq<Call>)
      requires Valid()
      modifies this, redis
      ensures Valid() && redis.replies == old(redis.replies)
      ensures writes == old(writes) + [Written(thread, data, result)]
      ensures copies <= 2 && Copied(old(redis.entries), redis.entries, data, copies)
      ensures Traced(trace, copies) && Next(trace) == Return(result) && Reported(false, result, copies)
      ensures old(connections) <= connections
      ensures redis.calls == old(redis.calls) + opening + made
      ensures if made == [] then copies == 0 && result.error.StorageUnavailable?
                && ConnectFails(opening, login, false) && Explains(result.message, opening)
              else Reports(result, made) && WrittenAs(connections, thread, opening, made, data)
      ensures made != [] ==> Accounts(trace, made)
      ensures opening == [] <==> exists i :: 0 <= i < |old(connections)| && old(connections)[i].thread == thread
      ensures redis.reconnects == old(redis.reconnects) + if |trace| > 2 then 1 else 0
      ensures copies == 2 ==> redis.reconnects == old(redis.reconnects) + 1
      ensures forall i :: 0 <= i < |old(connections)| && old(connections)[i].thread == thread ==>
        var err := old(redis.contexts)[old(connections)[i].connection];
        && Meets(made, err) && connections == old(connections)
        && (err.EOF? || err.IO? ==> redis.reconnects == old(redis.reconnects) + 1 && copies <= 1)
        && (err.OTHER? ==> result.error.Generic? && copies == 0)
    {
      var c;
      c, opening := FindConnection(thread);
      result, copies, trace, made := WriteVia(c, opening, thread, data);
      writes := writes + [Written(thread, data, result)];
    }
  }
}
