/** The client library and the server behind it, as the gateway relies on them.

    Contexts and replies are handles into tables, so that use after free, double free and
    leaks are visible. Outcomes are arbitrary within the contract: a reply is null exactly
    when the context has an error, and an error stays until a reconnect. A command whose
    connection fails may have been executed, may be executed later, or never; of the commands
    that may still come, `late` holds the XDELs. Late XADDs are the business of `FrontEnd`;
    seen from the producer they are inserts of others. The library keeps an account of all
    calls; callers cannot add to it but by calling. */
module Hiredis {
  import opened Text
  import opened Messages
  import opened RedisCommands
  import opened RedisWire

  datatype Err = OK | IO | EOF | OTHER

  /** A `redisReply*`: null, or a handle with what it points to. */
  datatype ReplyPtr = Null | Ptr(handle: nat, value: Reply)

  /** What executing a command does to the stream. */
  ghost predicate Executed(cmd: Command, before: seq<Entry>, after: seq<Entry>) {
    match cmd
    case Auth(_) => after == before
    case Xrange(_) => after == before
    case Unknown => after == before
    case Xdel(text) => after == DeleteNamed(before, CommandIds(text))
    case Xadd(data) => exists e: Entry :: e.data == data && after == before + [e]
  }

  ghost predicate Replied(cmd: Command, before: seq<Entry>, value: Reply) {
    cmd.Xrange? ==> value == XrangeReply(Front(before, cmd.count))
  }

  // ------------------------------------------------------------- the account of calls

  /** A call, the error the context had and has, and what came back. */
  datatype Call =
    | Connects(c: nat, made: bool, err: Err)
    | Frees(c: nat)
    | Reconnects(c: nat, err: Err)
    | Runs(c: nat, cmd: Command, met: Err, reply: Option<Reply>, err: Err)

  function ValueOf(reply: ReplyPtr): Option<Reply> { if reply.Ptr? then Some(reply.value) else None }

  /** The command was executed, and the answer says so. */
  predicate Went(call: Call) {
    call.Runs? && call.err.OK? && call.reply.Some? && !call.reply.value.Error?
  }

  predicate Says(call: Call, c: nat, cmd: Command) { call.Runs? && call.c == c && call.cmd == cmd }

  /** redisConnect and AUTH, both successful. */
  predicate ConnectsWell(calls: seq<Call>, c: nat, login: Login) {
    |calls| == 2 && calls[0] == Connects(c, true, OK) && Says(calls[1], c, Auth(login)) && Went(calls[1])
  }

  /** No context, a context with an error, which is freed again, or a refused login, after which
      the context is freed or, with `keeps`, stays. */
  predicate ConnectFails(calls: seq<Call>, login: Login, keeps: bool) {
    && calls != [] && calls[0].Connects?
    && if !calls[0].made then |calls| == 1
       else if !calls[0].err.OK? then calls[1..] == [Frees(calls[0].c)]
       else && |calls| >= 2 && Says(calls[1], calls[0].c, Auth(login)) && !Went(calls[1])
            && calls[2..] == if keeps then [] else [Frees(calls[0].c)]
  }

  /** redisReconnect and AUTH. */
  predicate ReconnectsWell(calls: seq<Call>, c: nat, login: Login) {
    |calls| == 2 && calls[0] == Reconnects(c, OK) && Says(calls[1], c, Auth(login)) && Went(calls[1])
  }

  predicate ReconnectFails(calls: seq<Call>, c: nat, login: Login) {
    && calls != [] && calls[0].Reconnects? && calls[0].c == c
    && if calls[0].err.OK? then |calls| == 2 && Says(calls[1], c, Auth(login)) && !Went(calls[1])
       else |calls| == 1
  }

  /** One sending of a command; after an error in `retry` a reconnect and, if that succeeds, one
      more sending. */
  predicate WithRetry(calls: seq<Call>, c: nat, cmd: Command, login: Login, retry: set<Err>) {
    && calls != [] && Says(calls[0], c, cmd)
    && if calls[0].err !in retry then |calls| == 1
       else if |calls| == 4 then ReconnectsWell(calls[1..3], c, login) && Says(calls[3], c, cmd)
       else ReconnectFails(calls[1..], c, login)
  }

  /** Was the last sending answered without error? */
  predicate Succeeds(calls: seq<Call>, cmd: Command) {
    calls != [] && var last := calls[|calls| - 1]; last.Runs? && last.cmd == cmd && Went(last)
  }

  /** A first sending, and what a reconnect and a second one added. */
  function Attempts(call: Call, more: seq<Call>, last: Option<Call>): seq<Call> {
    [call] + more + if last.Some? then [last.value] else []
  }

  lemma RetryDone(call: Call, more: seq<Call>, last: Option<Call>, c: nat, cmd: Command, login: Login, retry: set<Err>)
    requires Says(call, c, cmd) && !cmd.Auth?
    requires call.err !in retry ==> more == [] && last.None?
    requires call.err in retry && last.None? ==> ReconnectFails(more, c, login)
    requires call.err in retry && last.Some? ==> ReconnectsWell(more, c, login) && Says(last.value, c, cmd)
    ensures WithRetry(Attempts(call, more, last), c, cmd, login, retry)
    ensures Succeeds(Attempts(call, more, last), cmd) <==>
      if call.err !in retry then Went(call) else last.Some? && Went(last.value)
    ensures |Attempts(call, more, last)| == 4 <==> last.Some?
    ensures Attempts(call, more, last)[0] == call && (last.Some? ==> Attempts(call, more, last)[3] == last.value)
  {
    assert last.Some? ==> Attempts(call, more, last)[1..3] == more;
    assert last.None? ==> Attempts(call, more, last)[1..] == more;
  }

  lemma AttemptsAdd(before: seq<Call>, call: Call, more: seq<Call>, last: Option<Call>)
    ensures before + [call] + more + (if last.Some? then [last.value] else []) == before + Attempts(call, more, last)
    ensures before + [call] == before + Attempts(call, [], None)
  {}

  // ---------------------------------------------------------- what other clients do

  /** The stream, and the entry with the greatest id given out so far. */
  datatype Stream = Stream(entries: seq<Entry>, top: Entry)

  datatype Deed = Added(e: Entry) | Deleted(text: string)

  /** Others add entries with greater ids, which fit the packing if that is promised, and
      commands of unknown fate take effect. */
  predicate CanDo(s: Stream, late: set<string>, inRange: bool, d: Deed) {
    match d
    case Added(e) => IdBefore(s.top, e) && (inRange ==> EntryInRange(e))
    case Deleted(text) => text in late
  }

  function Do(s: Stream, d: Deed): Stream {
    match d
    case Added(e) => Stream(s.entries + [e], e)
    case Deleted(text) => s.(entries := DeleteNamed(s.entries, CommandIds(text)))
  }

  function DoAll(s: Stream, ds: seq<Deed>): Stream {
    if ds == [] then s else Do(DoAll(s, ds[..|ds| - 1]), ds[|ds| - 1])
  }

  ghost predicate CanDoAll(s: Stream, late: set<string>, inRange: bool, ds: seq<Deed>) {
    forall i :: 0 <= i < |ds| ==> CanDo(DoAll(s, ds[..i]), late, inRange, ds[i])
  }

  /** Others can make `t` of `s`. */
  ghost predicate Drifts(s: Stream, late: set<string>, inRange: bool, t: Stream) {
    exists ds :: CanDoAll(s, late, inRange, ds) && DoAll(s, ds) == t
  }

  lemma NothingDone(s: Stream, late: set<string>, inRange: bool)
    ensures Drifts(s, late, inRange, s)
  {
    assert CanDoAll(s, late, inRange, []) && DoAll(s, []) == s;
  }

  lemma DeedsPush(s: Stream, late: set<string>, inRange: bool, ds: seq<Deed>, d: Deed)
    requires CanDoAll(s, late, inRange, ds) && CanDo(DoAll(s, ds), late, inRange, d)
    ensures CanDoAll(s, late, inRange, ds + [d]) && DoAll(s, ds + [d]) == Do(DoAll(s, ds), d)
  {
    var more := ds + [d];
    assert more[..|ds|] == ds;
    forall i | 0 <= i < |more| ensures CanDo(DoAll(s, more[..i]), late, inRange, more[i]) {
      assert more[..i] == ds[..i];
    }
  }

  lemma OneMoreDeed(s: Stream, late: set<string>, inRange: bool, t: Stream, d: Deed)
    requires Drifts(s, late, inRange, t) && CanDo(t, late, inRange, d)
    ensures Drifts(s, late, inRange, Do(t, d))
  {
    var ds :| CanDoAll(s, late, inRange, ds) && DoAll(s, ds) == t;
    DeedsPush(s, late, inRange, ds, d);
  }

  lemma {:induction false} DeedsOn(s: Stream, late: set<string>, inRange: bool, t: Stream, ds: seq<Deed>)
    requires Drifts(s, late, inRange, t) && CanDoAll(t, late, inRange, ds)
    ensures Drifts(s, late, inRange, DoAll(t, ds))
  {
    if ds != [] {
      var n := |ds| - 1;
      forall i | 0 <= i < n ensures CanDo(DoAll(t, ds[..n][..i]), late, inRange, ds[..n][i]) {
        assert ds[..n][..i] == ds[..i];
      }
      DeedsOn(s, late, inRange, t, ds[..n]);
      OneMoreDeed(s, late, inRange, DoAll(t, ds[..n]), ds[n]);
    }
  }

  lemma DriftsOn(s: Stream, late: set<string>, inRange: bool, t: Stream, u: Stream)
    requires Drifts(s, late, inRange, t) && Drifts(t, late, inRange, u)
    ensures Drifts(s, late, inRange, u)
  {
    var ds :| CanDoAll(t, late, inRange, ds) && DoAll(t, ds) == u;
    DeedsOn(s, late, inRange, t, ds);
  }

  class Redis {
    const inRange: bool              // are the ids of all new entries promised to fit?
    var entries: seq<Entry>
    var top: Entry                   // carries the greatest id given out so far
    var late: set<string>            // XDEL commands that may still reach the server
    var contexts: map<nat, Err>      // live contexts
    var replies: set<nat>            // live replies
    var nextHandle: nat
    var reconnects: nat              // calls of redisReconnect
    ghost var calls: seq<Call>       // all calls, in order

    ghost predicate Valid()
      reads this
    {
      && (forall c :: c in contexts ==> c < nextHandle)
      && (forall r :: r in replies ==> r < nextHandle)
      && StreamOrder(entries)
      && (forall i :: 0 <= i < |entries| ==> !IdBefore(top, entries[i]))
    }

    ghost function Now(): Stream
      reads this
    {
      Stream(entries, top)
    }

    constructor (inRange: bool)
      ensures this.inRange == inRange
      ensures Valid() && entries == [] && late == {} && contexts == map[] && replies == {} && reconnects == 0
      ensures top == Entry(0, 0, "") && calls == []
    {
      this.inRange := inRange;
      top := Entry(0, 0, "");
      entries, late, contexts, replies, nextHandle, reconnects, calls := [], {}, map[], {}, 0, 0, [];
    }

    /** Other clients act, and late commands arrive, any number of times. */
    method Interfere()
      requires Valid()
      modifies this`entries, this`top
      ensures Valid() && Drifts(old(Now()), late, inRange, Now())
    {
      var n: int := *;
      NothingDone(Now(), late, inRange);
      while n > 0
        invariant Valid() && Drifts(old(Now()), late, inRange, Now())
      {
        var e: Entry, text: string := *, *;
        if text in late {
          OneMoreDeed(old(Now()), late, inRange, Now(), Deleted(text));
          DeleteText(text);
        } else if IdBefore(top, e) && (inRange ==> EntryInRange(e)) {
          OneMoreDeed(old(Now()), late, inRange, Now(), Added(e));
          Append(e);
        }
        n := n - 1;
      }
    }

    /** `redisConnect`: null, or a new context that may already carry an error. */
    method Connect() returns (connected: bool, c: nat)
      requires Valid()
      modifies this`contexts, this`nextHandle, this`calls
      ensures Valid()
      ensures !connected ==> contexts == old(contexts)
      ensures connected ==> c !in old(contexts) && c in contexts && contexts == old(contexts)[c := contexts[c]]
      ensures calls == old(calls) + [Connects(c, connected, if connected then contexts[c] else OTHER)]
    {
      c := nextHandle;
      connected := *;
      if connected {
        var err: Err := *;
        contexts := contexts[c := err];
        nextHandle := nextHandle + 1;
      }
      calls := calls + [Connects(c, connected, if connected then contexts[c] else OTHER)];
    }

    /** `redisFree`. */
    method Free(c: nat)
      requires Valid() && c in contexts
      modifies this`contexts, this`calls
      ensures Valid() && contexts == old(contexts) - {c} && calls == old(calls) + [Frees(c)]
    {
      contexts := contexts - {c};
      calls := calls + [Frees(c)];
    }

    /** `redisReconnect`: a fresh start for the context, or an error. */
    method Reconnect(c: nat) returns (ok: bool)
      requires Valid() && c in contexts
      modifies this`contexts, this`reconnects, this`calls
      ensures Valid() && reconnects == old(reconnects) + 1
      ensures c in contexts && contexts == old(contexts)[c := contexts[c]]
      ensures calls == old(calls) + [Reconnects(c, contexts[c])]
      ensures ok <==> contexts[c].OK?
    {
      var err: Err := *;
      contexts := contexts[c := err];
      reconnects, calls := reconnects + 1, calls + [Reconnects(c, err)];
      ok := err.OK?;
    }

    /** `redisCommand`. The caller says with a ghost what it means; the server reads the text. */
    method Run(c: nat, format: string, args: seq<string>, ghost cmd: Command) returns (reply: ReplyPtr)
      requires Valid() && c in contexts && cmd == Reading(format, args)
      modifies this`entries, this`top, this`late, this`contexts, this`replies, this`nextHandle, this`calls
      ensures Valid()
      ensures c in contexts && contexts == old(contexts)[c := contexts[c]]
      ensures calls == old(calls) + [Runs(c, cmd, old(contexts[c]), ValueOf(reply), contexts[c])]
      ensures reply.Null? <==> !contexts[c].OK?
      ensures reply.Null? ==> replies == old(replies)
      ensures reply.Ptr? ==> reply.handle !in old(replies) && replies == old(replies) + {reply.handle}
      ensures !old(contexts[c]).OK? ==>
        contexts == old(contexts) && entries == old(entries) && late == old(late)
      ensures reply.Ptr? ==> late == old(late)
      ensures reply.Ptr? && !reply.value.Error? ==>
        !cmd.Unknown? && Executed(cmd, old(entries), entries) && Replied(cmd, old(entries), reply.value)
      ensures reply.Ptr? && reply.value.Error? ==> entries == old(entries)
      ensures reply.Null? ==> entries == old(entries) || Executed(cmd, old(entries), entries)
      ensures reply.Null? && old(contexts[c]).OK? && cmd.Xdel? ==> late == old(late) + {cmd.text}
      ensures !cmd.Xdel? ==> late == old(late)
      ensures !cmd.Xadd? ==> top == old(top)
    {
      reply := Null;
      if !contexts[c].OK? {
        calls := calls + [Runs(c, cmd, contexts[c], None, contexts[c])];
        return;
      }
      var err: Err := *;
      contexts := contexts[c := err];
      reply := Serve(Reading(format, args), err.OK?);
      calls := calls + [Runs(c, cmd, OK, ValueOf(reply), err)];
    }

    /** The server gets the command, or not; `answered` is whether the client hears of it. */
    method Serve(cmd: Command, answered: bool) returns (reply: ReplyPtr)
      requires Valid()
      modifies this`entries, this`top, this`late, this`replies, this`nextHandle
      ensures Valid() && (reply.Ptr? <==> answered)
      ensures reply.Null? ==> replies == old(replies)
      ensures reply.Ptr? ==> reply.handle !in old(replies) && replies == old(replies) + {reply.handle}
      ensures late == if !answered && cmd.Xdel? then old(late) + {cmd.text} else old(late)
      ensures reply.Ptr? && !reply.value.Error? ==>
        !cmd.Unknown? && Executed(cmd, old(entries), entries) && Replied(cmd, old(entries), reply.value)
      ensures reply.Ptr? && reply.value.Error? ==> entries == old(entries)
      ensures reply.Null? ==> entries == old(entries) || Executed(cmd, old(entries), entries)
      ensures !cmd.Xadd? ==> top == old(top)
    {
      reply := Null;
      var executed: bool := *;
      executed := executed && !cmd.Unknown?;
      if answered {
        var value := if executed then Answer(cmd, entries) else Error("refused");
        reply := Ptr(nextHandle, value);
        replies := replies + {nextHandle};
        nextHandle := nextHandle + 1;
      } else if cmd.Xdel? {
        late := late + {cmd.text};
      }
      if executed {
        Execute(cmd);
      }
    }

    static function Answer(cmd: Command, es: seq<Entry>): (r: Reply)
      ensures !r.Error? && Replied(cmd, es, r)
    {
      if cmd.Xrange? then XrangeReply(Front(es, cmd.count)) else Other(5)
    }

    method Execute(cmd: Command)
      requires Valid()
      modifies this`entries, this`top
      ensures Valid() && Executed(cmd, old(entries), entries)
      ensures !cmd.Xadd? ==> top == old(top)
    {
      match cmd {
        case Auth(_) =>
        case Unknown =>
        case Xrange(_) =>
        case Xdel(text) => DeleteText(text);
        case Xadd(data) =>
          var step: int := *;
          Append(if step > 0 then Entry(top.ts + step, 0, data) else Entry(top.ts, top.sq + 1, data));
      }
    }

    /** A new entry gets an id above every id given out before. */
    method Append(e: Entry)
      requires Valid() && IdBefore(top, e)
      modifies this`entries, this`top
      ensures Valid() && entries == old(entries) + [e] && top == e
    {
      entries, top := entries + [e], e;
    }

    method DeleteText(text: string)
      requires Valid()
      modifies this`entries
      ensures Valid() && entries == DeleteNamed(old(entries), CommandIds(text))
    {
      DeleteNamedOrder(entries, CommandIds(text));
      DeleteNamedSubset(entries, CommandIds(text));
      ghost var before := entries;
      entries := DeleteNamed(entries, CommandIds(text));
      forall i | 0 <= i < |entries| ensures !IdBefore(top, entries[i]) {
        assert entries[i] in before;
      }
    }

    /** `freeReplyObject`: a null pointer is fine, a dead one is not. */
    method FreeReply(reply: ReplyPtr)
      requires Valid() && (reply.Ptr? ==> reply.handle in replies)
      modifies this`replies
      ensures Valid()
      ensures replies == if reply.Ptr? then old(replies) - {reply.handle} else old(replies)
    {
      if reply.Ptr? {
        replies := replies - {reply.handle};
      }
    }
  }
}
