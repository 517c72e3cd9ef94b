/** What a writer does, step by step, what it reports, and what it did to the store. */
module Writers {
  import opened RedisWire
  import opened Hiredis

  datatype WriterError = Stored | Generic | StorageUnavailable

  datatype WriteResult = WriteResult(error: WriterError, message: string)

  /** What a blocking call of a writer came back with. */
  datatype CallEnd =
    | Found(err: Err)                    // findConnection: the thread's context and its state
    | NotFound(message: string)
    | Reconnected                        // redisReconnect and AUTH
    | NotReconnected(message: string)
    | Replied(value: Reply)              // XADD: a reply, so the context has no error
    | NoReply(err: Err)                  // XADD: no reply, the context has this error
    | Committed                          // INSERT: the transaction is committed
    | BrokenConnection                   // INSERT: the exception of this name; not committed
    | OtherException                     // INSERT: fate unknown

  /** What a writer does next. */
  datatype Action = FindConnection | Reconnect | Insert | Return(result: WriteResult)

  /** What a writer promises about a result after `copies` inserts took effect. */
  predicate Reported(exactlyOne: bool, w: WriteResult, copies: nat) {
    w.error.Stored? ==> copies >= 1 && (exactlyOne ==> copies == 1)
  }

  /** A writer's calls, each of which `fits` the ones before it. */
  ghost predicate Follows(fits: (seq<CallEnd>, CallEnd) -> bool, trace: seq<CallEnd>) {
    forall i :: 0 <= i < |trace| ==> fits(trace[..i], trace[i])
  }

  lemma FollowsPush(fits: (seq<CallEnd>, CallEnd) -> bool, trace: seq<CallEnd>, e: CallEnd)
    requires Follows(fits, trace) && fits(trace, e)
    ensures Follows(fits, trace + [e])
  {
    var more := trace + [e];
    forall i | 0 <= i < |more| ensures fits(more[..i], more[i]) {
      assert more[..i] == if i < |trace| then trace[..i] else trace;
    }
  }

  /** One connection, for one thread only. */
  datatype Slot = Slot(thread: nat, connection: nat)

  ghost predicate OnePerThread(slots: seq<Slot>) {
    forall i, j :: 0 <= i < j < |slots| ==> slots[i].thread != slots[j].thread
  }

  ghost predicate OnePerConnection(slots: seq<Slot>) {
    forall i, j :: 0 <= i < j < |slots| ==> slots[i].connection != slots[j].connection
  }

  /** `std::find_if` by thread id. */
  function Find(slots: seq<Slot>, thread: nat): (i: nat)
    ensures i <= |slots| && forall k :: 0 <= k < i ==> slots[k].thread != thread
    ensures i < |slots| ==> slots[i].thread == thread
  {
    if slots == [] then 0
    else if slots[0].thread == thread then 0
    else 1 + Find(slots[1..], thread)
  }

  function Handles(slots: seq<Slot>): set<nat> {
    set i | 0 <= i < |slots| :: slots[i].connection
  }

  lemma HandlesPush(slots: seq<Slot>, s: Slot)
    ensures Handles(slots + [s]) == Handles(slots) + {s.connection}
  {
    var more := slots + [s];
    forall h | h in Handles(slots) + {s.connection} ensures h in Handles(more) {
      if h == s.connection {
        assert more[|slots|].connection == h;
      } else {
        var i :| 0 <= i < |slots| && slots[i].connection == h;
        assert more[i].connection == h;
      }
    }
  }

  /** The live handles are exactly those of the slots, one slot per thread. */
  ghost predicate Owned(slots: seq<Slot>, live: set<nat>) {
    && OnePerThread(slots) && OnePerConnection(slots)
    && live == Handles(slots)
    && (forall i :: 0 <= i < |slots| ==> slots[i].connection in live)
  }

  lemma OwnedPush(slots: seq<Slot>, live: set<nat>, s: Slot)
    requires Owned(slots, live) && s.connection !in live
    requires forall i :: 0 <= i < |slots| ==> slots[i].thread != s.thread
    ensures Owned(slots + [s], live + {s.connection}) && s in slots + [s]
  {
    HandlesPush(slots, s);
    assert (slots + [s])[|slots|] == s;
  }
}
