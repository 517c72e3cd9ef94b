/** The connection pool of a writer under every interleaving of its threads.

    A lookup under the shared lock, a gap, and an append under the unique lock are
    separate steps. The Redis writer makes its connection in the gap, the Postgres writer
    under the unique lock; both are here. */
module Pool {
  import opened Writers

  /** Where a thread is: outside, past a failed lookup, holding a connection that is in no
      slot yet, or using a connection. */
  datatype Pc = Outside | Missed | Made(c: nat) | Using(c: nat)

  datatype State = State(slots: seq<Slot>, live: set<nat>, next: nat, pcs: map<nat, Pc>)

  datatype Event =
    | Look(t: nat)         // shared lock: find_if
    | MakeFails(t: nat)    // connect or authenticate failed; what was made is freed again
    | Make(t: nat)         // redisConnect and AUTH succeeded
    | Push(t: nat)         // unique lock: push_back of the made connection
    | MakeAndPush(t: nat)  // unique lock: construct in place
    | Leave(t: nat)        // write returns

  const EMPTY := State([], {}, 0, map[])

  function PcOf(s: State, t: nat): Pc { if t in s.pcs then s.pcs[t] else Outside }

  predicate Enabled(s: State, e: Event) {
    match e
    case Look(t) => PcOf(s, t).Outside?
    case MakeFails(t) => PcOf(s, t).Missed?
    case Make(t) => PcOf(s, t).Missed?
    case Push(t) => PcOf(s, t).Made?
    case MakeAndPush(t) => PcOf(s, t).Missed?
    case Leave(t) => PcOf(s, t).Using?
  }

  function At(s: State, t: nat, pc: Pc): State { s.(pcs := s.pcs[t := pc]) }

  function Step(s: State, e: Event): State {
    if !Enabled(s, e) then s else
    match e
    case Look(t) =>
      var i := Find(s.slots, t);
      At(s, t, if i < |s.slots| then Using(s.slots[i].connection) else Missed)
    case MakeFails(t) => At(s, t, Outside)
    case Make(t) => At(s, t, Made(s.next)).(live := s.live + {s.next}, next := s.next + 1)
    case Push(t) => At(s, t, Using(s.pcs[t].c)).(slots := s.slots + [Slot(t, s.pcs[t].c)])
    case MakeAndPush(t) =>
      At(s, t, Using(s.next)).(live := s.live + {s.next}, next := s.next + 1,
                               slots := s.slots + [Slot(t, s.next)])
    case Leave(t) => At(s, t, Outside)
  }

  function After(es: seq<Event>): State {
    if es == [] then EMPTY else Step(After(es[..|es| - 1]), es[|es| - 1])
  }

  /** A handle belongs to the thread that made it, in its slot or still outside the pool. */
  ghost predicate Owns(s: State, t: nat, c: nat) {
    Slot(t, c) in s.slots || PcOf(s, t) == Made(c)
  }

  ghost predicate Inv(s: State) {
    && OnePerThread(s.slots)
    && (forall t :: PcOf(s, t).Missed? || PcOf(s, t).Made? ==> forall x :: x in s.slots ==> x.thread != t)
    && (forall t :: PcOf(s, t).Using? ==> Slot(t, PcOf(s, t).c) in s.slots)
    && (forall t: nat, c: nat :: Owns(s, t, c) ==> c in s.live && c < s.next)
    && (forall t: nat, u: nat, c: nat :: Owns(s, t, c) && Owns(s, u, c) ==> t == u)
  }

  lemma PushKeepsOnePerThread(slots: seq<Slot>, x: Slot)
    requires OnePerThread(slots) && forall y :: y in slots ==> y.thread != x.thread
    ensures OnePerThread(slots + [x])
  {
    assert forall i :: 0 <= i < |slots| ==> slots[i] in slots;
  }

  lemma LookKeepsInv(s: State, t: nat)
    requires Inv(s) && PcOf(s, t).Outside?
    ensures Inv(Step(s, Look(t)))
  {
    var s', i := Step(s, Look(t)), Find(s.slots, t);
    if i < |s.slots| {
      assert s.slots[i] == Slot(t, s.slots[i].connection);
    }
    assert forall u :: u != t ==> PcOf(s', u) == PcOf(s, u);
    assert forall u: nat, c: nat :: Owns(s', u, c) ==> Owns(s, u, c);
  }

  lemma MakeKeepsInv(s: State, t: nat)
    requires Inv(s) && PcOf(s, t).Missed?
    ensures Inv(Step(s, Make(t)))
  {
    var s' := Step(s, Make(t));
    assert forall u :: u != t ==> PcOf(s', u) == PcOf(s, u);
    assert forall u: nat, c: nat :: Owns(s', u, c) ==> Owns(s, u, c) || (u == t && c == s.next);
  }

  lemma PushKeepsInv(s: State, t: nat)
    requires Inv(s) && PcOf(s, t).Made?
    ensures Inv(Step(s, Push(t)))
  {
    var s', c := Step(s, Push(t)), PcOf(s, t).c;
    PushKeepsOnePerThread(s.slots, Slot(t, c));
    assert forall u :: u != t ==> PcOf(s', u) == PcOf(s, u);
    assert Owns(s, t, c);
    assert forall u: nat, d: nat :: Owns(s', u, d) ==> Owns(s, u, d);
  }

  lemma MakeAndPushKeepsInv(s: State, t: nat)
    requires Inv(s) && PcOf(s, t).Missed?
    ensures Inv(Step(s, MakeAndPush(t)))
  {
    var s' := Step(s, MakeAndPush(t));
    PushKeepsOnePerThread(s.slots, Slot(t, s.next));
    assert forall u :: u != t ==> PcOf(s', u) == PcOf(s, u);
    assert forall u: nat, d: nat :: Owns(s', u, d) ==> Owns(s, u, d) || (u == t && d == s.next);
  }

  lemma LeaveKeepsInv(s: State, t: nat)
    requires Inv(s) && !PcOf(s, t).Made?
    ensures Inv(At(s, t, Outside))
  {
    var s' := At(s, t, Outside);
    assert forall u :: u != t ==> PcOf(s', u) == PcOf(s, u);
    assert forall u: nat, c: nat :: Owns(s', u, c) ==> Owns(s, u, c);
  }

  lemma {:induction false} RunKeepsInv(es: seq<Event>)
    ensures Inv(After(es))
  {
    if es != [] {
      var s, e := After(es[..|es| - 1]), es[|es| - 1];
      RunKeepsInv(es[..|es| - 1]);
      if Enabled(s, e) {
        match e
        case Look(t) => LookKeepsInv(s, t);
        case MakeFails(t) => LeaveKeepsInv(s, t);
        case Make(t) => MakeKeepsInv(s, t);
        case Push(t) => PushKeepsInv(s, t);
        case MakeAndPush(t) => MakeAndPushKeepsInv(s, t);
        case Leave(t) => LeaveKeepsInv(s, t);
      }
    }
  }

  /** Under every interleaving: one slot per thread; a thread uses only the live connection
      of its own slot; and no two threads ever use the same one. */
  lemma ConnectionsAreExclusive(es: seq<Event>)
    ensures var s := After(es);
      && OnePerThread(s.slots)
      && (forall t :: PcOf(s, t).Using? ==> Slot(t, PcOf(s, t).c) in s.slots && PcOf(s, t).c in s.live)
      && (forall t, u :: PcOf(s, t).Using? && PcOf(s, u).Using? && PcOf(s, t).c == PcOf(s, u).c ==> t == u)
  {
    RunKeepsInv(es);
    var s := After(es);
    forall t | PcOf(s, t).Using? ensures Owns(s, t, PcOf(s, t).c) {}
  }

  /** The pool only grows at its end, and nothing handed out is ever freed. */
  lemma {:induction false} PoolOnlyGrows(es: seq<Event>, fs: seq<Event>)
    ensures After(es).slots <= After(es + fs).slots && After(es).live <= After(es + fs).live
  {
    if fs == [] {
      assert es + fs == es;
    } else {
      var n := |fs| - 1;
      PoolOnlyGrows(es, fs[..n]);
      assert (es + fs)[..|es + fs| - 1] == es + fs[..n];
    }
  }

  /** Hence a thread that comes back, however much later, gets the connection it had. */
  lemma ConnectionIsForLife(es: seq<Event>, fs: seq<Event>, t: nat)
    requires PcOf(After(es), t).Using? && PcOf(After(es + fs), t).Using?
    ensures PcOf(After(es), t) == PcOf(After(es + fs), t)
  {
    RunKeepsInv(es);
    RunKeepsInv(es + fs);
    PoolOnlyGrows(es, fs);
    var a, b := Slot(t, PcOf(After(es), t).c), Slot(t, PcOf(After(es + fs), t).c);
    var slots := After(es + fs).slots;
    var i :| 0 <= i < |After(es).slots| && After(es).slots[i] == a;
    assert slots[i] == a;
    var j :| 0 <= j < |slots| && slots[j] == b;
    assert i == j;
  }
}
