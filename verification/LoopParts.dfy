/** What both run loops share: the consumer's part, the savers, and the account of what the loop
    itself did. */
module LoopParts {
  import opened Text
  import opened Messages
  import opened Chunks
  import opened FileNames
  import opened Delivery
  import C = Consumer
  import D = Disk
  import J = Journal

  ghost predicate ConsumerCoupled(consumer: C.MessageConsumer, s: State)
    reads consumer
  {
    consumer.buffer == s.buffer && consumer.spawned == s.flushed
  }

  /** What the run loop and the savers move, and nobody else. */
  ghost predicate SameButStore(s: State, t: State) {
    t == s.(inserted := t.inserted, store := t.store)
  }

  /** The part of the machine that only the run loop moves. */
  ghost predicate SameLoop(s: State, t: State) {
    t == s.(inserted := t.inserted, store := t.store, disk := t.disk)
  }

  /** The acknowledgement is over; log, chunks, buffer and folder are as they were. */
  ghost predicate Released(s: State, t: State) {
    t.phase.Fetching? && t.log == s.log && t.buffer == s.buffer && t.flushed == s.flushed && t.disk == s.disk
  }

  // ------------------------------------------------------- what the loop itself does

  /** Calls of the loop that end, as opposed to what happens around them. */
  predicate OwnEvent(e: Event) {
    e.FetchFails? || e.Fetch? || e.Take? || e.AckOk? || e.GiveUp? || e.Stop?
  }

  function Own(es: seq<Event>): seq<Event> {
    if es == [] then []
    else if OwnEvent(es[|es| - 1]) then Own(es[..|es| - 1]) + [es[|es| - 1]]
    else Own(es[..|es| - 1])
  }

  lemma OwnPush(es: seq<Event>, e: Event)
    ensures Own(es + [e]) == if OwnEvent(e) then Own(es) + [e] else Own(es)
  {
    assert (es + [e])[..|es|] == es;
  }

  lemma Regroup<T>(a: seq<T>, b: seq<T>, c: seq<T>)
    ensures a + (b + c) == a + b + c
  {}

  lemma {:induction false} OwnTakes(es: seq<Event>, n: nat)
    ensures Own(es + Takes(n)) == Own(es) + Takes(n)
  {
    if n == 0 {
      assert es + [] == es && Own(es) + [] == Own(es);
    } else {
      OwnTakes(es, n - 1);
      OwnPush(es + Takes(n - 1), Take);
      Regroup(es, Takes(n - 1), [Take]);
      Regroup(Own(es), Takes(n - 1), [Take]);
    }
  }

  /** The run goes on, and the loop does nothing. */
  ghost predicate Around(es: seq<Event>, es': seq<Event>) { es <= es' && Own(es') == Own(es) }

  /** How one pass of the loop can go: the fetch throws, finds nothing, or is delivered whole
      and then acknowledged, with or without success. */
  datatype Pass = Failed | Idle | Delivered(batch: seq<Message>, confirmed: bool)

  function PassEvents(p: Pass): seq<Event> {
    match p
    case Failed => [FetchFails]
    case Idle => [Fetch]
    case Delivered(batch, confirmed) => [Fetch] + Takes(|batch|) + [if confirmed then AckOk else GiveUp]
  }

  function PassBatch(p: Pass): seq<Message> { if p.Delivered? then p.batch else [] }

  /** The calls of such a pass, in order. */
  function PassCalls(p: Pass): seq<J.LoopCall> {
    match p
    case Failed => [J.GetNext(None)]
    case Idle => [J.GetNext(Some([]))]
    case Delivered(batch, confirmed) =>
      [J.GetNext(Some(batch)), J.Consume(batch, true), J.MarkConsumed(Ids(batch), confirmed)]
  }

  function AllCalls(ps: seq<Pass>): seq<J.LoopCall> {
    if ps == [] then [] else AllCalls(ps[..|ps| - 1]) + PassCalls(ps[|ps| - 1])
  }

  function AllEvents(ps: seq<Pass>): seq<Event> {
    if ps == [] then [] else AllEvents(ps[..|ps| - 1]) + PassEvents(ps[|ps| - 1])
  }

  function AllBatches(ps: seq<Pass>): seq<Message> {
    if ps == [] then [] else AllBatches(ps[..|ps| - 1]) + PassBatch(ps[|ps| - 1])
  }

  lemma PassPush(ps: seq<Pass>, p: Pass, own: seq<Event>, received: seq<Message>, calls: seq<J.LoopCall>)
    ensures calls + AllCalls(ps + [p]) == calls + AllCalls(ps) + PassCalls(p)
    ensures own + AllEvents(ps + [p]) == own + AllEvents(ps) + PassEvents(p)
    ensures received + AllBatches(ps + [p]) == received + AllBatches(ps) + PassBatch(p)
  {
    assert (ps + [p])[..|ps|] == ps;
    Regroup(own, AllEvents(ps), PassEvents(p));
    Regroup(received, AllBatches(ps), PassBatch(p));
    Regroup(calls, AllCalls(ps), PassCalls(p));
  }

  lemma DeliveredPass(own: seq<Event>, calls: seq<J.LoopCall>, p: Pass)
    requires p.Delivered?
    ensures own + [Fetch] + Takes(|p.batch|) + [if p.confirmed then AckOk else GiveUp] == own + PassEvents(p)
    ensures calls + [J.GetNext(Some(p.batch))] + [J.Consume(p.batch, true), J.MarkConsumed(Ids(p.batch), p.confirmed)]
         == calls + PassCalls(p)
  {}

  /** Everything the consumer was ever given. */
  function Received(consumer: C.MessageConsumer): seq<Message>
    reads consumer
  {
    Concat(consumer.spawned) + consumer.buffer
  }

  lemma ReceivedIsLog(cfg: Config, w: World, es: seq<Event>)
    requires cfg.Valid() && IsRun(cfg, w, es)
    ensures Concat(After(cfg, es).flushed) + After(cfg, es).buffer == After(cfg, es).log
  {
    RunKeepsInv(cfg, w, es);
  }

  /** One more event, with the loop's account. */
  lemma OneMore(cfg: Config, w: World, es: seq<Event>, s: State, e: Event) returns (es': seq<Event>, s': State)
    requires IsRun(cfg, w, es) && After(cfg, es) == s && Allowed(w, s, e)
    ensures es' == es + [e] && s' == Step(cfg, s, e)
    ensures IsRun(cfg, w, es') && After(cfg, es') == s'
    ensures Own(es') == if OwnEvent(e) then Own(es) + [e] else Own(es)
  {
    es', s' := Extend(cfg, w, es, s, e);
    OwnPush(es, e);
  }

  /** What a fetch leaves: nothing if it threw or found nothing, else the batch in hand. */
  function Fetched(s: State, messages: seq<Message>): State {
    if messages == [] then s else s.(phase := Consuming, batch := messages, hand := messages)
  }

  /** A getNext that throws is nothing to the machine, one that returns is its fetch. */
  lemma FetchEvent(cfg: Config, w: World, es: seq<Event>, s: State, threw: bool, messages: seq<Message>)
    returns (es': seq<Event>)
    requires !w.settled && IsRun(cfg, w, es) && After(cfg, es) == s && s.phase.Fetching?
    requires messages == if threw then [] else Front(s.store, cfg.fetchSize)
    ensures es <= es' && IsRun(cfg, w, es') && After(cfg, es') == Fetched(s, messages)
    ensures Own(es') == Own(es) + [if threw then FetchFails else Fetch]
  {
    var t;
    FetchStep(cfg, w, s, threw, messages);
    es', t := OneMore(cfg, w, es, s, if threw then FetchFails else Fetch);
  }

  lemma FetchStep(cfg: Config, w: World, s: State, threw: bool, messages: seq<Message>)
    requires !w.settled && s.phase.Fetching? && messages == if threw then [] else Front(s.store, cfg.fetchSize)
    ensures var e := if threw then FetchFails else Fetch; Allowed(w, s, e) && Step(cfg, s, e) == Fetched(s, messages)
  {}

  // ------------------------------------------------------------ consumer and savers

  /** A saver thread opens its file or gets some bytes written. */
  method SaverStep(cfg: Config, w: World, folder: C.Folder, spawned: seq<seq<Message>>, e: D.SaverEvent,
                   ghost es: seq<Event>) returns (ghost es': seq<Event>)
    requires !w.exclusive && IsRun(cfg, w, es) && folder.disk == After(cfg, es).disk
    requires spawned == After(cfg, es).flushed && D.Enabled(Jobs(spawned), folder.disk, e)
    modifies folder
    ensures Around(es, es') && IsRun(cfg, w, es')
    ensures After(cfg, es') == After(cfg, es).(disk := folder.disk)
  {
    ghost var t;
    es', t := OneMore(cfg, w, es, After(cfg, es), Saver(e));
    folder.disk := D.Step(Jobs(spawned), folder.disk, e);
  }

  /** The consumer's loop over the whole batch; the ids stay for the acknowledgement. */
  method ConsumeTurn(cfg: Config, w: World, consumer: C.MessageConsumer, messages: array<Message>,
                     ghost es: seq<Event>)
    returns (accepted: bool, ghost es': seq<Event>)
    requires consumer.chunkSize == cfg.chunkSize && IsRun(cfg, w, es)
    requires ConsumerCoupled(consumer, After(cfg, es))
    requires After(cfg, es).phase.Consuming? && After(cfg, es).hand == messages[..] && messages.Length > 0
    modifies consumer, messages, consumer.journal
    ensures consumer.journal.calls == old(consumer.journal.calls) + [J.Consume(old(messages[..]), accepted)]
    ensures accepted && Ids(messages[..]) == Ids(old(messages[..]))
    ensures es <= es' && IsRun(cfg, w, es') && Own(es') == Own(es) + Takes(messages.Length)
    ensures After(cfg, es') == Taken(cfg, After(cfg, es), messages.Length)
    ensures ConsumerCoupled(consumer, After(cfg, es'))
  {
    ghost var given := messages[..];
    accepted := consumer.Consume(messages);
    TakesAll(cfg, w, es, After(cfg, es), messages.Length);
    es' := es + Takes(messages.Length);
    OwnTakes(es, messages.Length);
    assert given[..messages.Length] == given;
    assert Ids(messages[..]) == Ids(given);
  }

  /** The batch as the vector the loop hands to the consumer and then to markConsumed. */
  method ConsumeBatch(cfg: Config, w: World, consumer: C.MessageConsumer, messages: seq<Message>,
                      ghost es: seq<Event>)
    returns (accepted: bool, left: seq<Message>, ghost es': seq<Event>)
    requires consumer.chunkSize == cfg.chunkSize && IsRun(cfg, w, es) && messages != []
    requires ConsumerCoupled(consumer, After(cfg, es))
    requires After(cfg, es).phase.Consuming? && After(cfg, es).hand == After(cfg, es).batch == messages
    modifies consumer, consumer.journal
    ensures consumer.journal.calls == old(consumer.journal.calls) + [J.Consume(messages, accepted)]
    ensures accepted && Ids(left) == Ids(messages) && |left| == |messages|
    ensures es <= es' && IsRun(cfg, w, es') && Own(es') == Own(es) + Takes(|messages|)
    ensures ConsumerCoupled(consumer, After(cfg, es'))
    ensures var s, t := After(cfg, es), After(cfg, es');
      && t == s.(hand := [], log := s.log + messages, buffer := t.buffer, flushed := t.flushed, phase := Acking)
  {
    var batch := new Message[|messages|](i requires 0 <= i < |messages| => messages[i]);
    assert batch[..] == messages;
    accepted, es' := ConsumeTurn(cfg, w, consumer, batch, es);
    left := batch[..];
    assert messages[..|messages|] == messages && messages[|messages|..] == [];
  }

  lemma BufferIdsFit(cfg: Config, w: World, es: seq<Event>)
    requires cfg.Valid() && IsRun(cfg, w, es)
    requires forall i :: 0 <= i < |After(cfg, es).inserted| ==> After(cfg, es).inserted[i].id < WORD
    ensures forall m :: m in After(cfg, es).buffer ==> m.id < WORD
  {
    var s := After(cfg, es);
    RunKeepsInv(cfg, w, es);
    forall m | m in s.buffer ensures m.id < WORD {
      assert m in s.log;
      assert m in s.inserted;
    }
  }

  lemma OffsetsAreOld(cfg: Config, w: World, es: seq<Event>)
    requires cfg.Valid() && IsRun(cfg, w, es)
    ensures |After(cfg, es).flushed| !in After(cfg, es).disk.offsets
  {
    RunKeepsInv(cfg, w, es);
  }

  /** The destructor's job is the last of the stopped machine; an empty one is none. */
  lemma StopJobs(s: State, d: D.Disk, vs: seq<D.SaverEvent>)
    requires D.AllEnabled(Jobs(s.flushed + [s.buffer]), d, vs)
    ensures D.AllEnabled(Jobs(StopStep(s).flushed), d, vs)
    ensures D.RunAll(Jobs(StopStep(s).flushed), d, vs) == D.RunAll(Jobs(s.flushed + [s.buffer]), d, vs)
  {
    if s.buffer == [] {
      assert Jobs(s.flushed + [[]]) == Jobs(s.flushed) + [D.Job("", "")];
      D.EmptyJobIsIdle(Jobs(s.flushed), d, vs);
    }
  }

  lemma StopAndSave(cfg: Config, w: World, es: seq<Event>, vs: seq<D.SaverEvent>) returns (es': seq<Event>)
    requires !w.exclusive && IsRun(cfg, w, es) && After(cfg, es).phase.Fetching?
    requires var s := After(cfg, es); D.AllEnabled(Jobs(s.flushed + [s.buffer]), s.disk, vs)
    ensures es <= es' && IsRun(cfg, w, es')
    ensures var s := After(cfg, es);
      After(cfg, es') == StopStep(s).(disk := D.RunAll(Jobs(s.flushed + [s.buffer]), s.disk, vs))
  {
    var s, t := After(cfg, es), After(cfg, es);
    es', t := Extend(cfg, w, es, s, Stop);
    StopJobs(s, s.disk, vs);
    es', t := RunSavers(cfg, w, es', t, vs);
  }

  /** The loop has ended: `run` is false, the thread is joined, and `~MessageConsumer` saves the
      rest while detached savers still run. */
  method DestroyConsumer(cfg: Config, w: World, consumer: C.MessageConsumer, folder: C.Folder, ghost es: seq<Event>)
    returns (ghost es': seq<Event>)
    requires cfg.Valid() && !w.exclusive && IsRun(cfg, w, es) && After(cfg, es).phase.Fetching?
    requires ConsumerCoupled(consumer, After(cfg, es)) && folder.disk == After(cfg, es).disk
    requires forall i :: 0 <= i < |After(cfg, es).inserted| ==> After(cfg, es).inserted[i].id < WORD
    modifies folder
    ensures es <= es' && IsRun(cfg, w, es')
    ensures var s, t := After(cfg, es), After(cfg, es');
      && t == StopStep(s).(disk := folder.disk)
      && t.flushed == consumer.spawned + (if consumer.buffer == [] then [] else [consumer.buffer])
      && (consumer.buffer != [] ==> D.Finished(Jobs(t.flushed), t.disk, |consumer.spawned|))
  {
    BufferIdsFit(cfg, w, es);
    OffsetsAreOld(cfg, w, es);
    ghost var vs := consumer.Destroy(folder, true);
    es' := StopAndSave(cfg, w, es, vs);
  }
}
