/** `runLoop` over the Redis producer and the consumer, with the front end, late deletes and
    saver threads interleaved between all calls and all commands, refines the state machine of
    module `Delivery`. */
module RunLoop {
  import opened Text
  import opened Messages
  import opened StreamIds
  import opened RedisWire
  import opened Hiredis
  import opened Chunks
  import opened Delivery
  import opened FileNames
  import opened Fifo
  import C = Consumer
  import D = Disk
  import J = Journal
  import LF = LossFree
  import Losses
  import RP = RedisProducer
  import opened LoopParts

  /** Redis gives ascending ids; nothing is promised about acknowledgements or savers. */
  const REDIS := World(true, false, false)

  /** The server agrees with the machine: same stream, no unknown commands, and no id
      given out above the server's top one. */
  ghost predicate Coupled(entries: seq<Entry>, top: Entry, late: set<string>, s: State) {
    && DecodedAll(entries) == s.store
    && (forall i :: 0 <= i < |entries| ==> EntryInRange(entries[i]))
    && EntryInRange(top)
    && (forall i :: 0 <= i < |s.inserted| ==> s.inserted[i].id <= Decoded(top).id)
    && (forall t :: t in late ==> exists ids :: ids in s.unresolved && t == XdelCommand(ids))
  }

  ghost predicate StoreCoupled(redis: Redis, s: State)
    reads redis
  {
    redis.Valid() && redis.inRange && Coupled(redis.entries, redis.top, redis.late, s)
  }

  /** What the other threads and processes work on: the stream and the folder. */
  ghost predicate WorldCoupled(redis: Redis, folder: C.Folder, s: State)
    reads redis, folder
  {
    StoreCoupled(redis, s) && folder.disk == s.disk
  }

  lemma RunConcat(cfg: Config, es: seq<Event>, e: Event)
    requires IsRun(cfg, REDIS, es) && Allowed(REDIS, After(cfg, es), e)
    ensures IsRun(cfg, REDIS, es + [e]) && After(cfg, es + [e]) == Step(cfg, After(cfg, es), e)
    ensures Own(es + [e]) == if OwnEvent(e) then Own(es) + [e] else Own(es)
  {
    RunStep(cfg, REDIS, es, e);
    OwnPush(es, e);
  }

  // ------------------------------------------------------- the rest of the world

  lemma InsertCoupled(cfg: Config, s: State, entries: seq<Entry>, top: Entry, late: set<string>, e: Entry)
    requires StoreInv(s) && Coupled(entries, top, late, s)
    requires EntryInRange(e) && IdBefore(top, e)
    ensures Allowed(REDIS, s, Insert(Decoded(e)))
    ensures Coupled(entries + [e], e, late, Step(cfg, s, Insert(Decoded(e))))
    ensures SameButStore(s, Step(cfg, s, Insert(Decoded(e))))
  {
    PackOrder(top.ts, top.sq, e.ts, e.sq);
    InsertByIdLast(s.store, Decoded(e));
    assert DecodedAll(entries + [e]) == DecodedAll(entries) + [Decoded(e)];
  }

  lemma ArrivalCoupled(cfg: Config, s: State, entries: seq<Entry>, top: Entry, late: set<string>, text: string)
    returns (ids: seq<nat>)
    requires Coupled(entries, top, late, s) && text in late
    ensures Allowed(REDIS, s, Arrive(ids))
    ensures Coupled(DeleteNamed(entries, CommandIds(text)), top, late, Step(cfg, s, Arrive(ids)))
    ensures SameButStore(s, Step(cfg, s, Arrive(ids)))
  {
    ids :| ids in s.unresolved && text == XdelCommand(ids);
    XdelDeletesBatch(entries, ids);
    DeleteNamedSubset(entries, CommandIds(text));
    var rest := DeleteNamed(entries, CommandIds(text));
    forall i | 0 <= i < |rest| ensures EntryInRange(rest[i]) {
      assert rest[i] in entries;
    }
  }

  /** One deed of others is one event. */
  lemma DeedCoupled(cfg: Config, es: seq<Event>, now: Stream, late: set<string>, d: Deed) returns (es': seq<Event>)
    requires cfg.Valid() && IsRun(cfg, REDIS, es) && Coupled(now.entries, now.top, late, After(cfg, es))
    requires CanDo(now, late, true, d)
    ensures Around(es, es') && IsRun(cfg, REDIS, es') && SameButStore(After(cfg, es), After(cfg, es'))
    ensures var next := Do(now, d); Coupled(next.entries, next.top, late, After(cfg, es'))
  {
    var s, t := After(cfg, es), After(cfg, es);
    match d
    case Added(e) =>
      assert StoreInv(s) by { RunKeepsInv(cfg, REDIS, es); }
      InsertCoupled(cfg, s, now.entries, now.top, late, e);
      es', t := OneMore(cfg, REDIS, es, s, Insert(Decoded(e)));
    case Deleted(text) =>
      var ids := ArrivalCoupled(cfg, s, now.entries, now.top, late, text);
      es', t := OneMore(cfg, REDIS, es, s, Arrive(ids));
  }

  lemma {:induction false} DeedsCoupled(cfg: Config, es: seq<Event>, now: Stream, late: set<string>, ds: seq<Deed>)
    returns (es': seq<Event>)
    requires cfg.Valid() && IsRun(cfg, REDIS, es) && Coupled(now.entries, now.top, late, After(cfg, es))
    requires CanDoAll(now, late, true, ds)
    ensures Around(es, es') && IsRun(cfg, REDIS, es') && SameButStore(After(cfg, es), After(cfg, es'))
    ensures var next := DoAll(now, ds); Coupled(next.entries, next.top, late, After(cfg, es'))
  {
    es' := es;
    if ds != [] {
      var n := |ds| - 1;
      forall i | 0 <= i < n ensures CanDo(DoAll(now, ds[..n][..i]), late, true, ds[..n][i]) {
        assert ds[..n][..i] == ds[..i];
      }
      es' := DeedsCoupled(cfg, es, now, late, ds[..n]);
      es' := DeedCoupled(cfg, es', DoAll(now, ds[..n]), late, ds[n]);
    }
  }

  /** Whatever others do to the stream is a stretch of a run. */
  lemma DriftCoupled(cfg: Config, es: seq<Event>, now: Stream, late: set<string>, next: Stream)
    returns (es': seq<Event>)
    requires cfg.Valid() && IsRun(cfg, REDIS, es) && Coupled(now.entries, now.top, late, After(cfg, es))
    requires Drifts(now, late, true, next)
    ensures Around(es, es') && IsRun(cfg, REDIS, es') && SameButStore(After(cfg, es), After(cfg, es'))
    ensures Coupled(next.entries, next.top, late, After(cfg, es'))
  {
    var ds :| CanDoAll(now, late, true, ds) && DoAll(now, ds) == next;
    es' := DeedsCoupled(cfg, es, now, late, ds);
  }

  /** Any number of inserts, late deletes and saver steps, in any order. (A saver's step during
      a call of the loop touches nothing the call does; it is as good as one before or after.) */
  method Others(cfg: Config, redis: Redis, folder: C.Folder, spawned: seq<seq<Message>>, ghost es: seq<Event>)
    returns (ghost es': seq<Event>)
    requires cfg.Valid() && IsRun(cfg, REDIS, es) && WorldCoupled(redis, folder, After(cfg, es))
    requires spawned == After(cfg, es).flushed
    modifies redis`entries, redis`top, folder
    ensures Around(es, es') && IsRun(cfg, REDIS, es')
    ensures WorldCoupled(redis, folder, After(cfg, es')) && SameLoop(After(cfg, es), After(cfg, es'))
  {
    es' := es;
    var n: int := *;
    while n > 0
      invariant Around(es, es') && IsRun(cfg, REDIS, es')
      invariant WorldCoupled(redis, folder, After(cfg, es')) && SameLoop(After(cfg, es), After(cfg, es'))
    {
      var saver: D.SaverEvent := *;
      if D.Enabled(Jobs(spawned), folder.disk, saver) {
        es' := SaverStep(cfg, REDIS, folder, spawned, saver, es');
      } else {
        ghost var now := redis.Now();
        redis.Interfere();
        es' := DriftCoupled(cfg, es', now, redis.late, redis.Now());
      }
      n := n - 1;
    }
  }

  // ------------------------------------------------------------------ one turn

  lemma FrontDecodes(entries: seq<Entry>, n: nat)
    ensures DecodedAll(Front(entries, n)) == Front(DecodedAll(entries), n)
  {}

  lemma FetchCoupled(cfg: Config, es: seq<Event>, now: Stream, late: set<string>, next: Stream,
                     messages: Result<seq<Message>>) returns (es': seq<Event>)
    requires cfg.Valid() && IsRun(cfg, REDIS, es) && Coupled(now.entries, now.top, late, After(cfg, es))
    requires After(cfg, es).phase.Fetching? && Drifts(now, late, true, next)
    requires messages.Ok? ==> messages.value == DecodedAll(Front(next.entries, cfg.fetchSize))
    ensures es <= es' && IsRun(cfg, REDIS, es') && Coupled(next.entries, next.top, late, After(cfg, es'))
    ensures Own(es') == Own(es) + [if messages.Throw? then FetchFails else Fetch]
    ensures SameButStore(Fetched(After(cfg, es), if messages.Throw? then [] else messages.value), After(cfg, es'))
  {
    es' := DriftCoupled(cfg, es, now, late, next);
    FrontDecodes(next.entries, cfg.fetchSize);
    es' := FetchEvent(cfg, REDIS, es', After(cfg, es'), messages.Throw?,
                      if messages.Throw? then [] else messages.value);
  }

  /** getNext either throws, which the machine sees as nothing, or hands over the batch; in
      either case after what others did while it ran. */
  method FetchTurn(cfg: Config, producer: RP.Producer, ghost es: seq<Event>)
    returns (messages: Result<seq<Message>>, ghost es': seq<Event>)
    requires producer.Valid() && producer.chunkSize == cfg.fetchSize
    requires cfg.Valid() && IsRun(cfg, REDIS, es) && StoreCoupled(producer.redis, After(cfg, es))
    requires After(cfg, es).phase.Fetching?
    modifies producer`connection, producer.redis, producer.journal
    ensures producer.Valid() && es <= es' && IsRun(cfg, REDIS, es')
    ensures producer.journal.calls == old(producer.journal.calls)
                                      + [J.GetNext(if messages.Ok? then Some(messages.value) else None)]
    ensures Own(es') == Own(es) + [if messages.Throw? then FetchFails else Fetch]
    ensures StoreCoupled(producer.redis, After(cfg, es')) && (messages.Ok? ==> |messages.value| <= cfg.fetchSize)
    ensures SameButStore(Fetched(After(cfg, es), if messages.Throw? then [] else messages.value), After(cfg, es'))
  {
    ghost var now := producer.redis.Now();
    ghost var made;
    messages, made := producer.GetNext();
    es' := FetchCoupled(cfg, es, now, producer.redis.late, producer.redis.Now(), messages);
  }

  /** The same with others acting before and after. */
  method FetchAmid(cfg: Config, producer: RP.Producer, folder: C.Folder, spawned: seq<seq<Message>>,
                   ghost es: seq<Event>) returns (messages: Result<seq<Message>>, ghost es': seq<Event>)
    requires producer.Valid() && producer.chunkSize == cfg.fetchSize
    requires cfg.Valid() && IsRun(cfg, REDIS, es) && WorldCoupled(producer.redis, folder, After(cfg, es))
    requires After(cfg, es).phase.Fetching? && spawned == After(cfg, es).flushed
    modifies producer`connection, producer.redis, producer.journal, folder
    ensures producer.Valid() && es <= es' && IsRun(cfg, REDIS, es')
    ensures producer.journal.calls == old(producer.journal.calls)
                                      + [J.GetNext(if messages.Ok? then Some(messages.value) else None)]
    ensures Own(es') == Own(es) + [if messages.Throw? then FetchFails else Fetch]
    ensures WorldCoupled(producer.redis, folder, After(cfg, es'))
    ensures messages.Ok? ==> |messages.value| <= cfg.fetchSize
    ensures SameLoop(Fetched(After(cfg, es), if messages.Throw? then [] else messages.value), After(cfg, es'))
  {
    es' := Others(cfg, producer.redis, folder, spawned, es);
    messages, es' := FetchTurn(cfg, producer, es');
    es' := Others(cfg, producer.redis, folder, spawned, es');
  }

  lemma DeletedInRange(entries: seq<Entry>, ids: seq<string>)
    requires forall i :: 0 <= i < |entries| ==> EntryInRange(entries[i])
    ensures var rest := DeleteNamed(entries, ids); forall i :: 0 <= i < |rest| ==> EntryInRange(rest[i])
  {
    DeleteNamedSubset(entries, ids);
    var rest := DeleteNamed(entries, ids);
    forall i | 0 <= i < |rest| ensures EntryInRange(rest[i]) {
      assert rest[i] in entries;
    }
  }

  /** The loop is where it was, apart from the store and what is unresolved. */
  ghost predicate SameButCommands(s: State, t: State) {
    t == s.(inserted := t.inserted, store := t.store, unresolved := t.unresolved)
  }

  /** A sending that was not confirmed: nothing, or a command of unknown fate, which may have
      taken effect. */
  lemma SendingCoupled(cfg: Config, es: seq<Event>, now: Stream, late: set<string>, ids: seq<nat>, how: RP.Sending)
    returns (es': seq<Event>)
    requires IsRun(cfg, REDIS, es) && Coupled(now.entries, now.top, late, After(cfg, es))
    requires After(cfg, es).phase.Acking? && ids == Ids(After(cfg, es).batch) && !how.Confirmed?
    ensures Around(es, es') && IsRun(cfg, REDIS, es') && SameButCommands(After(cfg, es), After(cfg, es'))
    ensures var command := XdelCommand(ids); var next := RP.Effect(now, command, how);
      Coupled(next.entries, next.top, RP.LateAfter(late, command, how), After(cfg, es'))
  {
    es' := es;
    if how.Dropped? {
      RunConcat(cfg, es, Send);
      es' := es + [Send];
      var late' := late + {XdelCommand(ids)};
      assert Coupled(now.entries, now.top, late', After(cfg, es'));
      if how.executed {
        XdelDeletesBatch(now.entries, ids);
        DeletedInRange(now.entries, CommandIds(XdelCommand(ids)));
        RunConcat(cfg, es', Arrive(ids));
        es' := es' + [Arrive(ids)];
      }
    }
  }

  /** A confirmed sending ends the acknowledgement. */
  lemma ConfirmedCoupled(cfg: Config, es: seq<Event>, now: Stream, late: set<string>, ids: seq<nat>)
    returns (es': seq<Event>)
    requires IsRun(cfg, REDIS, es) && Coupled(now.entries, now.top, late, After(cfg, es))
    requires After(cfg, es).phase.Acking? && ids == Ids(After(cfg, es).batch)
    ensures es <= es' && IsRun(cfg, REDIS, es') && Released(After(cfg, es), After(cfg, es'))
    ensures Own(es') == Own(es) + [AckOk]
    ensures var next := RP.Effect(now, XdelCommand(ids), RP.Confirmed);
      Coupled(next.entries, next.top, late, After(cfg, es'))
  {
    XdelDeletesBatch(now.entries, ids);
    DeletedInRange(now.entries, CommandIds(XdelCommand(ids)));
    RunConcat(cfg, es, AckOk);
    es' := es + [AckOk];
  }

  lemma GiveUpCoupled(cfg: Config, es: seq<Event>, now: Stream, late: set<string>) returns (es': seq<Event>)
    requires IsRun(cfg, REDIS, es) && Coupled(now.entries, now.top, late, After(cfg, es))
    requires After(cfg, es).phase.Acking?
    ensures es <= es' && IsRun(cfg, REDIS, es') && Released(After(cfg, es), After(cfg, es'))
    ensures Own(es') == Own(es) + [GiveUp]
    ensures Coupled(now.entries, now.top, late, After(cfg, es'))
  {
    RunConcat(cfg, es, GiveUp);
    es' := es + [GiveUp];
  }

  /** A sending and, if it was confirmed, the end. */
  lemma LastSendingCoupled(cfg: Config, es: seq<Event>, now: Stream, late: set<string>, ids: seq<nat>, how: RP.Sending)
    returns (es': seq<Event>)
    requires IsRun(cfg, REDIS, es) && Coupled(now.entries, now.top, late, After(cfg, es))
    requires After(cfg, es).phase.Acking? && ids == Ids(After(cfg, es).batch)
    ensures es <= es' && IsRun(cfg, REDIS, es') && Released(After(cfg, es), After(cfg, es'))
    ensures Own(es') == Own(es) + [if how.Confirmed? then AckOk else GiveUp]
    ensures var command := XdelCommand(ids); var next := RP.Effect(now, command, how);
      Coupled(next.entries, next.top, RP.LateAfter(late, command, how), After(cfg, es'))
  {
    var command := XdelCommand(ids);
    if how.Confirmed? {
      es' := ConfirmedCoupled(cfg, es, now, late, ids);
    } else {
      es' := SendingCoupled(cfg, es, now, late, ids, how);
      es' := GiveUpCoupled(cfg, es', RP.Effect(now, command, how), RP.LateAfter(late, command, how));
    }
  }

  /** The machine's account of an acknowledgement that took the given course. */
  lemma CourseCoupled(cfg: Config, es: seq<Event>, ids: seq<nat>, course: RP.Course, now: Stream, late: set<string>)
    returns (es': seq<Event>)
    requires cfg.Valid() && IsRun(cfg, REDIS, es) && Coupled(now.entries, now.top, late, After(cfg, es))
    requires After(cfg, es).phase.Acking? && ids == Ids(After(cfg, es).batch)
    requires RP.Possible(course, XdelCommand(ids), now, late, true)
    ensures es <= es' && IsRun(cfg, REDIS, es') && Released(After(cfg, es), After(cfg, es'))
    ensures Own(es') == Own(es) + [if course.first.Confirmed? || course.second.Confirmed? then AckOk else GiveUp]
    ensures var command := XdelCommand(ids); var next := RP.Final(course, command);
      Coupled(next.entries, next.top, RP.FinalLate(course, command, late), After(cfg, es'))
  {
    var command := XdelCommand(ids);
    es' := DriftCoupled(cfg, es, now, late, course.before);
    if course.first.Confirmed? {
      es' := LastSendingCoupled(cfg, es', course.before, late, ids, course.first);
    } else {
      es' := SendingCoupled(cfg, es', course.before, late, ids, course.first);
      var late' := RP.LateAfter(late, command, course.first);
      es' := DriftCoupled(cfg, es', RP.Effect(course.before, command, course.first), late', course.between);
      es' := LastSendingCoupled(cfg, es', course.between, late', ids, course.second);
    }
  }

  /** markConsumed: confirmed; or thrown, with the delete done, pending, or never sent. */
  method AckTurn(cfg: Config, producer: RP.Producer, messages: seq<Message>, ghost es: seq<Event>)
    returns (confirmed: bool, ghost es': seq<Event>)
    requires cfg.Valid() && producer.Valid()
    requires IsRun(cfg, REDIS, es) && StoreCoupled(producer.redis, After(cfg, es))
    requires After(cfg, es).phase.Acking? && Ids(messages) == Ids(After(cfg, es).batch)
    modifies producer`connection, producer.redis, producer.journal
    ensures producer.Valid() && es <= es' && IsRun(cfg, REDIS, es')
    ensures producer.journal.calls == old(producer.journal.calls) + [J.MarkConsumed(Ids(messages), confirmed)]
    ensures Own(es') == Own(es) + [if confirmed then AckOk else GiveUp]
    ensures StoreCoupled(producer.redis, After(cfg, es')) && Released(After(cfg, es), After(cfg, es'))
  {
    ghost var now, late := producer.redis.Now(), producer.redis.late;
    var done;
    ghost var course, made;
    done, course, made := producer.MarkConsumed(messages);
    es' := CourseCoupled(cfg, es, Ids(messages), course, now, late);
    confirmed := done.Ok?;
  }

  // --------------------------------------------------------------- the run loop

  /** At the head of the loop, objects and machine agree. */
  ghost predicate AtHead(cfg: Config, producer: RP.Producer, consumer: C.MessageConsumer, folder: C.Folder,
                         es: seq<Event>)
    reads producer, producer.redis, consumer, folder
  {
    && cfg.Valid() && cfg.fetchSize == producer.chunkSize && cfg.chunkSize == consumer.chunkSize
    && producer.Valid() && producer.journal == consumer.journal
    && IsRun(cfg, REDIS, es) && After(cfg, es).phase.Fetching?
    && WorldCoupled(producer.redis, folder, After(cfg, es)) && ConsumerCoupled(consumer, After(cfg, es))
  }

  /** From a fetched batch to the end of its acknowledgement. */
  method Deliver(cfg: Config, producer: RP.Producer, consumer: C.MessageConsumer, folder: C.Folder,
                 messages: seq<Message>, ghost es: seq<Event>) returns (confirmed: bool, ghost es': seq<Event>)
    requires cfg.Valid() && cfg.fetchSize == producer.chunkSize && cfg.chunkSize == consumer.chunkSize
    requires producer.Valid() && producer.journal == consumer.journal && IsRun(cfg, REDIS, es) && messages != []
    requires var s := After(cfg, es); s.phase.Consuming? && s.hand == s.batch == messages
    requires WorldCoupled(producer.redis, folder, After(cfg, es)) && ConsumerCoupled(consumer, After(cfg, es))
    modifies producer`connection, producer.redis, consumer, folder, producer.journal
    ensures es <= es' && AtHead(cfg, producer, consumer, folder, es')
    ensures producer.journal.calls == old(producer.journal.calls)
                                      + [J.Consume(messages, true), J.MarkConsumed(Ids(messages), confirmed)]
    ensures Own(es') == Own(es) + Takes(|messages|) + [if confirmed then AckOk else GiveUp]
    ensures After(cfg, es').log == After(cfg, es).log + messages
  {
    var accepted, left;
    accepted, left, es' := ConsumeBatch(cfg, REDIS, consumer, messages, es);
    es' := Others(cfg, producer.redis, folder, consumer.spawned, es');
    if accepted {
      confirmed, es' := AckTurn(cfg, producer, left, es');
    }
  }

  /** One pass of the loop body: exactly one getNext, and if that found something one call of
      the consumer with the batch and one markConsumed of its ids, in this order; to the machine,
      a fetch, every message of the batch taken, and an acknowledgement. */
  method Turn(cfg: Config, producer: RP.Producer, consumer: C.MessageConsumer, folder: C.Folder,
              ghost es: seq<Event>) returns (ghost pass: Pass, ghost es': seq<Event>)
    requires AtHead(cfg, producer, consumer, folder, es)
    modifies producer`connection, producer.redis, consumer, folder, producer.journal
    ensures es <= es' && AtHead(cfg, producer, consumer, folder, es')
    ensures producer.journal.calls == old(producer.journal.calls) + PassCalls(pass)
    ensures Own(es') == Own(es) + PassEvents(pass)
    ensures pass.Delivered? ==> 0 < |pass.batch| <= cfg.fetchSize
    ensures Received(consumer) == old(Received(consumer)) + PassBatch(pass)
  {
    ReceivedIsLog(cfg, REDIS, es);
    var messages;
    messages, es' := FetchAmid(cfg, producer, folder, consumer.spawned, es);
    if messages.Throw? || messages.value == [] {
      pass := if messages.Throw? then Failed else Idle;
      assert Received(consumer) + [] == Received(consumer);
    } else {
      var confirmed;
      confirmed, es' := Deliver(cfg, producer, consumer, folder, messages.value, es');
      pass := Delivered(messages.value, confirmed);
      DeliveredPass(Own(es), old(producer.journal.calls), pass);
      ReceivedIsLog(cfg, REDIS, es');
    }
  }

  /** `ticks` is how many times the loop finds `run` set. Whatever the connection, the
      server, the front end and the savers do, what happened is a run of the machine, in which
      the loop made that many passes and the consumer received their batches in order. */
  method RunLoop(producer: RP.Producer, consumer: C.MessageConsumer, folder: C.Folder, ticks: nat,
                 ghost start: seq<Event>) returns (ghost passes: seq<Pass>, ghost es: seq<Event>)
    requires AtHead(Config(producer.chunkSize, consumer.chunkSize), producer, consumer, folder, start)
    modifies producer`connection, producer.redis, consumer, folder, producer.journal
    ensures AtHead(Config(producer.chunkSize, consumer.chunkSize), producer, consumer, folder, es) && start <= es
    ensures |passes| == ticks && Own(es) == Own(start) + AllEvents(passes)
    ensures producer.journal.calls == old(producer.journal.calls) + AllCalls(passes)
    ensures Received(consumer) == old(Received(consumer)) + AllBatches(passes)
  {
    var cfg := Config(producer.chunkSize, consumer.chunkSize);
    es, passes := start, [];
    assert Own(start) + [] == Own(start) && Received(consumer) + [] == Received(consumer);
    assert producer.journal.calls + [] == producer.journal.calls;
    for tick := 0 to ticks
      invariant start <= es && AtHead(cfg, producer, consumer, folder, es)
      invariant |passes| == tick && Own(es) == Own(start) + AllEvents(passes)
      invariant producer.journal.calls == old(producer.journal.calls) + AllCalls(passes)
      invariant Received(consumer) == old(Received(consumer)) + AllBatches(passes)
    {
      ghost var pass;
      pass, es := Turn(cfg, producer, consumer, folder, es);
      PassPush(passes, pass, Own(start), old(Received(consumer)), old(producer.journal.calls));
      passes := passes + [pass];
    }
  }

  /** The end: the destructor saves the rest. */
  method Shutdown(cfg: Config, producer: RP.Producer, consumer: C.MessageConsumer, folder: C.Folder,
                  ghost es: seq<Event>) returns (ghost es': seq<Event>)
    requires AtHead(cfg, producer, consumer, folder, es)
    modifies folder
    ensures es <= es' && IsRun(cfg, REDIS, es') && After(cfg, es').phase.Stopped?
    ensures WorldCoupled(producer.redis, folder, After(cfg, es'))
    ensures var s := After(cfg, es');
      && s.flushed == consumer.spawned + (if consumer.buffer == [] then [] else [consumer.buffer])
      && (consumer.buffer != [] ==> D.Finished(Jobs(s.flushed), s.disk, |consumer.spawned|))
  {
    PackInRange(producer.redis.top.ts, producer.redis.top.sq);
    es' := DestroyConsumer(cfg, REDIS, consumer, folder, es);
  }

  /** What the refinement buys, said about the objects: the consumer holds, in its chunks
      and its buffer, everything that is no longer in the stream, and replays apart it
      received the messages in the order of their insertion. */
  lemma LoopKeepsAll(cfg: Config, producer: RP.Producer, consumer: C.MessageConsumer, folder: C.Folder,
                     es: seq<Event>)
    requires AtHead(cfg, producer, consumer, folder, es)
    ensures forall m :: m in After(cfg, es).inserted ==>
      m in DecodedAll(producer.redis.entries) || m in Received(consumer)
    ensures FirstTimes(Received(consumer)) <= After(cfg, es).inserted
  {
    RunKeepsInv(cfg, REDIS, es);
    FifoUpToReplay(cfg, REDIS, es);
  }

  /** After the shutdown, once all savers are done: everything ever inserted is in the stream
      or on disk, if savers of one file did not overlap, and in any case if messages are
      fetched or saved one by one. */
  lemma ShutdownKeepsAll(cfg: Config, redis: Redis, folder: C.Folder, es: seq<Event>)
    requires cfg.Valid() && IsRun(cfg, REDIS, es) && WorldCoupled(redis, folder, After(cfg, es))
    requires After(cfg, es).phase.Stopped? && AllSaved(After(cfg, es))
    requires cfg.fetchSize == 1 || cfg.chunkSize == 1 || IsRun(cfg, World(true, false, true), es)
    ensures forall m :: m in After(cfg, es).inserted ==>
      m in DecodedAll(redis.entries) || LF.OnDisk(After(cfg, es).flushed, folder.disk, m)
  {
    if cfg.fetchSize == 1 || cfg.chunkSize == 1 {
      Losses.StoppedMeansOnDisk(cfg, REDIS, es);
    } else {
      Losses.StoppedMeansOnDisk(cfg, World(true, false, true), es);
    }
  }
}
