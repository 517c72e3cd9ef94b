/** `runLoop` over the PostgreSQL producer and the consumer refines the state machine of module
    `Delivery` too, in the world that promises nothing. */
module PostgresLoop {
  import opened Text
  import opened Messages
  import opened Chunks
  import opened FileNames
  import opened Libpqxx
  import opened PostgresProducer
  import opened Delivery
  import opened LoopParts
  import C = Consumer
  import D = Disk
  import J = Journal
  import LF = LossFree
  import Losses

  /** Rows become visible in any order of ids, and nothing is promised about deletes. */
  const POSTGRES := World(false, false, false)

  /** The table agrees with the machine: same rows, no id twice, no unknown statements. */
  ghost predicate Coupled(rows: seq<Message>, used: set<nat>, late: set<string>, s: State) {
    && rows == s.store
    && (forall i :: 0 <= i < |s.inserted| ==> s.inserted[i].id in used && s.inserted[i].id < WORD)
    && (forall q :: q in late ==> exists ids :: ids in s.unresolved && ids != [] && q == DeleteQuery(ids))
  }

  ghost predicate TableCoupled(db: Database, s: State)
    reads db
  {
    Coupled(db.rows, db.used, db.late, s)
  }

  ghost predicate WorldCoupled(db: Database, folder: C.Folder, s: State)
    reads db, folder
  {
    TableCoupled(db, s) && folder.disk == s.disk
  }

  // ------------------------------------------------------- the rest of the world

  lemma InsertCoupled(cfg: Config, es: seq<Event>, rows: seq<Message>, used: set<nat>, late: set<string>, m: Message)
    returns (es': seq<Event>)
    requires IsRun(cfg, POSTGRES, es) && Coupled(rows, used, late, After(cfg, es)) && m.id !in used && m.id < WORD
    ensures Around(es, es') && IsRun(cfg, POSTGRES, es') && SameButStore(After(cfg, es), After(cfg, es'))
    ensures Coupled(InsertById(rows, m), used + {m.id}, late, After(cfg, es'))
  {
    var t;
    es', t := OneMore(cfg, POSTGRES, es, After(cfg, es), Event.Insert(m));
  }

  lemma ArrivalCoupled(cfg: Config, es: seq<Event>, rows: seq<Message>, used: set<nat>, late: set<string>, q: string)
    returns (es': seq<Event>)
    requires IsRun(cfg, POSTGRES, es) && Coupled(rows, used, late, After(cfg, es)) && q in late
    ensures Around(es, es') && IsRun(cfg, POSTGRES, es')
    ensures SameButStore(After(cfg, es), After(cfg, es'))
    ensures Coupled(Deleted(rows, q), used, late, After(cfg, es'))
  {
    var ids :| ids in After(cfg, es).unresolved && ids != [] && q == DeleteQuery(ids);
    QueryNamesIds(ids);
    ListedIsRemove(rows, ids);
    var t;
    es', t := OneMore(cfg, POSTGRES, es, After(cfg, es), Event.Arrive(ids));
  }

  /** Any number of inserts, late deletes and saver steps, in any order. */
  method Others(cfg: Config, db: Database, folder: C.Folder, spawned: seq<seq<Message>>, ghost es: seq<Event>)
    returns (ghost es': seq<Event>)
    requires IsRun(cfg, POSTGRES, es) && WorldCoupled(db, folder, After(cfg, es))
    requires spawned == After(cfg, es).flushed
    modifies db`rows, db`used, folder
    ensures Around(es, es') && IsRun(cfg, POSTGRES, es')
    ensures WorldCoupled(db, folder, After(cfg, es')) && SameLoop(After(cfg, es), After(cfg, es'))
  {
    es' := es;
    var n: int := *;
    while n > 0
      invariant Around(es, es') && IsRun(cfg, POSTGRES, es')
      invariant WorldCoupled(db, folder, After(cfg, es')) && SameLoop(After(cfg, es), After(cfg, es'))
    {
      var m: Message, q: string, saver: D.SaverEvent := *, *, *;
      if q in db.late {
        es' := ArrivalCoupled(cfg, es', db.rows, db.used, db.late, q);
        db.Arrive(q);
      } else if m.id !in db.used && m.id < WORD {
        es' := InsertCoupled(cfg, es', db.rows, db.used, db.late, m);
        db.OtherInsert(m);
      } else if D.Enabled(Jobs(spawned), folder.disk, saver) {
        es' := SaverStep(cfg, POSTGRES, folder, spawned, saver, es');
      }
      n := n - 1;
    }
  }

  // ------------------------------------------------------------------ one turn

  /** getNext either throws, which the machine sees as nothing, or hands over the batch. */
  method FetchTurn(cfg: Config, producer: Producer, ghost es: seq<Event>)
    returns (messages: Result<seq<Message>>, ghost es': seq<Event>)
    requires producer.Valid() && producer.chunkSize == cfg.fetchSize && IsRun(cfg, POSTGRES, es)
    requires TableCoupled(producer.db, After(cfg, es)) && After(cfg, es).phase.Fetching?
    modifies producer`connection, producer.journal
    modifies producer.db`links, producer.db`works, producer.db`nextLink, producer.db`calls
    ensures producer.Valid() && es <= es' && IsRun(cfg, POSTGRES, es') && TableCoupled(producer.db, After(cfg, es'))
    ensures producer.journal.calls == old(producer.journal.calls)
                                      + [J.GetNext(if messages.Ok? then Some(messages.value) else None)]
    ensures Own(es') == Own(es) + [if messages.Throw? then FetchFails else Fetch]
    ensures messages.Ok? ==> |messages.value| <= cfg.fetchSize
    ensures After(cfg, es') == Fetched(After(cfg, es), if messages.Throw? then [] else messages.value)
  {
    ghost var made, c;
    messages, made, c := producer.GetNext();
    es' := FetchEvent(cfg, POSTGRES, es, After(cfg, es), messages.Throw?,
                      if messages.Throw? then [] else messages.value);
  }

  /** The same with others acting before and after. */
  method FetchAmid(cfg: Config, producer: Producer, folder: C.Folder, spawned: seq<seq<Message>>,
                   ghost es: seq<Event>) returns (messages: Result<seq<Message>>, ghost es': seq<Event>)
    requires producer.Valid() && producer.chunkSize == cfg.fetchSize && IsRun(cfg, POSTGRES, es)
    requires WorldCoupled(producer.db, folder, After(cfg, es))
    requires After(cfg, es).phase.Fetching? && spawned == After(cfg, es).flushed
    modifies producer`connection, producer.db, producer.journal, folder
    ensures producer.Valid() && es <= es' && IsRun(cfg, POSTGRES, es')
    ensures producer.journal.calls == old(producer.journal.calls)
                                      + [J.GetNext(if messages.Ok? then Some(messages.value) else None)]
    ensures Own(es') == Own(es) + [if messages.Throw? then FetchFails else Fetch]
    ensures WorldCoupled(producer.db, folder, After(cfg, es'))
    ensures messages.Ok? ==> |messages.value| <= cfg.fetchSize
    ensures SameLoop(Fetched(After(cfg, es), if messages.Throw? then [] else messages.value), After(cfg, es'))
  {
    es' := Others(cfg, producer.db, folder, spawned, es);
    messages, es' := FetchTurn(cfg, producer, es');
    es' := Others(cfg, producer.db, folder, spawned, es');
  }

  lemma ConfirmedCoupled(cfg: Config, es: seq<Event>, rows: seq<Message>, used: set<nat>, late: set<string>)
    returns (es': seq<Event>)
    requires IsRun(cfg, POSTGRES, es) && Coupled(rows, used, late, After(cfg, es)) && After(cfg, es).phase.Acking?
    ensures es <= es' && IsRun(cfg, POSTGRES, es') && Released(After(cfg, es), After(cfg, es'))
    ensures Own(es') == Own(es) + [AckOk]
    ensures Coupled(Remove(rows, Ids(After(cfg, es).batch)), used, late, After(cfg, es'))
  {
    var t;
    es', t := OneMore(cfg, POSTGRES, es, After(cfg, es), AckOk);
  }

  lemma SentCoupled(cfg: Config, es: seq<Event>, rows: seq<Message>, used: set<nat>, late: set<string>,
                    ids: seq<nat>, late': set<string>) returns (es': seq<Event>)
    requires IsRun(cfg, POSTGRES, es) && Coupled(rows, used, late, After(cfg, es)) && After(cfg, es).phase.Acking?
    requires ids == Ids(After(cfg, es).batch) && ids != []
    requires late' == late || late' == late + {DeleteQuery(ids)}
    ensures Around(es, es') && IsRun(cfg, POSTGRES, es') && Coupled(rows, used, late', After(cfg, es'))
    ensures var s := After(cfg, es); After(cfg, es') == s.(unresolved := s.unresolved + {ids})
  {
    var t;
    es', t := OneMore(cfg, POSTGRES, es, After(cfg, es), Send);
  }

  /** A transaction that did not return normally: rolled back, in doubt, or done. */
  lemma FailedCoupled(cfg: Config, es: seq<Event>, rows: seq<Message>, used: set<nat>, late: set<string>,
                      ids: seq<nat>, rows': seq<Message>, late': set<string>) returns (es': seq<Event>)
    requires IsRun(cfg, POSTGRES, es) && Coupled(rows, used, late, After(cfg, es)) && After(cfg, es).phase.Acking?
    requires ids == Ids(After(cfg, es).batch) && ids != []
    requires late' == late || late' == late + {DeleteQuery(ids)}
    requires rows' == rows || (rows' == Remove(rows, ids) && DeleteQuery(ids) in late')
    ensures es <= es' && IsRun(cfg, POSTGRES, es') && Released(After(cfg, es), After(cfg, es'))
    ensures Own(es') == Own(es) + [GiveUp]
    ensures Coupled(rows', used, late', After(cfg, es'))
  {
    es' := es;
    if late' != late || rows' != rows {
      es' := SentCoupled(cfg, es, rows, used, late, ids, late');
    }
    if rows' != rows {
      QueryNamesIds(ids);
      ListedIsRemove(rows, ids);
      es' := ArrivalCoupled(cfg, es', rows, used, late', DeleteQuery(ids));
    }
    var t;
    es', t := OneMore(cfg, POSTGRES, es', After(cfg, es'), GiveUp);
  }

  /** markConsumed: confirmed; or thrown, with the delete done, in doubt, or rolled back. */
  method AckTurn(cfg: Config, producer: Producer, messages: seq<Message>, ghost es: seq<Event>)
    returns (confirmed: bool, ghost es': seq<Event>)
    requires producer.Valid() && IsRun(cfg, POSTGRES, es) && TableCoupled(producer.db, After(cfg, es)) && messages != []
    requires After(cfg, es).phase.Acking? && Ids(messages) == Ids(After(cfg, es).batch)
    modifies producer`connection, producer.db, producer.journal
    ensures producer.Valid() && es <= es' && IsRun(cfg, POSTGRES, es')
    ensures producer.journal.calls == old(producer.journal.calls) + [J.MarkConsumed(Ids(messages), confirmed)]
    ensures Own(es') == Own(es) + [if confirmed then AckOk else GiveUp]
    ensures TableCoupled(producer.db, After(cfg, es')) && Released(After(cfg, es), After(cfg, es'))
  {
    ghost var rows, late := producer.db.rows, producer.db.late;
    var done;
    ghost var made, c;
    done, made, c := producer.MarkConsumed(messages);
    confirmed := done.Ok?;
    if confirmed {
      es' := ConfirmedCoupled(cfg, es, rows, producer.db.used, late);
    } else {
      es' := FailedCoupled(cfg, es, rows, producer.db.used, late, Ids(messages), producer.db.rows, producer.db.late);
    }
  }

  // --------------------------------------------------------------- the run loop

  /** At the head of the loop, objects and machine agree. */
  ghost predicate AtHead(cfg: Config, producer: Producer, consumer: C.MessageConsumer, folder: C.Folder,
                         es: seq<Event>)
    reads producer, producer.db, consumer, folder
  {
    && cfg.Valid() && cfg.fetchSize == producer.chunkSize && cfg.chunkSize == consumer.chunkSize
    && producer.Valid() && producer.journal == consumer.journal
    && IsRun(cfg, POSTGRES, es) && After(cfg, es).phase.Fetching?
    && WorldCoupled(producer.db, folder, After(cfg, es)) && ConsumerCoupled(consumer, After(cfg, es))
  }

  /** From a fetched batch to the end of its acknowledgement. */
  method Deliver(cfg: Config, producer: Producer, consumer: C.MessageConsumer, folder: C.Folder,
                 messages: seq<Message>, ghost es: seq<Event>) returns (confirmed: bool, ghost es': seq<Event>)
    requires cfg.Valid() && cfg.fetchSize == producer.chunkSize && cfg.chunkSize == consumer.chunkSize
    requires producer.Valid() && producer.journal == consumer.journal && IsRun(cfg, POSTGRES, es) && messages != []
    requires var s := After(cfg, es); s.phase.Consuming? && s.hand == s.batch == messages
    requires WorldCoupled(producer.db, folder, After(cfg, es)) && ConsumerCoupled(consumer, After(cfg, es))
    modifies producer`connection, producer.db, consumer, folder, producer.journal
    ensures es <= es' && AtHead(cfg, producer, consumer, folder, es')
    ensures producer.journal.calls == old(producer.journal.calls)
                                      + [J.Consume(messages, true), J.MarkConsumed(Ids(messages), confirmed)]
    ensures Own(es') == Own(es) + Takes(|messages|) + [if confirmed then AckOk else GiveUp]
    ensures After(cfg, es').log == After(cfg, es).log + messages
  {
    var accepted, left;
    accepted, left, es' := ConsumeBatch(cfg, POSTGRES, consumer, messages, es);
    es' := Others(cfg, producer.db, folder, consumer.spawned, es');
    if accepted {
      confirmed, es' := AckTurn(cfg, producer, left, es');
    }
  }

  /** One pass of the loop body: exactly one getNext, and if that found something one call of
      the consumer with the batch and one markConsumed of its ids, in this order; to the machine,
      a fetch, every message of the batch taken, and an acknowledgement. */
  method Turn(cfg: Config, producer: Producer, consumer: C.MessageConsumer, folder: C.Folder, ghost es: seq<Event>)
    returns (ghost pass: Pass, ghost es': seq<Event>)
    requires AtHead(cfg, producer, consumer, folder, es)
    modifies producer`connection, producer.db, consumer, folder, producer.journal
    ensures es <= es' && AtHead(cfg, producer, consumer, folder, es')
    ensures producer.journal.calls == old(producer.journal.calls) + PassCalls(pass)
    ensures Own(es') == Own(es) + PassEvents(pass)
    ensures pass.Delivered? ==> 0 < |pass.batch| <= cfg.fetchSize
    ensures Received(consumer) == old(Received(consumer)) + PassBatch(pass)
  {
    ReceivedIsLog(cfg, POSTGRES, es);
    var messages;
    messages, es' := FetchAmid(cfg, producer, folder, consumer.spawned, es);
    if messages.Throw? || messages.value == [] {
      pass := if messages.Throw? then Failed else Idle;
      assert Received(consumer) + [] == Received(consumer);
    } else {
      var confirmed;
      confirmed, es' := Deliver(cfg, producer, consumer, folder, messages.value, es');
      pass := Delivered(messages.value, confirmed);
      DeliveredPass(Own(es), old(producer.journal.calls), pass);
      ReceivedIsLog(cfg, POSTGRES, es');
    }
  }

  /** `ticks` is how many times the loop finds `run` set. Whatever the connection, other
      transactions and the savers do, what happened is a run of the machine, in which the loop
      made that many passes and the consumer received their batches in order. */
  method RunLoop(producer: Producer, consumer: C.MessageConsumer, folder: C.Folder, ticks: nat,
                 ghost start: seq<Event>) returns (ghost passes: seq<Pass>, ghost es: seq<Event>)
    requires AtHead(Config(producer.chunkSize, consumer.chunkSize), producer, consumer, folder, start)
    modifies producer`connection, producer.db, consumer, folder, producer.journal
    ensures AtHead(Config(producer.chunkSize, consumer.chunkSize), producer, consumer, folder, es) && start <= es
    ensures |passes| == ticks && Own(es) == Own(start) + AllEvents(passes)
    ensures producer.journal.calls == old(producer.journal.calls) + AllCalls(passes)
    ensures Received(consumer) == old(Received(consumer)) + AllBatches(passes)
  {
    var cfg := Config(producer.chunkSize, consumer.chunkSize);
    es, passes := start, [];
    assert Own(start) + [] == Own(start) && Received(consumer) + [] == Received(consumer);
    assert producer.journal.calls + [] == producer.journal.calls;
    for tick := 0 to ticks
      invariant start <= es && AtHead(cfg, producer, consumer, folder, es)
      invariant |passes| == tick && Own(es) == Own(start) + AllEvents(passes)
      invariant producer.journal.calls == old(producer.journal.calls) + AllCalls(passes)
      invariant Received(consumer) == old(Received(consumer)) + AllBatches(passes)
    {
      ghost var pass;
      pass, es := Turn(cfg, producer, consumer, folder, es);
      PassPush(passes, pass, Own(start), old(Received(consumer)), old(producer.journal.calls));
      passes := passes + [pass];
    }
  }

  /** The end: the destructor saves the rest. */
  method Shutdown(cfg: Config, producer: Producer, consumer: C.MessageConsumer, folder: C.Folder,
                  ghost es: seq<Event>) returns (ghost es': seq<Event>)
    requires AtHead(cfg, producer, consumer, folder, es)
    modifies folder
    ensures es <= es' && IsRun(cfg, POSTGRES, es') && After(cfg, es').phase.Stopped?
    ensures WorldCoupled(producer.db, folder, After(cfg, es'))
    ensures var s := After(cfg, es');
      && s.flushed == consumer.spawned + (if consumer.buffer == [] then [] else [consumer.buffer])
      && (consumer.buffer != [] ==> D.Finished(Jobs(s.flushed), s.disk, |consumer.spawned|))
  {
    es' := DestroyConsumer(cfg, POSTGRES, consumer, folder, es);
  }

  /** With PostgreSQL too, the consumer received everything that is no longer in the table. */
  lemma LoopKeepsAll(cfg: Config, producer: Producer, consumer: C.MessageConsumer, folder: C.Folder, es: seq<Event>)
    requires AtHead(cfg, producer, consumer, folder, es)
    ensures forall m :: m in After(cfg, es).inserted ==> m in producer.db.rows || m in Received(consumer)
  {
    RunKeepsInv(cfg, POSTGRES, es);
  }

  /** Whether it also reaches the disk depends on what this environment kept to: its run must
      be one of a world without loss. */
  lemma ShutdownKeepsAll(cfg: Config, producer: Producer, folder: C.Folder, w: World, es: seq<Event>)
    requires cfg.Valid() && IsRun(cfg, w, es) && WorldCoupled(producer.db, folder, After(cfg, es))
    requires After(cfg, es).phase.Stopped? && AllSaved(After(cfg, es))
    requires w.settled || cfg.chunkSize == 1 || (w.ascending && (w.exclusive || cfg.fetchSize == 1))
    ensures forall m :: m in After(cfg, es).inserted ==>
      m in producer.db.rows || LF.OnDisk(After(cfg, es).flushed, folder.disk, m)
  {
    Losses.StoppedMeansOnDisk(cfg, w, es);
  }
}
