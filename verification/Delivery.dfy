/** The back end as a state machine: store, run loop, consumer, saver threads, folder.

    One event is one step of one party. Front-end inserts, the opens and writes of the saver
    threads and delete commands that outlive their connection interleave with the run loop
    at will. */
module Delivery {
  import opened Messages
  import opened Chunks
  import opened FileNames
  import D = Disk

  datatype Config = Config(fetchSize: nat, chunkSize: nat) {
    predicate Valid() { fetchSize >= 1 && chunkSize >= 1 }
  }

  /** Where the run loop is: before getNext, inside the consumer's loop, before or inside
      markConsumed, or past the destructor. */
  datatype Phase = Fetching | Consuming | Acking | Stopped

  datatype State = State(
    inserted: seq<Message>,          // every message that became visible, in that order
    store: seq<Message>,             // what is visible now, lowest id first
    phase: Phase,
    batch: seq<Message>,             // what the last getNext returned
    hand: seq<Message>,              // the part of it the consumer has not moved yet
    unresolved: set<seq<nat>>,       // delete commands sent, of unknown fate
    log: seq<Message>,               // everything the consumer accepted, in order
    buffer: seq<Message>,
    flushed: seq<seq<Message>>,      // chunks, in the order their savers were spawned
    disk: D.Disk)                    // the folder, and how far each saver has got

  datatype Event =
    | Insert(m: Message)       // a row or stream entry becomes visible
    | FetchFails               // getNext throws
    | Fetch                    // getNext returns the lowest ids
    | Take                     // one iteration of the consumer's loop
    | Send                     // a delete command leaves and its connection fails
    | AckOk                    // a delete command leaves and is confirmed
    | GiveUp                   // markConsumed throws
    | Arrive(ids: seq<nat>)    // a command of unknown fate takes effect
    | Saver(e: D.SaverEvent)   // a saver thread opens its file or gets some bytes written
    | Stop                     // run is false; the destructor hands over the buffer

  const INIT := State([], [], Fetching, [], [], {}, [], [], [], D.Disk(map[], map[]))

  predicate Enabled(s: State, e: Event) {
    match e
    case Insert(m) => forall i :: 0 <= i < |s.inserted| ==> s.inserted[i].id != m.id
    case FetchFails => s.phase.Fetching?
    case Fetch => s.phase.Fetching?
    case Take => s.phase.Consuming?
    case Send => s.phase.Acking?
    case AckOk => s.phase.Acking?
    case GiveUp => s.phase.Acking?
    case Arrive(ids) => ids in s.unresolved
    case Saver(e) => D.Enabled(Jobs(s.flushed), s.disk, e)
    case Stop => s.phase.Fetching?
  }

  function Step(cfg: Config, s: State, e: Event): State {
    if !Enabled(s, e) then s else
    match e
    case Insert(m) => s.(inserted := s.inserted + [m], store := InsertById(s.store, m))
    case FetchFails => s
    case Fetch => FetchStep(cfg, s)
    case Take => TakeStep(cfg, s)
    case Send => s.(unresolved := s.unresolved + {Ids(s.batch)})
    case AckOk => Release(s).(store := Remove(s.store, Ids(s.batch)))
    case GiveUp => Release(s)
    case Arrive(ids) => s.(store := Remove(s.store, ids))
    case Saver(e) => s.(disk := D.Step(Jobs(s.flushed), s.disk, e))
    case Stop => StopStep(s)
  }

  function FetchStep(cfg: Config, s: State): State {
    var b := Front(s.store, cfg.fetchSize);
    if b == [] then s else s.(phase := Consuming, batch := b, hand := b)
  }

  function TakeStep(cfg: Config, s: State): State {
    if s.hand == [] then s else
    var m := s.hand[0];
    var (b, f) := Accept(cfg.chunkSize, s.buffer, s.flushed, m);
    s.(hand := s.hand[1..], log := s.log + [m], buffer := b, flushed := f,
       phase := if |s.hand| == 1 then Acking else Consuming)
  }

  function Release(s: State): State { s.(phase := Fetching, batch := [], hand := []) }

  function StopStep(s: State): State {
    s.(phase := Stopped, buffer := [], flushed := if s.buffer == [] then s.flushed else s.flushed + [s.buffer])
  }

  // -------------------------------------------------------------------- runs

  /** What the environment promises. `ascending`: a message becomes visible only with an
      id above all earlier ones (a Redis stream; Postgres only if commits keep id order).
      `settled`: getNext runs only when every delivered message is deleted, that is,
      every acknowledgement took effect, even those that were reported as failed.
      `exclusive`: a saver opens its file only when no other saver is still writing it. */
  datatype World = World(ascending: bool, settled: bool, exclusive: bool)

  predicate Settled(s: State) { forall i :: 0 <= i < |s.store| ==> s.store[i] !in s.log }

  /** Every saver thread spawned so far is done. */
  predicate AllSaved(s: State) { forall i :: 0 <= i < |s.flushed| ==> D.Finished(Jobs(s.flushed), s.disk, i) }

  predicate Allowed(w: World, s: State, e: Event) {
    && Enabled(s, e)
    && (w.ascending && e.Insert? ==> forall i :: 0 <= i < |s.inserted| ==> s.inserted[i].id < e.m.id)
    && (w.settled && e.Fetch? ==> Settled(s))
    && (w.exclusive && e.Saver? && e.e.Open? ==> D.Alone(Jobs(s.flushed), s.disk, e.e.i))
  }

  function After(cfg: Config, es: seq<Event>): State {
    if es == [] then INIT else Step(cfg, After(cfg, es[..|es| - 1]), es[|es| - 1])
  }

  predicate IsRun(cfg: Config, w: World, es: seq<Event>) {
    es == [] || (IsRun(cfg, w, es[..|es| - 1]) && Allowed(w, After(cfg, es[..|es| - 1]), es[|es| - 1]))
  }

  lemma RunStep(cfg: Config, w: World, es: seq<Event>, e: Event)
    ensures After(cfg, es + [e]) == Step(cfg, After(cfg, es), e)
    ensures IsRun(cfg, w, es + [e]) <==> IsRun(cfg, w, es) && Allowed(w, After(cfg, es), e)
  {
    assert (es + [e])[..|es|] == es;
  }

  /** One more event, with the states named. */
  lemma Extend(cfg: Config, w: World, es: seq<Event>, s: State, e: Event) returns (es': seq<Event>, s': State)
    requires IsRun(cfg, w, es) && After(cfg, es) == s && Allowed(w, s, e)
    ensures es' == es + [e] && s' == Step(cfg, s, e)
    ensures IsRun(cfg, w, es') && After(cfg, es') == s'
  {
    RunStep(cfg, w, es, e);
    es', s' := es + [e], Step(cfg, s, e);
  }

  // -------------------------------------------------- what every run maintains

  /** Everything delivered or about to be. */
  function Pipeline(s: State): seq<Message> { s.log + s.hand }

  ghost predicate StoreInv(s: State) {
    && Ascending(s.store)
    && IdsIdentify(s.inserted)
    && (forall m :: m in s.store ==> m in s.inserted)
    && (forall m :: m in s.log ==> m in s.inserted)
    && (forall m :: m in s.batch ==> m in s.inserted)
    && (forall m :: m in s.inserted ==> m in s.store || m in s.log)
  }

  ghost predicate CommandInv(s: State) {
    forall c, id :: c in s.unresolved && id in c ==> exists m :: m in s.log && m.id == id
  }

  ghost predicate LoopInv(s: State) {
    && (s.phase.Consuming? ==> s.hand != [])
    && (!s.phase.Consuming? ==> s.hand == [])
    && (s.phase.Consuming? || s.phase.Acking? ==> s.batch != [])
    && (s.phase.Fetching? || s.phase.Stopped? ==> s.batch == [])
    && (forall m :: m in s.hand ==> m in s.batch)
    && (forall m :: m in s.batch ==> m in Pipeline(s))
  }

  ghost predicate ChunkInv(cfg: Config, s: State) {
    && Concat(s.flushed) + s.buffer == s.log
    && (!s.phase.Stopped? ==> Filled(cfg.chunkSize, s.buffer, s.flushed))
    && (s.phase.Stopped? ==> s.buffer == [])
    && (forall i :: 0 <= i < |s.flushed| ==> s.flushed[i] != [])
  }

  /** What holds of the folder under every schedule of the savers. */
  ghost predicate FolderKept(jobs: seq<D.Job>, d: D.Disk) {
    D.Kept(jobs, d) && forall n :: n in d.files ==> D.Touched(jobs, d, n)
  }

  ghost predicate FolderInv(s: State) { FolderKept(Jobs(s.flushed), s.disk) }

  ghost predicate Inv(cfg: Config, s: State) {
    StoreInv(s) && CommandInv(s) && LoopInv(s) && ChunkInv(cfg, s) && FolderInv(s)
  }

  lemma InsertKeepsStore(s: State, m: Message)
    requires StoreInv(s) && forall i :: 0 <= i < |s.inserted| ==> s.inserted[i].id != m.id
    ensures StoreInv(s.(inserted := s.inserted + [m], store := InsertById(s.store, m)))
  {
    InsertByIdContents(s.store, m);
    assert forall x :: x in s.inserted ==> x.id != m.id;
    InsertByIdAscending(s.store, m);
  }

  lemma StepKeepsStore(cfg: Config, s: State, e: Event)
    requires Inv(cfg, s) && Enabled(s, e)
    ensures StoreInv(Step(cfg, s, e))
  {
    match e
    case Insert(m) => InsertKeepsStore(s, m);
    case Fetch =>
    case AckOk =>
      BatchIsDelivered(s);
      DeleteKeepsStore(s, Ids(s.batch));
    case Arrive(ids) => DeleteKeepsStore(s, ids);
    case _ =>
  }

  lemma BatchIsDelivered(s: State)
    requires LoopInv(s) && s.phase.Acking?
    ensures forall id :: id in Ids(s.batch) ==> exists m :: m in s.log && m.id == id
  {
    var ids := Ids(s.batch);
    forall id | id in ids ensures exists m :: m in s.log && m.id == id {
      var i :| 0 <= i < |ids| && ids[i] == id;
      assert s.batch[i] in Pipeline(s);
    }
  }

  /** Deleting what the log names leaves nothing outside store and log. */
  lemma DeleteKeepsStore(s: State, ids: seq<nat>)
    requires StoreInv(s)
    requires forall id :: id in ids ==> exists m :: m in s.log && m.id == id
    ensures Ascending(Remove(s.store, ids))
    ensures forall m :: m in Remove(s.store, ids) ==> m in s.inserted
    ensures forall m :: m in s.inserted ==> m in Remove(s.store, ids) || m in s.log
  {
    RemoveAscending(s.store, ids);
    RemoveContents(s.store, ids);
  }

  lemma TakeKeepsLoop(cfg: Config, s: State)
    requires LoopInv(s) && CommandInv(s) && s.phase.Consuming?
    ensures LoopInv(TakeStep(cfg, s)) && CommandInv(TakeStep(cfg, s))
  {
    var s' := TakeStep(cfg, s);
    assert s.hand == [s.hand[0]] + s.hand[1..];
    assert Pipeline(s') == Pipeline(s);
    assert forall m :: m in s.log ==> m in s'.log;
  }

  lemma FetchKeepsLoop(cfg: Config, s: State)
    requires LoopInv(s) && s.phase.Fetching?
    ensures LoopInv(FetchStep(cfg, s))
  {
    var s' := FetchStep(cfg, s);
    assert forall m :: m in s'.hand ==> m in Pipeline(s');
  }

  lemma StepKeepsLoop(cfg: Config, s: State, e: Event)
    requires LoopInv(s) && CommandInv(s) && Enabled(s, e)
    ensures LoopInv(Step(cfg, s, e)) && CommandInv(Step(cfg, s, e))
  {
    match e
    case Take => TakeKeepsLoop(cfg, s);
    case Fetch => FetchKeepsLoop(cfg, s);
    case Send => BatchIsDelivered(s);
    case _ =>
  }

  lemma TakeKeepsChunks(cfg: Config, s: State)
    requires cfg.Valid() && ChunkInv(cfg, s) && s.phase.Consuming? && s.hand != []
    ensures ChunkInv(cfg, TakeStep(cfg, s))
  {
    AcceptKeeps(cfg.chunkSize, s.buffer, s.flushed, s.hand[0]);
  }

  lemma StopKeepsChunks(cfg: Config, s: State)
    requires ChunkInv(cfg, s)
    ensures ChunkInv(cfg, StopStep(s))
  {
    ConcatPush(s.flushed, s.buffer);
    assert Concat(s.flushed) + [] == Concat(s.flushed);
    assert Concat(s.flushed) + s.buffer + [] == Concat(s.flushed) + s.buffer;
  }

  lemma StepKeepsChunks(cfg: Config, s: State, e: Event)
    requires cfg.Valid() && ChunkInv(cfg, s) && LoopInv(s) && Enabled(s, e)
    ensures ChunkInv(cfg, Step(cfg, s, e))
  {
    match e
    case Take => TakeKeepsChunks(cfg, s);
    case Stop => StopKeepsChunks(cfg, s);
    case _ =>
  }

  /** Chunks are only ever appended, and no other step touches the folder. */
  lemma OnlySaversWrite(cfg: Config, s: State, e: Event)
    requires !e.Saver?
    ensures var s' := Step(cfg, s, e); s'.disk == s.disk && s.flushed <= s'.flushed
  {}

  lemma SpawnsKeepFolder(jobs: seq<D.Job>, jobs': seq<D.Job>, d: D.Disk)
    requires jobs <= jobs' && FolderKept(jobs, d)
    ensures FolderKept(jobs', d)
  {
    D.SpawnKeepsFiles(jobs, jobs', d);
    forall n | n in d.files ensures D.Touched(jobs', d, n) {
      D.TouchedAfterSpawn(jobs, jobs', d, n);
    }
  }

  lemma FolderSurvivesSpawns(s: State, s': State)
    requires FolderInv(s) && s'.disk == s.disk && s.flushed <= s'.flushed
    ensures FolderInv(s')
  {
    JobsPrefix(s.flushed, s'.flushed);
    SpawnsKeepFolder(Jobs(s.flushed), Jobs(s'.flushed), s.disk);
  }

  lemma SaverKeepsFolder(jobs: seq<D.Job>, d: D.Disk, e: D.SaverEvent)
    requires D.Enabled(jobs, d, e) && FolderKept(jobs, d)
    ensures FolderKept(jobs, D.Step(jobs, d, e))
  {
    var d' := D.Step(jobs, d, e);
    D.StepKeepsFiles(jobs, d, e);
    forall n | n in d'.files ensures D.Touched(jobs, d', n) {
      if n == jobs[e.i].name {
        assert e.i in d'.offsets;
      } else {
        assert D.Touched(jobs, d, n);
        var i: nat :| i < |jobs| && i in d.offsets && jobs[i].name == n;
        assert i in d'.offsets;
      }
    }
  }

  lemma StepKeepsFolder(cfg: Config, s: State, e: Event)
    requires FolderInv(s) && Enabled(s, e)
    ensures FolderInv(Step(cfg, s, e))
  {
    if e.Saver? {
      SaverKeepsFolder(Jobs(s.flushed), s.disk, e.e);
    } else {
      OnlySaversWrite(cfg, s, e);
      FolderSurvivesSpawns(s, Step(cfg, s, e));
    }
  }

  lemma {:induction false} RunKeepsInv(cfg: Config, w: World, es: seq<Event>)
    requires cfg.Valid() && IsRun(cfg, w, es)
    ensures Inv(cfg, After(cfg, es))
  {
    if es != [] {
      var s, e := After(cfg, es[..|es| - 1]), es[|es| - 1];
      RunKeepsInv(cfg, w, es[..|es| - 1]);
      StepKeepsStore(cfg, s, e);
      StepKeepsLoop(cfg, s, e);
      StepKeepsChunks(cfg, s, e);
      StepKeepsFolder(cfg, s, e);
    }
  }

  // ------------------------------------------------ results that need no promise

  /** Whatever fails, and in whatever order ids appear: nothing leaves the store unless
      the consumer accepted it, and the consumer accepts only what was inserted. */
  lemma DeletedWasDelivered(cfg: Config, w: World, es: seq<Event>)
    requires cfg.Valid() && IsRun(cfg, w, es)
    ensures var s := After(cfg, es);
      && (forall m :: m in s.inserted && m !in s.store ==> m in s.log)
      && (forall m :: m in s.log ==> m in s.inserted)
  {
    RunKeepsInv(cfg, w, es);
  }

  /** The chunks and the buffer are the log cut every `chunkSize` messages; once stopped,
      nothing is outside a chunk. */
  lemma ChunksCutTheLog(cfg: Config, w: World, es: seq<Event>)
    requires cfg.Valid() && IsRun(cfg, w, es)
    ensures var s := After(cfg, es);
      && Concat(s.flushed) + s.buffer == s.log
      && (s.phase.Stopped? ==> Concat(s.flushed) == s.log)
      && (!s.phase.Stopped? ==>
            && |s.buffer| == |s.log| % cfg.chunkSize
            && |s.flushed| == |s.log| / cfg.chunkSize
            && forall i :: 0 <= i < |s.flushed| ==> |s.flushed[i]| == cfg.chunkSize)
  {
    RunKeepsInv(cfg, w, es);
    var s := After(cfg, es);
    if s.phase.Stopped? {
      assert Concat(s.flushed) + [] == Concat(s.flushed);
    } else {
      FilledCounts(cfg.chunkSize, s.buffer, s.flushed);
    }
  }

  // ------------------------------------------------------------ consumer's loop

  function Takes(n: nat): seq<Event> { if n == 0 then [] else Takes(n - 1) + [Take] }

  /** The state after `n` passes of the consumer's loop. */
  function Taken(cfg: Config, s: State, n: nat): State
    requires n <= |s.hand|
  {
    var (b, f) := AcceptAll(cfg.chunkSize, s.buffer, s.flushed, s.hand[..n]);
    s.(hand := s.hand[n..], log := s.log + s.hand[..n], buffer := b, flushed := f,
       phase := if n == |s.hand| then Acking else Consuming)
  }

  lemma TakeOneMore(cfg: Config, w: World, s: State, n: nat)
    requires n < |s.hand|
    ensures Allowed(w, Taken(cfg, s, n), Take)
    ensures Step(cfg, Taken(cfg, s, n), Take) == Taken(cfg, s, n + 1)
  {
    var h := s.hand[..n + 1];
    assert h[..n] == s.hand[..n];
    assert s.log + h == (s.log + s.hand[..n]) + [s.hand[n]];
    assert s.hand[n..][1..] == s.hand[n + 1..];
  }

  lemma TakeNone(cfg: Config, s: State)
    requires s.phase.Consuming? && s.hand != []
    ensures Taken(cfg, s, 0) == s
  {
    assert s.hand[..0] == [] && s.hand[0..] == s.hand && s.log + [] == s.log;
  }

  ghost predicate LeadsTo(cfg: Config, w: World, es: seq<Event>, s: State) {
    IsRun(cfg, w, es) && After(cfg, es) == s
  }

  lemma NoTake(cfg: Config, w: World, es: seq<Event>, s: State)
    requires LeadsTo(cfg, w, es, s) && s.phase.Consuming? && s.hand != []
    ensures LeadsTo(cfg, w, es + Takes(0), Taken(cfg, s, 0))
  {
    assert es + Takes(0) == es;
    TakeNone(cfg, s);
  }

  lemma LeadsOn(cfg: Config, w: World, es: seq<Event>, s: State, e: Event)
    requires LeadsTo(cfg, w, es, s) && Allowed(w, s, e)
    ensures LeadsTo(cfg, w, es + [e], Step(cfg, s, e))
  {
    RunStep(cfg, w, es, e);
  }

  lemma OneMoreTake(cfg: Config, w: World, es: seq<Event>, s: State, n: nat)
    requires n < |s.hand| && LeadsTo(cfg, w, es + Takes(n), Taken(cfg, s, n))
    ensures LeadsTo(cfg, w, es + Takes(n + 1), Taken(cfg, s, n + 1))
  {
    TakeOneMore(cfg, w, s, n);
    LeadsOn(cfg, w, es + Takes(n), Taken(cfg, s, n), Take);
    assert es + Takes(n + 1) == es + Takes(n) + [Take];
  }

  lemma TakesAll(cfg: Config, w: World, es: seq<Event>, s: State, n: nat)
    requires LeadsTo(cfg, w, es, s) && s.phase.Consuming? && n <= |s.hand| && s.hand != []
    ensures LeadsTo(cfg, w, es + Takes(n), Taken(cfg, s, n))
  {
    NoTake(cfg, w, es, s);
    for i := 0 to n
      invariant LeadsTo(cfg, w, es + Takes(i), Taken(cfg, s, i))
    {
      OneMoreTake(cfg, w, es, s, i);
    }
  }

  // --------------------------------------------------------------------- savers

  function AsEvents(vs: seq<D.SaverEvent>): seq<Event> {
    if vs == [] then [] else AsEvents(vs[..|vs| - 1]) + [Saver(vs[|vs| - 1])]
  }

  lemma {:induction false} RunSavers(cfg: Config, w: World, es: seq<Event>, s: State, vs: seq<D.SaverEvent>)
    returns (es': seq<Event>, s': State)
    requires IsRun(cfg, w, es) && After(cfg, es) == s && D.AllEnabled(Jobs(s.flushed), s.disk, vs)
    requires w.exclusive ==> D.AllAlone(Jobs(s.flushed), s.disk, vs)
    ensures es' == es + AsEvents(vs) && IsRun(cfg, w, es') && After(cfg, es') == s'
    ensures s' == s.(disk := D.RunAll(Jobs(s.flushed), s.disk, vs))
  {
    if vs == [] {
      es', s' := es, s;
      assert es + [] == es;
    } else {
      es', s' := RunSavers(cfg, w, es, s, vs[..|vs| - 1]);
      es', s' := Extend(cfg, w, es', s', Saver(vs[|vs| - 1]));
    }
  }
}
