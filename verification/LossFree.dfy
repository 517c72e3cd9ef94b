/** What was deleted from the store is never lost, and what that takes.

    Redelivered chunks can reuse the name of an older file, deletes can take effect although
    they were reported as failed, and savers open and write in any order. Three arguments
    cover all cases: chunks that share a name share the bytes of a message at one place;
    they at least share the message, and savers of one file do not overlap; or no two
    chunks share a name. */
module LossFree {
  import opened Text
  import opened Messages
  import opened Chunks
  import opened FileNames
  import opened Delivery
  import opened Replay
  import D = Disk

  /** The file of chunk `i` has the line of its message `k`, which is `m`, where it belongs. */
  ghost predicate AtItsPlace(chunks: seq<seq<Message>>, d: D.Disk, m: Message, i: nat, k: nat) {
    && i < |chunks| && k < |chunks[i]| && chunks[i][k] == m
    && ChunkName(chunks[i]) in d.files && HoldsAt(d.files[ChunkName(chunks[i])], m.data + ['\n'], Place(chunks[i], k))
  }

  ghost predicate OnDisk(chunks: seq<seq<Message>>, d: D.Disk, m: Message) {
    exists i: nat, k: nat :: AtItsPlace(chunks, d, m, i, k)
  }

  /** A saver that is not done has the message in its chunk. */
  ghost predicate BeingSaved(s: State, m: Message) {
    exists i: nat :: i < |s.flushed| && m in s.flushed[i] && !D.Finished(Jobs(s.flushed), s.disk, i)
  }

  /** In memory on its way to a file, or in a file, at its own place. */
  ghost predicate Safe(s: State, m: Message) {
    m in s.hand || m in s.buffer || BeingSaved(s, m) || OnDisk(s.flushed, s.disk, m)
  }

  ghost predicate NoLoss(s: State) {
    forall m :: m in s.inserted && m !in s.store ==> Safe(s, m)
  }

  // --------------------------------------------------------- ascending worlds

  function Commands(s: State): set<seq<nat>> {
    if s.batch == [] then s.unresolved else s.unresolved + {Ids(s.batch)}
  }

  ghost predicate OrderedState(cfg: Config, s: State) {
    Ordered(s.inserted, s.store, Pipeline(s), Commands(s), cfg.fetchSize)
  }

  lemma InsertKeepsOrder(cfg: Config, s: State, m: Message)
    requires OrderedState(cfg, s) && forall x :: x in s.inserted ==> x.id < m.id
    ensures OrderedState(cfg, Step(cfg, s, Insert(m)))
  {
    InsertKeepsOrdered(s.inserted, s.store, Pipeline(s), Commands(s), cfg.fetchSize, m);
    InsertByIdLast(s.store, m);
    assert Enabled(s, Insert(m));
  }

  lemma FetchKeepsOrder(cfg: Config, s: State)
    requires OrderedState(cfg, s) && LoopInv(s) && s.phase.Fetching?
    ensures OrderedState(cfg, FetchStep(cfg, s))
  {
    var n := if cfg.fetchSize < |s.store| then cfg.fetchSize else |s.store|;
    var b := Front(s.store, cfg.fetchSize);
    assert b == s.store[..n] && Pipeline(s) == s.log;
    FetchKeepsOrdered(s.inserted, s.store, s.log, Commands(s), cfg.fetchSize, n);
  }

  lemma DeleteKeepsOrder(cfg: Config, s: State, ids: seq<nat>)
    requires OrderedState(cfg, s) && ids in Commands(s)
    ensures OrderedState(cfg, s.(store := Remove(s.store, ids)))
  {
    DeleteKeepsOrdered(s.inserted, s.store, Pipeline(s), Commands(s), cfg.fetchSize, ids);
  }

  /** Neither the consumer nor a saver nor a finished call changes what order depends on. */
  lemma SameOrder(cfg: Config, s: State, s': State)
    requires OrderedState(cfg, s)
    requires s'.inserted == s.inserted && s'.store == s.store
    requires Pipeline(s') == Pipeline(s) && Commands(s') <= Commands(s)
    ensures OrderedState(cfg, s')
  {}

  lemma ReleaseKeepsPipeline(s: State)
    requires LoopInv(s) && s.phase.Acking?
    ensures Pipeline(Release(s)) == Pipeline(s) && Commands(Release(s)) <= Commands(s)
  {}

  /** Only a fetch feeds the pipeline. */
  lemma OtherStepsKeepPipeline(cfg: Config, s: State, e: Event)
    requires LoopInv(s) && Enabled(s, e) && !e.Fetch?
    ensures Pipeline(Step(cfg, s, e)) == Pipeline(s)
    ensures s.inserted <= Step(cfg, s, e).inserted
  {
    if s.phase.Acking? { ReleaseKeepsPipeline(s); }
  }

  lemma AckKeepsOrder(cfg: Config, s: State)
    requires OrderedState(cfg, s) && LoopInv(s) && s.phase.Acking?
    ensures OrderedState(cfg, Step(cfg, s, AckOk))
  {
    DeleteKeepsOrder(cfg, s, Ids(s.batch));
    var t := s.(store := Remove(s.store, Ids(s.batch)));
    ReleaseKeepsPipeline(t);
    SameOrder(cfg, t, Release(t));
  }

  lemma OtherStepsKeepOrder(cfg: Config, s: State, e: Event)
    requires OrderedState(cfg, s) && LoopInv(s) && Enabled(s, e)
    requires !e.Insert? && !e.Fetch? && !e.AckOk? && !e.Arrive?
    ensures OrderedState(cfg, Step(cfg, s, e))
  {
    var s' := Step(cfg, s, e);
    OtherStepsKeepPipeline(cfg, s, e);
    assert s'.inserted == s.inserted && s'.store == s.store && Commands(s') <= Commands(s);
    SameOrder(cfg, s, s');
  }

  lemma StepKeepsOrder(cfg: Config, w: World, s: State, e: Event)
    requires w.ascending && LoopInv(s) && OrderedState(cfg, s) && Allowed(w, s, e)
    ensures OrderedState(cfg, Step(cfg, s, e))
  {
    match e
    case Insert(m) => InsertKeepsOrder(cfg, s, m);
    case Fetch => FetchKeepsOrder(cfg, s);
    case AckOk => AckKeepsOrder(cfg, s);
    case Arrive(ids) => DeleteKeepsOrder(cfg, s, ids);
    case _ => OtherStepsKeepOrder(cfg, s, e);
  }

  lemma {:induction false} RunKeepsOrder(cfg: Config, w: World, es: seq<Event>)
    requires cfg.Valid() && w.ascending && IsRun(cfg, w, es)
    ensures OrderedState(cfg, After(cfg, es))
  {
    if es != [] {
      var t, e := es[..|es| - 1], es[|es| - 1];
      RunKeepsInv(cfg, w, t);
      RunKeepsOrder(cfg, w, t);
      StepKeepsOrder(cfg, w, After(cfg, t), e);
    }
  }

  /** Chunk `i` as a stretch of everything delivered. */
  lemma ChunkInPipeline(cfg: Config, s: State, i: nat, k: nat)
    requires ChunkInv(cfg, s) && i < |s.flushed| && k < |s.flushed[i]|
    ensures Offset(s.flushed, i) + k < Offset(s.flushed, i + 1) <= |s.log|
    ensures Pipeline(s)[Offset(s.flushed, i) + k] == s.flushed[i][k]
  {
    ChunkInLog(s.flushed, i, k);
    assert s.log[..|Concat(s.flushed)|] == Concat(s.flushed);
  }

  lemma LaterChunkIsNewer(cfg: Config, s: State, x: Message, p: nat, j: nat, i: nat)
    requires ChunkInv(cfg, s) && j < i < |s.flushed|
    requires LastAt(Pipeline(s), x, p) && p < Offset(s.flushed, j + 1)
    ensures forall m :: m in s.flushed[i] ==> x.id < m.id
  {
    forall m | m in s.flushed[i] ensures x.id < m.id {
      var k :| 0 <= k < |s.flushed[i]| && s.flushed[i][k] == m;
      ChunkInPipeline(cfg, s, i, k);
      OffsetMonotone(s.flushed, j + 1, i);
    }
  }

  lemma LaterChunkStartsAbove(cfg: Config, s: State, x: Message, j: nat, k: nat, i: nat)
    requires ChunkInv(cfg, s) && j < i < |s.flushed|
    requires k < |s.flushed[j]| && s.flushed[j][k] == x
    requires LastAt(Pipeline(s), x, Offset(s.flushed, j) + k)
    ensures MinId(s.flushed[j]) < MinId(s.flushed[i])
  {
    ChunkInPipeline(cfg, s, j, k);
    LaterChunkIsNewer(cfg, s, x, Offset(s.flushed, j) + k, j, i);
    assert x in s.flushed[j];
  }

  /** An earlier chunk that ends above `x`, although `x` is delivered later, either holds
      `x` or only messages from `x` on. */
  lemma EarlierChunkPassed(cfg: Config, s: State, x: Message, i: nat)
    requires ChunkInv(cfg, s) && i < |s.flushed| && s.flushed[i] != []
    requires Offset(s.flushed, i) + |s.flushed[i]| <= |Pipeline(s)|
    requires Passed(Pipeline(s), x, Offset(s.flushed, i) + |s.flushed[i]| - 1)
    ensures x in s.flushed[i] || forall m :: m in s.flushed[i] ==> x.id <= m.id
  {
    var L, off, end := Pipeline(s), Offset(s.flushed, i), Offset(s.flushed, i) + |s.flushed[i]| - 1;
    var q :| 0 <= q <= end && L[q] == x && forall t :: q <= t <= end ==> x.id <= L[t].id;
    if q >= off {
      ChunkInPipeline(cfg, s, i, q - off);
    } else {
      forall m | m in s.flushed[i] ensures x.id <= m.id {
        var k :| 0 <= k < |s.flushed[i]| && s.flushed[i][k] == m;
        ChunkInPipeline(cfg, s, i, k);
      }
    }
  }

  lemma ChunkIsInserted(cfg: Config, s: State, i: nat)
    requires Inv(cfg, s) && i < |s.flushed|
    ensures forall m :: m in s.flushed[i] ==> m in s.inserted
  {
    forall m | m in s.flushed[i] ensures m in s.inserted {
      var k :| 0 <= k < |s.flushed[i]| && s.flushed[i][k] == m;
      ChunkInPipeline(cfg, s, i, k);
      assert s.log[Offset(s.flushed, i) + k] == m;
    }
  }

  ghost predicate SameIdSame(a: seq<Message>, b: seq<Message>) {
    forall m, n :: m in a && n in b && m.id == n.id ==> m == n
  }

  lemma ChunksIdentify(cfg: Config, s: State, i: nat, j: nat)
    requires Inv(cfg, s) && i < |s.flushed| && j < |s.flushed|
    ensures SameIdSame(s.flushed[i], s.flushed[j])
  {
    ChunkIsInserted(cfg, s, i);
    ChunkIsInserted(cfg, s, j);
  }

  lemma EarlierChunkEnds(cfg: Config, s: State, x: Message, j: nat, k: nat, i: nat)
    requires ChunkInv(cfg, s)
    requires i < j < |s.flushed| && k + 1 < |s.flushed[j]| && s.flushed[j][k] == x
    requires LastAt(Pipeline(s), x, Offset(s.flushed, j) + k)
    requires s.flushed[i] != [] && LastId(s.flushed[i]) == LastId(s.flushed[j])
    ensures var end, p := Offset(s.flushed, i) + |s.flushed[i]| - 1, Offset(s.flushed, j) + k;
      end < p < |Pipeline(s)| && Pipeline(s)[p] == x && x.id < Pipeline(s)[end].id
  {
    var a, b := s.flushed[i], s.flushed[j];
    ChunkInPipeline(cfg, s, i, |a| - 1);
    ChunkInPipeline(cfg, s, j, k);
    ChunkInPipeline(cfg, s, j, |b| - 1);
    OffsetMonotone(s.flushed, i + 1, j);
  }

  /** An earlier chunk that ends with the id a later chunk ends with has passed through
      everything that is delivered for the last time in the later one. */
  lemma EarlierChunkMeets(cfg: Config, s: State, x: Message, j: nat, k: nat, i: nat)
    requires ChunkInv(cfg, s) && StepsBackAreReplays(Pipeline(s))
    requires i < j < |s.flushed| && k + 1 < |s.flushed[j]| && s.flushed[j][k] == x
    requires LastAt(Pipeline(s), x, Offset(s.flushed, j) + k)
    requires s.flushed[i] != [] && LastId(s.flushed[i]) == LastId(s.flushed[j])
    ensures x in s.flushed[i] || forall m :: m in s.flushed[i] ==> x.id <= m.id
  {
    EarlierChunkEnds(cfg, s, x, j, k, i);
    EarlierChunkPassed(cfg, s, x, i);
  }

  lemma EarlierSameName(cfg: Config, s: State, x: Message, j: nat, k: nat, i: nat)
    requires ChunkInv(cfg, s) && StepsBackAreReplays(Pipeline(s))
    requires i < j < |s.flushed| && k < |s.flushed[j]| && s.flushed[j][k] == x
    requires LastAt(Pipeline(s), x, Offset(s.flushed, j) + k)
    requires SameIdSame(s.flushed[i], s.flushed[j])
    requires s.flushed[i] != [] && ChunkName(s.flushed[i]) == ChunkName(s.flushed[j])
    ensures x in s.flushed[i]
  {
    var a, b := s.flushed[i], s.flushed[j];
    EqualNames(a, b);
    assert x in b;
    if k == |b| - 1 {
      assert a[|a| - 1] in a && a[|a| - 1].id == x.id;
    } else {
      EarlierChunkMeets(cfg, s, x, j, k, i);
      var least :| least in a && least.id == MinId(a);
      assert x in a || least == x;
    }
  }

  /** The heart of it: if `x` was last delivered in chunk `j`, every chunk that shares the
      name of `j`, earlier or later, holds `x` too. So whichever was written last does. */
  lemma SameNameHolds(cfg: Config, s: State, x: Message, j: nat, k: nat, i: nat)
    requires ChunkInv(cfg, s) && StepsBackAreReplays(Pipeline(s))
    requires j < |s.flushed| && k < |s.flushed[j]| && s.flushed[j][k] == x
    requires LastAt(Pipeline(s), x, Offset(s.flushed, j) + k)
    requires i < |s.flushed| && SameIdSame(s.flushed[i], s.flushed[j])
    requires s.flushed[i] != [] && ChunkName(s.flushed[i]) == ChunkName(s.flushed[j])
    ensures x in s.flushed[i]
  {
    if i > j {
      EqualNames(s.flushed[i], s.flushed[j]);
      LaterChunkStartsAbove(cfg, s, x, j, k, i);
    } else if i < j {
      EarlierSameName(cfg, s, x, j, k, i);
    }
  }

  ghost predicate ChunkIdsIdentify(s: State) {
    forall i, j :: 0 <= i < |s.flushed| && 0 <= j < |s.flushed| ==> SameIdSame(s.flushed[i], s.flushed[j])
  }

  // ------------------------------------------------------- from chunks to files

  ghost predicate NoEmptyChunk(s: State) {
    forall i :: 0 <= i < |s.flushed| ==> s.flushed[i] != []
  }

  predicate Namesakes(s: State, i: nat, j: nat) {
    && i < |s.flushed| && j < |s.flushed| && s.flushed[i] != [] && s.flushed[j] != []
    && ChunkName(s.flushed[i]) == ChunkName(s.flushed[j])
  }

  lemma JobHasBytes(s: State, j: nat)
    requires j < |s.flushed| && s.flushed[j] != []
    ensures Jobs(s.flushed)[j] == D.Job(ChunkName(s.flushed[j]), FileBytes(s.flushed[j]))
    ensures FileBytes(s.flushed[j]) != []
  {}

  lemma NamesakeBytes(s: State, j: nat, part: string, p: nat)
    requires NoEmptyChunk(s) && j < |s.flushed|
    requires forall i :: 0 <= i < |s.flushed| && Namesakes(s, i, j) ==> HoldsAt(FileBytes(s.flushed[i]), part, p)
    ensures var jobs := Jobs(s.flushed);
      forall i :: 0 <= i < |jobs| && jobs[i].name == ChunkName(s.flushed[j]) ==> HoldsAt(jobs[i].bytes, part, p)
  {
    var jobs := Jobs(s.flushed);
    forall i | 0 <= i < |jobs| && jobs[i].name == ChunkName(s.flushed[j]) ensures HoldsAt(jobs[i].bytes, part, p) {
      JobHasBytes(s, i);
      assert Namesakes(s, i, j);
    }
  }

  /** If every chunk of this name has the line of `x` at one place, its place in chunk `j`,
      then so has the file, however the savers overlap. */
  lemma AlignedIsSafe(s: State, x: Message, j: nat, k: nat)
    requires FolderInv(s) && NoEmptyChunk(s) && j < |s.flushed| && k < |s.flushed[j]| && s.flushed[j][k] == x
    requires forall i :: 0 <= i < |s.flushed| && Namesakes(s, i, j) ==>
      x in s.flushed[i] && HoldsAt(FileBytes(s.flushed[i]), Line(x), Place(s.flushed[j], k))
    ensures Safe(s, x)
  {
    var jobs, d, n := Jobs(s.flushed), s.disk, ChunkName(s.flushed[j]);
    JobHasBytes(s, j);
    if D.Finished(jobs, d, j) {
      var i := D.Witness(jobs, d, j);
      assert Namesakes(s, i, j);
      if D.Finished(jobs, d, i) {
        NamesakeBytes(s, j, Line(x), Place(s.flushed[j], k));
        D.SharedPartStays(jobs, d, n, i, Line(x), Place(s.flushed[j], k));
        assert AtItsPlace(s.flushed, d, x, j, k);
      }
    }
  }

  lemma WholeChunkOnDisk(chunks: seq<seq<Message>>, d: D.Disk, i: nat, x: Message)
    requires i < |chunks| && x in chunks[i]
    requires ChunkName(chunks[i]) in d.files && d.files[ChunkName(chunks[i])] == FileBytes(chunks[i])
    ensures OnDisk(chunks, d, x)
  {
    var k :| 0 <= k < |chunks[i]| && chunks[i][k] == x;
    FileHoldsPayload(chunks[i], k);
    assert AtItsPlace(chunks, d, x, i, k);
  }

  /** If every chunk of this name has `x` somewhere, then so has the file, as long as its
      savers did not overlap. */
  lemma SharedIsSafe(s: State, x: Message, j: nat)
    requires FolderInv(s) && NoEmptyChunk(s) && D.Owned(Jobs(s.flushed), s.disk)
    requires j < |s.flushed| && x in s.flushed[j]
    requires forall i :: 0 <= i < |s.flushed| && Namesakes(s, i, j) ==> x in s.flushed[i]
    ensures Safe(s, x)
  {
    var jobs, d := Jobs(s.flushed), s.disk;
    JobHasBytes(s, j);
    if D.Finished(jobs, d, j) {
      var i := D.Owner(jobs, d, j);
      JobHasBytes(s, i);
      assert Namesakes(s, i, j);
      if D.Finished(jobs, d, i) {
        WholeChunkOnDisk(s.flushed, d, i, x);
      }
    }
  }

  lemma {:induction false} RunKeepsOwned(cfg: Config, w: World, es: seq<Event>)
    requires cfg.Valid() && w.exclusive && IsRun(cfg, w, es)
    ensures D.Owned(Jobs(After(cfg, es).flushed), After(cfg, es).disk)
  {
    if es != [] {
      var t, e := es[..|es| - 1], es[|es| - 1];
      var s := After(cfg, t);
      RunKeepsInv(cfg, w, t);
      RunKeepsOwned(cfg, w, t);
      if e.Saver? {
        D.StepKeepsOwned(Jobs(s.flushed), s.disk, e.e);
      } else {
        OnlySaversWrite(cfg, s, e);
        JobsPrefix(s.flushed, Step(cfg, s, e).flushed);
        D.SpawnKeepsOwned(Jobs(s.flushed), Jobs(Step(cfg, s, e).flushed), s.disk);
      }
    }
  }

  // ------------------------------------------ ascending worlds, savers apart

  lemma ChunkedIsSafe(cfg: Config, s: State, x: Message, j: nat, k: nat)
    requires ChunkInv(cfg, s) && FolderInv(s) && D.Owned(Jobs(s.flushed), s.disk)
    requires ChunkIdsIdentify(s) && StepsBackAreReplays(Pipeline(s))
    requires j < |s.flushed| && k < |s.flushed[j]| && s.flushed[j][k] == x
    requires LastAt(Pipeline(s), x, Offset(s.flushed, j) + k)
    ensures Safe(s, x)
  {
    forall i | 0 <= i < |s.flushed| && Namesakes(s, i, j) ensures x in s.flushed[i] {
      SameNameHolds(cfg, s, x, j, k, i);
    }
    SharedIsSafe(s, x, j);
  }

  /** What was last delivered after all chunks is still in memory. */
  lemma StillInMemory(cfg: Config, s: State, x: Message, p: nat)
    requires ChunkInv(cfg, s) && |Concat(s.flushed)| <= p < |Pipeline(s)| && Pipeline(s)[p] == x
    ensures x in s.hand || x in s.buffer
  {
    if p >= |s.log| {
      assert s.hand[p - |s.log|] == x;
    } else {
      assert s.buffer[p - |Concat(s.flushed)|] == x;
    }
  }

  lemma LastDeliveryIsSafe(cfg: Config, s: State, x: Message, p: nat)
    requires ChunkInv(cfg, s) && FolderInv(s) && D.Owned(Jobs(s.flushed), s.disk)
    requires ChunkIdsIdentify(s) && StepsBackAreReplays(Pipeline(s))
    requires LastAt(Pipeline(s), x, p)
    ensures Safe(s, x)
  {
    if p >= |Concat(s.flushed)| {
      StillInMemory(cfg, s, x, p);
    } else {
      var j, k := ChunkOf(s.flushed, p);
      ChunkInPipeline(cfg, s, j, k);
      ChunkedIsSafe(cfg, s, x, j, k);
    }
  }

  lemma AllChunksIdentify(cfg: Config, s: State)
    requires Inv(cfg, s)
    ensures ChunkIdsIdentify(s)
  {
    forall i, j | 0 <= i < |s.flushed| && 0 <= j < |s.flushed|
      ensures SameIdSame(s.flushed[i], s.flushed[j])
    {
      ChunksIdentify(cfg, s, i, j);
    }
  }

  /** Ids that grow with every insert make the pipeline loss-free whatever happens to the
      acknowledgements and in whatever order the savers run, as long as savers of one file
      run one after the other. */
  lemma AscendingIsLossFree(cfg: Config, w: World, es: seq<Event>)
    requires cfg.Valid() && w.ascending && w.exclusive && IsRun(cfg, w, es)
    ensures NoLoss(After(cfg, es))
  {
    RunKeepsInv(cfg, w, es);
    RunKeepsOrder(cfg, w, es);
    RunKeepsOwned(cfg, w, es);
    var s := After(cfg, es);
    AllChunksIdentify(cfg, s);
    forall x | x in s.inserted && x !in s.store ensures Safe(s, x) {
      assert x in Pipeline(s);
      var p: nat :| LastAt(Pipeline(s), x, p);
      LastDeliveryIsSafe(cfg, s, x, p);
    }
  }

  // ------------------------------------------ ascending worlds, one id at a time

  /** Nothing comes after a greater id, and nothing stored is below what was delivered. */
  ghost predicate NeverBack(log: seq<Message>, store: seq<Message>) {
    && (forall p, r :: 0 <= p < r < |log| ==> log[p].id <= log[r].id)
    && (forall p, i :: 0 <= p < |log| && 0 <= i < |store| ==> log[p].id <= store[i].id)
  }

  lemma DeleteKeepsNeverBack(log: seq<Message>, store: seq<Message>, ids: seq<nat>)
    requires NeverBack(log, store)
    ensures NeverBack(log, Remove(store, ids))
  {
    RemoveContents(store, ids);
    var rest := Remove(store, ids);
    forall p, i | 0 <= p < |log| && 0 <= i < |rest| ensures log[p].id <= rest[i].id {
      assert rest[i] in store;
    }
  }

  lemma InsertKeepsNeverBack(s: State, m: Message)
    requires NeverBack(Pipeline(s), s.store) && StoreInv(s) && LoopInv(s)
    requires forall x :: x in s.inserted ==> x.id < m.id
    ensures NeverBack(Pipeline(s), InsertById(s.store, m))
  {
    InsertByIdLast(s.store, m);
    forall p | 0 <= p < |Pipeline(s)| ensures Pipeline(s)[p].id <= m.id {
      assert Pipeline(s)[p] in s.log || Pipeline(s)[p] in s.batch;
    }
  }

  lemma FetchKeepsNeverBack(cfg: Config, s: State)
    requires cfg.fetchSize == 1 && Ascending(s.store) && LoopInv(s) && s.phase.Fetching?
    requires NeverBack(Pipeline(s), s.store)
    ensures NeverBack(Pipeline(FetchStep(cfg, s)), s.store)
  {
    var b := Front(s.store, 1);
    assert Pipeline(s) == s.log;
    assert b == [] || b == [s.store[0]];
  }

  lemma StepKeepsNeverBack(cfg: Config, w: World, s: State, e: Event)
    requires cfg.fetchSize == 1 && w.ascending && Inv(cfg, s) && Allowed(w, s, e)
    requires NeverBack(Pipeline(s), s.store)
    ensures NeverBack(Pipeline(Step(cfg, s, e)), Step(cfg, s, e).store)
  {
    if e.Fetch? {
      FetchKeepsNeverBack(cfg, s);
    } else {
      OtherStepsKeepPipeline(cfg, s, e);
      match e
      case Insert(m) => InsertKeepsNeverBack(s, m);
      case AckOk => DeleteKeepsNeverBack(Pipeline(s), s.store, Ids(s.batch));
      case Arrive(ids) => DeleteKeepsNeverBack(Pipeline(s), s.store, ids);
      case _ =>
    }
  }

  lemma {:induction false} RunKeepsNeverBack(cfg: Config, w: World, es: seq<Event>)
    requires cfg.Valid() && cfg.fetchSize == 1 && w.ascending && IsRun(cfg, w, es)
    ensures NeverBack(Pipeline(After(cfg, es)), After(cfg, es).store)
  {
    if es != [] {
      var t := es[..|es| - 1];
      RunKeepsInv(cfg, w, t);
      RunKeepsNeverBack(cfg, w, t);
      StepKeepsNeverBack(cfg, w, After(cfg, t), es[|es| - 1]);
    }
  }

  lemma UniformUpTo(cfg: Config, s: State, i: nat, m: Message)
    requires ChunkInv(cfg, s) && NeverBack(Pipeline(s), s.store) && i < |s.flushed| && s.flushed[i] != []
    ensures m in s.flushed[i] ==> MinId(s.flushed[i]) <= m.id <= LastId(s.flushed[i])
  {
    if m in s.flushed[i] {
      var k :| 0 <= k < |s.flushed[i]| && s.flushed[i][k] == m;
      ChunkInPipeline(cfg, s, i, k);
      ChunkInPipeline(cfg, s, i, |s.flushed[i]| - 1);
    }
  }

  lemma LaterIsAbove(cfg: Config, s: State, i: nat, j: nat, k: nat)
    requires ChunkInv(cfg, s) && NeverBack(Pipeline(s), s.store) && i < j < |s.flushed|
    requires s.flushed[i] != [] && k < |s.flushed[j]|
    ensures LastId(s.flushed[i]) <= s.flushed[j][k].id
  {
    ChunkInPipeline(cfg, s, i, |s.flushed[i]| - 1);
    OffsetMonotone(s.flushed, i + 1, j);
    ChunkInPipeline(cfg, s, j, k);
  }

  lemma LaterStartsAtLast(cfg: Config, s: State, i: nat, j: nat)
    requires ChunkInv(cfg, s) && NeverBack(Pipeline(s), s.store) && i < j < |s.flushed|
    requires s.flushed[i] != [] && s.flushed[j] != []
    ensures LastId(s.flushed[i]) <= MinId(s.flushed[j])
  {
    var b, lo := s.flushed[j], MinId(s.flushed[j]);
    var least :| least in b && least.id == lo;
    var k :| 0 <= k < |b| && b[k] == least;
    LaterIsAbove(cfg, s, i, j, k);
  }

  /** Then chunks that share a name consist of one message over and over. */
  lemma NamesakesAreUniform(cfg: Config, s: State, i: nat, j: nat)
    requires ChunkInv(cfg, s) && NeverBack(Pipeline(s), s.store) && i < j && Namesakes(s, i, j)
    ensures forall m :: m in s.flushed[i] || m in s.flushed[j] ==> m.id == MinId(s.flushed[j])
  {
    EqualNames(s.flushed[i], s.flushed[j]);
    LaterStartsAtLast(cfg, s, i, j);
    forall m | m in s.flushed[i] || m in s.flushed[j] ensures m.id == MinId(s.flushed[j]) {
      UniformUpTo(cfg, s, i, m);
      UniformUpTo(cfg, s, j, m);
    }
  }

  /** A chunk that starts with `x` has it at the beginning of its file. */
  lemma FirstAtZero(c: seq<Message>, x: Message)
    requires c != [] && c[0] == x
    ensures x in c && HoldsAt(FileBytes(c), Line(x), 0)
  {
    FileHoldsPayload(c, 0);
    assert c[..0] == [];
  }

  lemma UniqueNameIsSafe(s: State, x: Message, j: nat)
    requires FolderInv(s) && NoEmptyChunk(s) && j < |s.flushed| && x in s.flushed[j]
    requires forall i :: 0 <= i < |s.flushed| && Namesakes(s, i, j) ==> i == j
    ensures Safe(s, x)
  {
    var k :| 0 <= k < |s.flushed[j]| && s.flushed[j][k] == x;
    FileHoldsPayload(s.flushed[j], k);
    AlignedIsSafe(s, x, j, k);
  }

  lemma UniformIsSafe(s: State, x: Message, j: nat)
    requires FolderInv(s) && NoEmptyChunk(s) && j < |s.flushed| && x in s.flushed[j]
    requires forall i :: 0 <= i < |s.flushed| && Namesakes(s, i, j) ==> s.flushed[i][0] == x
    ensures Safe(s, x)
  {
    forall i | 0 <= i < |s.flushed| && Namesakes(s, i, j)
      ensures x in s.flushed[i] && HoldsAt(FileBytes(s.flushed[i]), Line(x), 0)
    {
      FirstAtZero(s.flushed[i], x);
    }
    assert Namesakes(s, j, j) && s.flushed[j][..0] == [];
    AlignedIsSafe(s, x, j, 0);
  }

  lemma NamesakeStartsWith(cfg: Config, s: State, x: Message, h: nat, i: nat, j: nat)
    requires ChunkInv(cfg, s) && ChunkIdsIdentify(s) && NeverBack(Pipeline(s), s.store)
    requires j < |s.flushed| && x in s.flushed[j] && h != j && Namesakes(s, h, j) && Namesakes(s, i, j)
    ensures s.flushed[i][0] == x
  {
    OthersAreUniform(cfg, s, h, j);
    if i != j { OthersAreUniform(cfg, s, i, j); }
    assert SameIdSame(s.flushed[i], s.flushed[j]);
    assert s.flushed[i][0] in s.flushed[i];
  }

  lemma RepeatedNameIsSafe(cfg: Config, s: State, x: Message, h: nat, j: nat)
    requires ChunkInv(cfg, s) && FolderInv(s) && ChunkIdsIdentify(s) && NeverBack(Pipeline(s), s.store)
    requires j < |s.flushed| && x in s.flushed[j] && h != j && Namesakes(s, h, j)
    ensures Safe(s, x)
  {
    forall i | 0 <= i < |s.flushed| && Namesakes(s, i, j) ensures s.flushed[i][0] == x {
      NamesakeStartsWith(cfg, s, x, h, i, j);
    }
    UniformIsSafe(s, x, j);
  }

  lemma NeverBackIsSafe(cfg: Config, s: State, x: Message, j: nat)
    requires ChunkInv(cfg, s) && FolderInv(s) && ChunkIdsIdentify(s) && NeverBack(Pipeline(s), s.store)
    requires j < |s.flushed| && x in s.flushed[j]
    ensures Safe(s, x)
  {
    if h: nat :| Namesakes(s, h, j) && h != j {
      RepeatedNameIsSafe(cfg, s, x, h, j);
    } else {
      UniqueNameIsSafe(s, x, j);
    }
  }

  lemma OthersAreUniform(cfg: Config, s: State, i: nat, j: nat)
    requires ChunkInv(cfg, s) && NeverBack(Pipeline(s), s.store) && i != j && Namesakes(s, i, j)
    ensures forall m :: m in s.flushed[i] || m in s.flushed[j] ==> m.id == MinId(s.flushed[j])
  {
    if i < j {
      NamesakesAreUniform(cfg, s, i, j);
    } else {
      NamesakesAreUniform(cfg, s, j, i);
      EqualNames(s.flushed[i], s.flushed[j]);
    }
  }

  lemma FindChunk(chunks: seq<seq<Message>>, m: Message) returns (j: nat)
    requires m in Concat(chunks)
    ensures j < |chunks| && chunks[j] != [] && m in chunks[j]
  {
    var p :| 0 <= p < |Concat(chunks)| && Concat(chunks)[p] == m;
    var k;
    j, k := ChunkOf(chunks, p);
    ChunkInLog(chunks, j, k);
  }

  /** Deleted messages are in the buffer or in a chunk. */
  lemma DeletedIsChunked(cfg: Config, s: State, x: Message) returns (j: nat)
    requires StoreInv(s) && ChunkInv(cfg, s) && x in s.inserted && x !in s.store && x !in s.buffer
    ensures j < |s.flushed| && x in s.flushed[j]
  {
    assert x in s.log;
    j := FindChunk(s.flushed, x);
  }

  /** Ascending ids fetched one at a time need no order among savers. */
  lemma OneByOneIsLossFree(cfg: Config, w: World, es: seq<Event>)
    requires cfg.Valid() && w.ascending && cfg.fetchSize == 1 && IsRun(cfg, w, es)
    ensures NoLoss(After(cfg, es))
  {
    RunKeepsInv(cfg, w, es);
    RunKeepsNeverBack(cfg, w, es);
    var s := After(cfg, es);
    AllChunksIdentify(cfg, s);
    forall x | x in s.inserted && x !in s.store ensures Safe(s, x) {
      if x !in s.buffer {
        var j := DeletedIsChunked(cfg, s, x);
        NeverBackIsSafe(cfg, s, x, j);
      }
    }
  }

  // ------------------------------------------------------------ chunks of one message

  lemma SinglesCoincide(s: State, i: nat, j: nat, x: Message)
    requires ChunkIdsIdentify(s) && Namesakes(s, i, j) && |s.flushed[i]| == |s.flushed[j]| == 1
    requires x in s.flushed[j]
    ensures s.flushed[i][0] == x
  {
    EqualNames(s.flushed[i], s.flushed[j]);
    assert SameIdSame(s.flushed[i], s.flushed[j]);
    assert s.flushed[i][0] in s.flushed[i];
  }

  lemma StopAddsNothing(cfg: Config, s: State)
    requires cfg.chunkSize == 1 && Filled(1, s.buffer, s.flushed)
    ensures StopStep(s).flushed == s.flushed && s.buffer == []
  {}

  lemma {:induction false} RunKeepsSingles(cfg: Config, w: World, es: seq<Event>)
    requires cfg.Valid() && cfg.chunkSize == 1 && IsRun(cfg, w, es)
    ensures Filled(1, After(cfg, es).buffer, After(cfg, es).flushed)
  {
    if es != [] {
      var t, e := es[..|es| - 1], es[|es| - 1];
      var s := After(cfg, t);
      RunKeepsSingles(cfg, w, t);
      match e
      case Take => if s.hand != [] { AcceptKeeps(1, s.buffer, s.flushed, s.hand[0]); }
      case Stop => StopAddsNothing(cfg, s);
      case _ =>
    }
  }

  /** With chunks of one message, namesakes are equal and need no promise at all. */
  lemma SinglesAreLossFree(cfg: Config, w: World, es: seq<Event>)
    requires cfg.Valid() && cfg.chunkSize == 1 && IsRun(cfg, w, es)
    ensures NoLoss(After(cfg, es))
  {
    RunKeepsInv(cfg, w, es);
    RunKeepsSingles(cfg, w, es);
    var s := After(cfg, es);
    AllChunksIdentify(cfg, s);
    forall x | x in s.inserted && x !in s.store ensures Safe(s, x) {
      var j := DeletedIsChunked(cfg, s, x);
      forall i | 0 <= i < |s.flushed| && Namesakes(s, i, j) ensures s.flushed[i][0] == x {
        SinglesCoincide(s, i, j, x);
      }
      UniformIsSafe(s, x, j);
    }
  }

  // ----------------------------------------------------------- settled worlds

  ghost predicate Distinct(ms: seq<Message>) {
    forall p, r :: 0 <= p < r < |ms| ==> ms[p] != ms[r]
  }

  lemma FetchKeepsDistinct(cfg: Config, s: State)
    requires StoreInv(s) && LoopInv(s) && s.phase.Fetching? && Distinct(Pipeline(s)) && Settled(s)
    ensures Distinct(Pipeline(FetchStep(cfg, s)))
  {
    var b := Front(s.store, cfg.fetchSize);
    assert Pipeline(s) == s.log;
    forall p, r | 0 <= p < r < |s.log + b| ensures (s.log + b)[p] != (s.log + b)[r] {
      if r >= |s.log| {
        assert b[r - |s.log|] == s.store[r - |s.log|];
        if p < |s.log| { assert s.log[p] in s.log; }
      }
    }
  }

  lemma {:induction false} RunKeepsDistinct(cfg: Config, w: World, es: seq<Event>)
    requires cfg.Valid() && w.settled && IsRun(cfg, w, es)
    ensures Distinct(Pipeline(After(cfg, es)))
  {
    if es != [] {
      var t, e := es[..|es| - 1], es[|es| - 1];
      var s := After(cfg, t);
      RunKeepsInv(cfg, w, t);
      RunKeepsDistinct(cfg, w, t);
      if e.Fetch? {
        FetchKeepsDistinct(cfg, s);
      } else {
        OtherStepsKeepPipeline(cfg, s, e);
      }
    }
  }

  ghost predicate NamesDiffer(s: State) {
    forall i, j :: 0 <= i < j < |s.flushed| && s.flushed[i] != [] && s.flushed[j] != [] ==>
      ChunkName(s.flushed[i]) != ChunkName(s.flushed[j])
  }

  /** Without redelivery no two chunks share a name, so no file is ever truncated. */
  lemma DistinctNames(cfg: Config, s: State)
    requires Inv(cfg, s) && Distinct(Pipeline(s))
    ensures NamesDiffer(s)
  {
    forall i, j | 0 <= i < j < |s.flushed|
      ensures ChunkName(s.flushed[i]) != ChunkName(s.flushed[j])
    {
      ChunksIdentify(cfg, s, i, j);
      LastMessagesDiffer(cfg, s, i, j);
      if ChunkName(s.flushed[i]) == ChunkName(s.flushed[j]) {
        EqualNames(s.flushed[i], s.flushed[j]);
      }
    }
  }

  lemma LastMessagesDiffer(cfg: Config, s: State, i: nat, j: nat)
    requires ChunkInv(cfg, s) && Distinct(Pipeline(s)) && i < j < |s.flushed|
    requires SameIdSame(s.flushed[i], s.flushed[j])
    ensures LastId(s.flushed[i]) != LastId(s.flushed[j])
  {
    var a, b := s.flushed[i], s.flushed[j];
    assert a[|a| - 1] in a && b[|b| - 1] in b;
    ChunkInPipeline(cfg, s, i, |a| - 1);
    ChunkInPipeline(cfg, s, j, |b| - 1);
    OffsetMonotone(s.flushed, i + 1, j);
  }

  /** Then every file, once written, is its chunk, however the savers interleave. */
  lemma FileIsChunk(s: State, j: nat)
    requires FolderInv(s) && NoEmptyChunk(s) && NamesDiffer(s)
    requires j < |s.flushed| && D.Finished(Jobs(s.flushed), s.disk, j)
    ensures ChunkName(s.flushed[j]) in s.disk.files
    ensures s.disk.files[ChunkName(s.flushed[j])] == FileBytes(s.flushed[j])
  {
    var jobs, n := Jobs(s.flushed), ChunkName(s.flushed[j]);
    JobHasBytes(s, j);
    var _ := D.Witness(jobs, s.disk, j);
    forall i | 0 <= i < |jobs| && jobs[i].name == n ensures i == j {
      JobHasBytes(s, i);
    }
    D.AgreedContents(jobs, s.disk, n, FileBytes(s.flushed[j]));
  }

  lemma FileHasChunk(s: State, n: string) returns (i: nat)
    requires FolderInv(s) && NoEmptyChunk(s) && n in s.disk.files
    ensures i < |s.flushed| && ChunkName(s.flushed[i]) == n
  {
    i := D.Toucher(Jobs(s.flushed), s.disk, n);
    JobHasBytes(s, i);
  }

  lemma SettledIsLossFree(cfg: Config, w: World, es: seq<Event>)
    requires cfg.Valid() && w.settled && IsRun(cfg, w, es)
    ensures NoLoss(After(cfg, es))
  {
    RunKeepsInv(cfg, w, es);
    RunKeepsDistinct(cfg, w, es);
    var s := After(cfg, es);
    DistinctNames(cfg, s);
    forall x | x in s.inserted && x !in s.store ensures Safe(s, x) {
      if x !in s.buffer {
        var j := DeletedIsChunked(cfg, s, x);
        UniqueNameIsSafe(s, x, j);
      }
    }
  }
}
