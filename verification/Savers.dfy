/** Detached saver threads: what the folder owes to their order. */
module Savers {
  import opened Messages
  import opened Delivery
  import opened LossFree
  import D = Disk

  // ---------------------------------------------------------------- two savers

  /** Two savers start on a folder and, one event at a time, run to their ends. */
  predicate Complete(a: D.Job, b: D.Job, files: map<string, string>, es: seq<D.SaverEvent>) {
    var d := D.Disk(files, map[]);
    && D.AllEnabled([a, b], d, es)
    && D.Finished([a, b], D.RunAll([a, b], d, es), 0) && D.Finished([a, b], D.RunAll([a, b], d, es), 1)
  }

  function Left(a: D.Job, b: D.Job, files: map<string, string>, es: seq<D.SaverEvent>): map<string, string> {
    D.RunAll([a, b], D.Disk(files, map[]), es).files
  }

  lemma OwnFileIsLeft(a: D.Job, b: D.Job, files: map<string, string>, es: seq<D.SaverEvent>, i: nat)
    requires a.bytes != "" && b.bytes != "" && (a.name != b.name || a.bytes == b.bytes) && i < 2
    requires Complete(a, b, files, es)
    ensures [a, b][i].name in Left(a, b, files, es) && Left(a, b, files, es)[[a, b][i].name] == [a, b][i].bytes
  {
    var jobs, d := [a, b], D.Disk(files, map[]);
    D.RunKeepsFiles(jobs, d, es);
    var _ := D.Witness(jobs, D.RunAll(jobs, d, es), i);
    D.AgreedContents(jobs, D.RunAll(jobs, d, es), jobs[i].name, jobs[i].bytes);
  }

  lemma AgreeingSavers(a: D.Job, b: D.Job, files: map<string, string>, es: seq<D.SaverEvent>)
    requires a.bytes != "" && b.bytes != "" && (a.name != b.name || a.bytes == b.bytes)
    requires Complete(a, b, files, es)
    ensures Left(a, b, files, es) == files[a.name := a.bytes][b.name := b.bytes]
  {
    OwnFileIsLeft(a, b, files, es, 0);
    OwnFileIsLeft(a, b, files, es, 1);
    assert [a, b][0] == a && [a, b][1] == b;
    forall n | n != a.name && n != b.name
      ensures n in Left(a, b, files, es) <==> n in files
      ensures n in files ==> Left(a, b, files, es)[n] == files[n]
    {
      D.RunKeepsOthers([a, b], D.Disk(files, map[]), es, n);
    }
  }

  /** Saver `j` after saver `i`. */
  lemma Sequentially(a: D.Job, b: D.Job, files: map<string, string>, i: nat, j: nat)
    returns (es: seq<D.SaverEvent>)
    requires a.bytes != "" && b.bytes != "" && a.name == b.name && i < 2 && j == 1 - i
    ensures Complete(a, b, files, es) && a.name in Left(a, b, files, es)
    ensures Left(a, b, files, es)[a.name] == [a, b][j].bytes
  {
    var jobs, d := [a, b], D.Disk(files, map[]);
    es := D.WholeSave(jobs, d, [], i);
    assert D.Finished(jobs, D.RunAll(jobs, d, es), i);
    es := D.WholeSave(jobs, d, es, j);
    assert D.Finished(jobs, D.RunAll(jobs, d, es), i) && D.Finished(jobs, D.RunAll(jobs, d, es), j);
  }

  /** However the opens and writes of two savers interleave, they leave the same folder, if
      and only if they write different files or the same bytes. */
  lemma SaversCommuteExactlyWhen(a: D.Job, b: D.Job, files: map<string, string>)
    requires a.bytes != "" && b.bytes != ""
    ensures (forall us, vs :: Complete(a, b, files, us) && Complete(a, b, files, vs) ==>
              Left(a, b, files, us) == Left(a, b, files, vs))
       <==> a.name != b.name || a.bytes == b.bytes
  {
    if a.name != b.name || a.bytes == b.bytes {
      forall us, vs | Complete(a, b, files, us) && Complete(a, b, files, vs)
        ensures Left(a, b, files, us) == Left(a, b, files, vs)
      {
        AgreeingSavers(a, b, files, us);
        AgreeingSavers(a, b, files, vs);
      }
    } else {
      var us := Sequentially(a, b, files, 0, 1);
      var vs := Sequentially(a, b, files, 1, 0);
      assert Left(a, b, files, us) != Left(a, b, files, vs);
    }
  }

  // ------------------------------------------- the run without its saver threads

  function Core(es: seq<Event>): seq<Event> {
    if es == [] then []
    else if es[|es| - 1].Saver? then Core(es[..|es| - 1])
    else Core(es[..|es| - 1]) + [es[|es| - 1]]
  }

  ghost predicate SameCore(s: State, t: State) { s == t.(disk := s.disk) }

  lemma StepKeepsSameCore(cfg: Config, s: State, t: State, e: Event)
    requires SameCore(s, t) && !e.Saver?
    ensures SameCore(Step(cfg, s, e), Step(cfg, t, e))
  {}

  lemma {:induction false} SaversAreInvisible(cfg: Config, es: seq<Event>)
    ensures SameCore(After(cfg, es), After(cfg, Core(es)))
  {
    if es != [] {
      var t, e := es[..|es| - 1], es[|es| - 1];
      SaversAreInvisible(cfg, t);
      if !e.Saver? {
        assert (Core(t) + [e])[..|Core(t)|] == Core(t);
        StepKeepsSameCore(cfg, After(cfg, t), After(cfg, Core(t)), e);
      }
    }
  }

  /** A folder in which every file has one saver. */
  ghost predicate OneSaverEach(s: State) {
    FolderInv(s) && NamesDiffer(s) && NoEmptyChunk(s)
  }

  lemma SettledIsOneSaverEach(cfg: Config, w: World, es: seq<Event>)
    requires cfg.Valid() && w.settled && IsRun(cfg, w, es)
    ensures OneSaverEach(After(cfg, es))
  {
    RunKeepsInv(cfg, w, es);
    RunKeepsDistinct(cfg, w, es);
    DistinctNames(cfg, After(cfg, es));
  }

  lemma FolderIsContained(s: State, t: State)
    requires OneSaverEach(s) && OneSaverEach(t) && t.flushed == s.flushed && AllSaved(s) && AllSaved(t)
    ensures forall n :: n in s.disk.files ==> n in t.disk.files && t.disk.files[n] == s.disk.files[n]
  {
    forall n | n in s.disk.files ensures n in t.disk.files && t.disk.files[n] == s.disk.files[n] {
      var i := FileHasChunk(s, n);
      FileIsChunk(s, i);
      FileIsChunk(t, i);
    }
  }

  /** Without redelivery, two runs that differ only in how the opens and writes of their
      savers interleave leave the same folder once all savers are done. */
  lemma SaverOrderIsIrrelevant(cfg: Config, w: World, es: seq<Event>, fs: seq<Event>)
    requires cfg.Valid() && w.settled && IsRun(cfg, w, es) && IsRun(cfg, w, fs)
    requires Core(es) == Core(fs)
    requires AllSaved(After(cfg, es)) && AllSaved(After(cfg, fs))
    ensures After(cfg, es).disk.files == After(cfg, fs).disk.files
  {
    SaversAreInvisible(cfg, es);
    SaversAreInvisible(cfg, fs);
    SettledIsOneSaverEach(cfg, w, es);
    SettledIsOneSaverEach(cfg, w, fs);
    FolderIsContained(After(cfg, es), After(cfg, fs));
    FolderIsContained(After(cfg, fs), After(cfg, es));
  }

  // --------------------------------------------------- which runs are settled

  /** Delivered but not deleted yet: only the batch in progress. */
  ghost predicate OnlyBatchIsLeft(s: State) {
    forall m :: m in s.store && m in s.log ==> m in s.batch
  }

  lemma AckLeavesNothing(s: State)
    requires StoreInv(s) && OnlyBatchIsLeft(s)
    ensures forall m :: m in Remove(s.store, Ids(s.batch)) ==> m !in s.log
  {
    RemoveContents(s.store, Ids(s.batch));
    IdsContain(s.batch);
  }

  lemma StepLeavesOnlyBatch(cfg: Config, s: State, e: Event)
    requires Inv(cfg, s) && Enabled(s, e) && !e.GiveUp? && OnlyBatchIsLeft(s)
    ensures OnlyBatchIsLeft(Step(cfg, s, e))
  {
    match e
    case Insert(m) =>
      InsertByIdContents(s.store, m);
      assert forall x :: x in s.inserted ==> x.id != m.id;
    case AckOk => AckLeavesNothing(s);
    case Arrive(ids) => RemoveContents(s.store, ids);
    case _ =>
  }

  /** If markConsumed never throws, every fetch finds the store settled. */
  lemma {:induction false} AcknowledgedRunIsSettled(cfg: Config, w: World, es: seq<Event>)
    requires cfg.Valid() && IsRun(cfg, w, es) && GiveUp !in es
    ensures OnlyBatchIsLeft(After(cfg, es))
    ensures IsRun(cfg, World(w.ascending, true, w.exclusive), es)
  {
    if es != [] {
      var t, e := es[..|es| - 1], es[|es| - 1];
      AcknowledgedRunIsSettled(cfg, w, t);
      RunKeepsInv(cfg, w, t);
      StepLeavesOnlyBatch(cfg, After(cfg, t), e);
      BetweenBatchesIsSettled(After(cfg, t));
    }
  }

  lemma BetweenBatchesIsSettled(s: State)
    requires LoopInv(s) && OnlyBatchIsLeft(s)
    ensures s.phase.Fetching? ==> Settled(s)
  {}

  /** A command re-sent after a lost connection, whether or not the first copy took effect
      and whatever was inserted in between, deletes the batch once and nothing else. */
  lemma ResentDeleteIsHarmless(store: seq<Message>, newer: seq<Message>, ids: seq<nat>)
    requires forall m :: m in newer ==> m.id !in ids
    ensures Remove(Remove(store, ids) + newer, ids) == Remove(store, ids) + newer
    ensures Remove(store + newer, ids) == Remove(store, ids) + newer
  {
    RemoveContents(store, ids);
    RemoveNothing(Remove(store, ids), ids);
    RemoveNothing(newer, ids);
    RemoveAppend(Remove(store, ids), newer, ids);
    RemoveAppend(store, newer, ids);
  }
}
