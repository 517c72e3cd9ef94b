/** Order: what the log, the chunks and the folder listing have to do with the order in
    which messages were inserted. */
module Fifo {
  import opened Text
  import opened Messages
  import opened Chunks
  import opened FileNames
  import opened Delivery
  import opened LossFree

  // ------------------------------------------------- the log, replays removed

  /** Each delivered message once, where it was delivered first. */
  function FirstTimes(log: seq<Message>): (r: seq<Message>)
    ensures forall m :: m in r <==> m in log
  {
    if log == [] then [] else
    var n := |log| - 1;
    assert log == log[..n] + [log[n]];
    if log[n] in log[..n] then FirstTimes(log[..n]) else FirstTimes(log[..n]) + [log[n]]
  }

  lemma FirstTimesPush(log: seq<Message>, m: Message)
    ensures FirstTimes(log + [m]) == if m in log then FirstTimes(log) else FirstTimes(log) + [m]
  {
    assert (log + [m])[..|log|] == log;
  }

  lemma {:induction false} FirstTimesPrefix(a: seq<Message>, b: seq<Message>)
    ensures FirstTimes(a) <= FirstTimes(a + b)
  {
    if b == [] {
      assert a + b == a;
    } else {
      var n := |b| - 1;
      FirstTimesPrefix(a, b[..n]);
      FirstTimesPush(a + b[..n], b[n]);
      assert a + b == (a + b[..n]) + [b[n]];
    }
  }

  lemma {:induction false} FirstTimesDistinct(log: seq<Message>)
    requires Distinct(log)
    ensures FirstTimes(log) == log
  {
    if log != [] {
      var n := |log| - 1;
      FirstTimesDistinct(log[..n]);
      assert log == log[..n] + [log[n]];
    }
  }

  lemma SuffixExcludes(ms: seq<Message>, h: nat, i: nat)
    requires Ascending(ms) && h <= i < |ms|
    ensures ms[i] !in ms[..h]
  {
    forall u | 0 <= u < h ensures ms[..h][u].id < ms[i].id {}
  }

  /** The first message not seen yet is the first stored one not seen yet. */
  lemma NextIsNext(inserted: seq<Message>, store: seq<Message>, seen: seq<Message>, h: nat, k: nat)
    requires Ascending(inserted) && Ascending(store) && k < |store| && h <= |inserted|
    requires store[k] in inserted && store[k] !in seen
    requires forall m :: m in inserted ==> m in store || m in seen
    requires forall i :: 0 <= i < k ==> store[i] in seen
    requires forall m :: m in seen <==> m in inserted[..h]
    ensures h < |inserted| && inserted[h] == store[k]
  {
    var t :| 0 <= t < |inserted| && inserted[t] == store[k];
    assert forall u :: 0 <= u < h ==> inserted[..h][u] == inserted[u];
    assert h <= t;
    SuffixExcludes(inserted, h, h);
    var i :| 0 <= i < |store| && store[i] == inserted[h];
    assert inserted[h].id <= inserted[t].id;
    assert i <= k;
  }

  /** A prefix of the inserted messages grows by the first stored one outside it. */
  lemma PrefixGrows(inserted: seq<Message>, store: seq<Message>, firsts: seq<Message>, k: nat)
    requires Ascending(inserted) && Ascending(store) && k < |store| && firsts <= inserted
    requires store[k] in inserted && store[k] !in firsts
    requires forall m :: m in inserted ==> m in store || m in firsts
    requires forall i :: 0 <= i < k ==> store[i] in firsts
    ensures firsts + [store[k]] <= inserted
  {
    var h := |firsts|;
    assert firsts == inserted[..h];
    NextIsNext(inserted, store, firsts, h, k);
    assert inserted[..h + 1] == firsts + [store[k]];
  }

  lemma FetchOneMore(inserted: seq<Message>, store: seq<Message>, seen: seq<Message>, k: nat)
    requires Ascending(inserted) && Ascending(store) && k < |store| && store[k] in inserted
    requires forall m :: m in inserted ==> m in store || m in seen
    requires forall i :: 0 <= i < k ==> store[i] in seen
    requires FirstTimes(seen) <= inserted
    ensures FirstTimes(seen + [store[k]]) <= inserted
  {
    FirstTimesPush(seen, store[k]);
    if store[k] !in seen {
      PrefixGrows(inserted, store, FirstTimes(seen), k);
    }
  }

  lemma {:induction false} FetchIsNext(inserted: seq<Message>, store: seq<Message>, log: seq<Message>, n: nat)
    requires Ascending(inserted) && Ascending(store) && n <= |store|
    requires forall m :: m in store ==> m in inserted
    requires forall m :: m in inserted ==> m in store || m in log
    requires FirstTimes(log) <= inserted
    ensures FirstTimes(log + store[..n]) <= inserted
  {
    if n == 0 {
      assert log + store[..0] == log;
    } else {
      var k := n - 1;
      var seen := log + store[..k];
      FetchIsNext(inserted, store, log, k);
      assert log + store[..n] == seen + [store[k]];
      forall i | 0 <= i < k ensures store[i] in seen {
        assert seen[|log| + i] == store[i];
      }
      FetchOneMore(inserted, store, seen, k);
    }
  }

  lemma FetchKeepsFifo(cfg: Config, s: State)
    requires StoreInv(s) && LoopInv(s) && Ascending(s.inserted) && s.phase.Fetching?
    requires FirstTimes(Pipeline(s)) <= s.inserted
    ensures FirstTimes(Pipeline(FetchStep(cfg, s))) <= s.inserted
  {
    var b := Front(s.store, cfg.fetchSize);
    assert b == s.store[..|b|];
    assert Pipeline(s) == s.log;
    FetchIsNext(s.inserted, s.store, s.log, |b|);
    if b == [] {
      assert FetchStep(cfg, s) == s;
    } else {
      assert Pipeline(FetchStep(cfg, s)) == s.log + b;
    }
  }

  lemma StepKeepsFifo(cfg: Config, s: State, e: Event)
    requires StoreInv(s) && LoopInv(s) && Ascending(s.inserted) && Enabled(s, e)
    requires FirstTimes(Pipeline(s)) <= s.inserted
    ensures FirstTimes(Pipeline(Step(cfg, s, e))) <= Step(cfg, s, e).inserted
  {
    if e.Fetch? { FetchKeepsFifo(cfg, s); } else { OtherStepsKeepPipeline(cfg, s, e); }
  }

  /** In every run with ascending ids, whatever fails: leave out the replays, and the log
      is exactly the messages inserted first, in order, none skipped. */
  lemma {:induction false} FifoUpToReplay(cfg: Config, w: World, es: seq<Event>)
    requires cfg.Valid() && w.ascending && IsRun(cfg, w, es)
    ensures FirstTimes(Pipeline(After(cfg, es))) <= After(cfg, es).inserted
    ensures FirstTimes(After(cfg, es).log) <= After(cfg, es).inserted
  {
    if es != [] {
      var t := es[..|es| - 1];
      FifoUpToReplay(cfg, w, t);
      RunKeepsInv(cfg, w, t);
      RunKeepsOrder(cfg, w, t);
      StepKeepsFifo(cfg, After(cfg, t), es[|es| - 1]);
    }
    var s := After(cfg, es);
    FirstTimesPrefix(s.log, s.hand);
  }

  // --------------------------------------------------------- exactly-once runs

  lemma EmptyTogether<T>(a: seq<T>, b: seq<T>)
    requires forall m :: m in a <==> m in b
    ensures a == [] <==> b == []
  {
    if a != [] { assert a[0] in a; }
    if b != [] { assert b[0] in b; }
  }

  lemma {:induction false} AscendingUnique(a: seq<Message>, b: seq<Message>)
    requires Ascending(a) && Ascending(b)
    requires forall m :: m in a <==> m in b
    ensures a == b
  {
    EmptyTogether(a, b);
    if a != [] {
      assert a[0] in a && a[0] in b;
      assert b[0] in b && b[0] in a;
      assert a[0] == b[0];
      forall m ensures m in a[1..] <==> m in b[1..] {
        assert m in a <==> m == a[0] || m in a[1..];
        assert m in b <==> m == b[0] || m in b[1..];
      }
      AscendingUnique(a[1..], b[1..]);
    }
  }

  /** Ascending ids and effective acknowledgements: the log is the inserted messages in
      order, each once, and before every fetch chunks, buffer and store in this order are
      exactly what was inserted. Failed fetches change nothing. */
  lemma FifoRefinement(cfg: Config, w: World, es: seq<Event>)
    requires cfg.Valid() && w.ascending && w.settled && IsRun(cfg, w, es)
    ensures var s := After(cfg, es);
      && Concat(s.flushed) + s.buffer + s.hand <= s.inserted
      && (s.phase.Fetching? && Settled(s) ==> Concat(s.flushed) + s.buffer + s.store == s.inserted)
  {
    var s := After(cfg, es);
    RunKeepsInv(cfg, w, es);
    RunKeepsOrder(cfg, w, es);
    RunKeepsDistinct(cfg, w, es);
    FifoUpToReplay(cfg, w, es);
    FirstTimesDistinct(Pipeline(s));
    if s.phase.Fetching? && Settled(s) {
      assert Pipeline(s) == s.log;
      RestIsStore(s.inserted, s.store, s.log);
    }
  }

  lemma RestIsStore(inserted: seq<Message>, store: seq<Message>, log: seq<Message>)
    requires Ascending(inserted) && Ascending(store) && log <= inserted
    requires forall m :: m in store ==> m in inserted
    requires forall m :: m in inserted ==> m in store || m in log
    requires forall i :: 0 <= i < |store| ==> store[i] !in log
    ensures log + store == inserted
  {
    var rest := inserted[|log|..];
    assert inserted == log + rest;
    forall m ensures m in rest <==> m in store {
      if m in rest {
        var i :| 0 <= i < |rest| && rest[i] == m;
        SuffixExcludes(inserted, |log|, |log| + i);
        assert inserted[..|log|] == log;
      }
    }
    AscendingUnique(rest, store);
  }

  // ---------------------------------------------------------- names and listing

  lemma ChunkBracket(cfg: Config, s: State, i: nat, m: Message)
    requires ChunkInv(cfg, s) && Ascending(s.inserted) && Pipeline(s) <= s.inserted
    requires i < |s.flushed| && m in s.flushed[i]
    ensures MinId(s.flushed[i]) <= m.id <= LastId(s.flushed[i])
  {
    ChunkAscends(cfg, s, i);
    AscendingBracket(s.flushed[i]);
  }

  lemma ChunkAscends(cfg: Config, s: State, i: nat)
    requires ChunkInv(cfg, s) && Ascending(s.inserted) && Pipeline(s) <= s.inserted && i < |s.flushed|
    ensures Ascending(s.flushed[i])
  {
    var c := s.flushed[i];
    forall a, b | 0 <= a < b < |c| ensures c[a].id < c[b].id {
      ChunkInPipeline(cfg, s, i, a);
      ChunkInPipeline(cfg, s, i, b);
    }
  }

  lemma ChunksIncrease(cfg: Config, s: State, i: nat, j: nat)
    requires ChunkInv(cfg, s) && Ascending(s.inserted) && Pipeline(s) <= s.inserted && i < j < |s.flushed|
    ensures LastId(s.flushed[i]) < MinId(s.flushed[j])
  {
    var a, b := s.flushed[i], s.flushed[j];
    ChunkInPipeline(cfg, s, i, |a| - 1);
    OffsetMonotone(s.flushed, i + 1, j);
    forall m | m in b ensures a[|a| - 1].id < m.id {
      var k :| 0 <= k < |b| && b[k] == m;
      ChunkInPipeline(cfg, s, j, k);
    }
  }

  /** Chunks are named by their true extremes and cover disjoint, increasing id ranges. */
  ghost predicate InRanges(chunks: seq<seq<Message>>) {
    && (forall i :: 0 <= i < |chunks| ==> chunks[i] != [])
    && (forall i, m :: 0 <= i < |chunks| && m in chunks[i] ==> MinId(chunks[i]) <= m.id <= LastId(chunks[i]))
    && (forall i, j :: 0 <= i < j < |chunks| ==> LastId(chunks[i]) < MinId(chunks[j]))
  }

  lemma ChunksInRanges(cfg: Config, s: State)
    requires ChunkInv(cfg, s) && Ascending(s.inserted) && Pipeline(s) <= s.inserted
    ensures InRanges(s.flushed)
  {
    forall i, m | 0 <= i < |s.flushed| && m in s.flushed[i]
      ensures MinId(s.flushed[i]) <= m.id <= LastId(s.flushed[i])
    {
      ChunkBracket(cfg, s, i, m);
    }
    forall i, j | 0 <= i < j < |s.flushed| ensures LastId(s.flushed[i]) < MinId(s.flushed[j]) {
      ChunksIncrease(cfg, s, i, j);
    }
  }

  /** With ascending ids and effective deletes, that is how every run cuts and names. */
  lemma FileRanges(cfg: Config, w: World, es: seq<Event>)
    requires cfg.Valid() && w.ascending && w.settled && IsRun(cfg, w, es)
    ensures InRanges(After(cfg, es).flushed)
  {
    RunKeepsInv(cfg, w, es);
    RunKeepsOrder(cfg, w, es);
    FifoRefinement(cfg, w, es);
    assert Pipeline(After(cfg, es)) <= After(cfg, es).inserted;
    ChunksInRanges(cfg, After(cfg, es));
  }

  ghost predicate Listed(names: seq<string>) {
    forall i, j :: 0 <= i < j < |names| ==> LexLess(names[i], names[j])
  }

  lemma {:induction false} ListingUnique(a: seq<string>, b: seq<string>)
    requires Listed(a) && Listed(b)
    requires forall n :: n in a <==> n in b
    ensures a == b
  {
    EmptyTogether(a, b);
    if a != [] {
      assert a[0] in a && a[0] in b;
      assert b[0] in b && b[0] in a;
      FirstNames(a, b);
      forall n ensures n in a[1..] <==> n in b[1..] {
        assert n in a <==> n == a[0] || n in a[1..];
        assert n in b <==> n == b[0] || n in b[1..];
        LexIrreflexive(a[0]);
      }
      ListingUnique(a[1..], b[1..]);
    }
  }

  lemma FirstNames(a: seq<string>, b: seq<string>)
    requires Listed(a) && Listed(b) && a != [] && b != []
    requires a[0] in b && b[0] in a
    ensures a[0] == b[0]
  {
    if a[0] != b[0] {
      LexTransitive(a[0], b[0], a[0]);
      LexIrreflexive(a[0]);
    }
  }

  function ChunkNames(chunks: seq<seq<Message>>): (names: seq<string>)
    requires forall i :: 0 <= i < |chunks| ==> chunks[i] != []
    ensures |names| == |chunks| && forall i :: 0 <= i < |chunks| ==> names[i] == ChunkName(chunks[i])
  {
    seq(|chunks|, i requires 0 <= i < |chunks| => ChunkName(chunks[i]))
  }

  /** `cat` of the listed files. */
  function CatFiles(files: map<string, string>, names: seq<string>): string
    requires forall i :: 0 <= i < |names| ==> names[i] in files
  {
    if names == [] then []
    else CatFiles(files, names[..|names| - 1]) + files[names[|names| - 1]]
  }

  lemma {:induction false} CatIsConcat(files: map<string, string>, names: seq<string>, chunks: seq<seq<Message>>)
    requires |names| == |chunks|
    requires forall i :: 0 <= i < |names| ==> names[i] in files && files[names[i]] == FileBytes(chunks[i])
    ensures CatFiles(files, names) == FileBytes(Concat(chunks))
  {
    if names != [] {
      var n := |names| - 1;
      CatIsConcat(files, names[..n], chunks[..n]);
      FileBytesConcat(Concat(chunks[..n]), chunks[n]);
    }
  }

  /** Chunks with increasing least ids list in that order if and only if no two least ids
      are told apart by more than their first 19 digits. */
  lemma NamesAscendExactlyWhen(chunks: seq<seq<Message>>)
    requires forall i :: 0 <= i < |chunks| ==> chunks[i] != []
    requires forall i, m :: 0 <= i < |chunks| && m in chunks[i] ==> m.id < WORD
    requires forall i, j :: 0 <= i < j < |chunks| ==> MinId(chunks[i]) < MinId(chunks[j])
    ensures Listed(ChunkNames(chunks))
       <==> forall i, j :: 0 <= i < j < |chunks| ==> Comparable(MinId(chunks[i]), MinId(chunks[j]))
  {
    forall i, j | 0 <= i < j < |chunks|
      ensures LexLess(ChunkName(chunks[i]), ChunkName(chunks[j])) <==> Comparable(MinId(chunks[i]), MinId(chunks[j]))
    {
      var a, b := chunks[i], chunks[j];
      assert a[|a| - 1] in a && b[|b| - 1] in b;
      NameOrder(MinId(a), LastId(a), MinId(b), LastId(b));
    }
    var names := ChunkNames(chunks);
    assert forall i, j :: 0 <= i < j < |chunks| ==>
      (LexLess(names[i], names[j]) <==> Comparable(MinId(chunks[i]), MinId(chunks[j])));
  }

  lemma ChunkIdsFit(cfg: Config, s: State)
    requires Inv(cfg, s) && IdsComparable(s.inserted)
    ensures forall i, m :: 0 <= i < |s.flushed| && m in s.flushed[i] ==> m.id < WORD
  {
    forall i | 0 <= i < |s.flushed| ensures forall m :: m in s.flushed[i] ==> m in s.inserted {
      ChunkIsInserted(cfg, s, i);
    }
  }

  lemma InsertedComparable(ms: seq<Message>, x: nat, y: nat)
    requires Ascending(ms) && IdsComparable(ms) && x < y
    requires (exists k :: 0 <= k < |ms| && ms[k].id == x) && (exists k :: 0 <= k < |ms| && ms[k].id == y)
    ensures Comparable(x, y)
  {
    var k :| 0 <= k < |ms| && ms[k].id == x;
    var l :| 0 <= l < |ms| && ms[l].id == y;
    assert k < l;
  }

  lemma ChunkNamesCompare(cfg: Config, s: State, i: nat, j: nat)
    requires Inv(cfg, s) && Ascending(s.inserted) && Pipeline(s) <= s.inserted && IdsComparable(s.inserted)
    requires i < j < |s.flushed|
    ensures MinId(s.flushed[i]) < MinId(s.flushed[j])
    ensures Comparable(MinId(s.flushed[i]), MinId(s.flushed[j]))
  {
    ChunksIncrease(cfg, s, i, j);
    assert s.flushed[i][|s.flushed[i]| - 1] in s.flushed[i];
    MinIdIsInserted(cfg, s, i);
    MinIdIsInserted(cfg, s, j);
    InsertedComparable(s.inserted, MinId(s.flushed[i]), MinId(s.flushed[j]));
  }

  lemma NamesOfRunAscend(cfg: Config, s: State)
    requires Inv(cfg, s) && Ascending(s.inserted) && Pipeline(s) <= s.inserted && IdsComparable(s.inserted)
    ensures Listed(ChunkNames(s.flushed))
  {
    ChunkIdsFit(cfg, s);
    forall i, j | 0 <= i < j < |s.flushed|
      ensures MinId(s.flushed[i]) < MinId(s.flushed[j]) && Comparable(MinId(s.flushed[i]), MinId(s.flushed[j]))
    {
      ChunkNamesCompare(cfg, s, i, j);
    }
    NamesAscendExactlyWhen(s.flushed);
  }

  lemma MinIdIsInserted(cfg: Config, s: State, i: nat)
    requires Inv(cfg, s) && i < |s.flushed|
    ensures exists k :: 0 <= k < |s.inserted| && s.inserted[k].id == MinId(s.flushed[i])
  {
    ChunkIsInserted(cfg, s, i);
    var c := s.flushed[i];
    var lo := MinId(c);
    var m :| m in c && m.id == lo;
    assert m in s.inserted;
  }

  /** 64-bit ids, any two of which differ within 19 digits. */
  ghost predicate IdsComparable(ms: seq<Message>) {
    && (forall m :: m in ms ==> m.id < WORD)
    && (forall i, j :: 0 <= i < j < |ms| ==> Comparable(ms[i].id, ms[j].id))
  }

  /** `ls`: all names of the folder in lexicographic order. */
  ghost predicate IsListing(names: seq<string>, files: map<string, string>) {
    Listed(names) && forall n :: n in names <==> n in files
  }

  lemma ListingOfState(cfg: Config, s: State, names: seq<string>)
    requires Inv(cfg, s) && NamesDiffer(s) && AllSaved(s)
    requires Ascending(s.inserted) && Pipeline(s) <= s.inserted && IdsComparable(s.inserted)
    requires IsListing(names, s.disk.files)
    ensures CatFiles(s.disk.files, names) == FileBytes(Concat(s.flushed))
  {
    NamesOfRunAscend(cfg, s);
    ListingOfChunks(s, names);
  }

  /** List the folder by name and concatenate the files: the bytes are those of the
      delivered messages in insertion order. Ids of equal width, up to 10^19 or from there
      on, are always comparable. */
  lemma ListingIsDeliveryOrder(cfg: Config, w: World, es: seq<Event>, names: seq<string>)
    requires cfg.Valid() && w.ascending && w.settled && IsRun(cfg, w, es)
    requires AllSaved(After(cfg, es)) && IdsComparable(After(cfg, es).inserted)
    requires IsListing(names, After(cfg, es).disk.files)
    ensures var s := After(cfg, es);
      CatFiles(s.disk.files, names) == FileBytes(Concat(s.flushed)) && Concat(s.flushed) <= s.inserted
  {
    var s := After(cfg, es);
    RunKeepsInv(cfg, w, es);
    RunKeepsDistinct(cfg, w, es);
    RunKeepsOrder(cfg, w, es);
    DistinctNames(cfg, s);
    FifoRefinement(cfg, w, es);
    ListingOfState(cfg, s, names);
  }

  lemma NamesAreTheFolder(s: State)
    requires FolderInv(s) && NoEmptyChunk(s) && NamesDiffer(s) && AllSaved(s)
    ensures forall n :: n in ChunkNames(s.flushed) <==> n in s.disk.files
  {
    var own := ChunkNames(s.flushed);
    forall n ensures n in own <==> n in s.disk.files {
      if n in s.disk.files {
        var i := FileHasChunk(s, n);
        assert own[i] == n;
      }
      if n in own {
        var i :| 0 <= i < |own| && own[i] == n;
        FileIsChunk(s, i);
      }
    }
  }

  lemma ListingOfChunks(s: State, names: seq<string>)
    requires FolderInv(s) && NoEmptyChunk(s) && NamesDiffer(s) && AllSaved(s)
    requires Listed(ChunkNames(s.flushed)) && IsListing(names, s.disk.files)
    ensures CatFiles(s.disk.files, names) == FileBytes(Concat(s.flushed))
  {
    NamesAreTheFolder(s);
    ListingUnique(names, ChunkNames(s.flushed));
    forall j | 0 <= j < |s.flushed|
      ensures names[j] in s.disk.files && s.disk.files[names[j]] == FileBytes(s.flushed[j])
    {
      FileIsChunk(s, j);
    }
    CatIsConcat(s.disk.files, names, s.flushed);
  }
}
