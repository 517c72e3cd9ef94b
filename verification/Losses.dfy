/** Runs that lose a message, for every configuration that allows them, and the exact
    condition under which none does. */
module Losses {
  import opened Text
  import opened Messages
  import opened Chunks
  import opened FileNames
  import opened Delivery
  import opened LossFree
  import D = Disk

  // ------------------------------------------------------------ building a run

  /** A batch is fetched and consumed. */
  lemma ToAcking(cfg: Config, w: World, es: seq<Event>, s: State) returns (es': seq<Event>, s': State)
    requires cfg.Valid() && !w.settled && IsRun(cfg, w, es) && After(cfg, es) == s
    requires s.phase.Fetching? && s.store != []
    ensures IsRun(cfg, w, es') && After(cfg, es') == s'
    ensures var b := Front(s.store, cfg.fetchSize);
      s' == s.(phase := Acking, batch := b, hand := [], log := s.log + b, buffer := s'.buffer, flushed := s'.flushed)
  {
    var b := Front(s.store, cfg.fetchSize);
    es', s' := Extend(cfg, w, es, s, Fetch);
    TakesAll(cfg, w, es', s', |b|);
    es' := es' + Takes(|b|);
    assert s'.hand[..|b|] == b && s'.hand[|b|..] == [];
    s' := Taken(cfg, s', |b|);
  }

  /** A batch is delivered, its delete is sent and the connection fails for good. */
  lemma DeliverInVain(cfg: Config, w: World, es: seq<Event>, s: State) returns (es': seq<Event>, s': State)
    requires cfg.Valid() && !w.settled && IsRun(cfg, w, es) && After(cfg, es) == s
    requires s.phase.Fetching? && s.store != [] && s.batch == s.hand == []
    ensures IsRun(cfg, w, es') && After(cfg, es') == s'
    ensures var b := Front(s.store, cfg.fetchSize);
      s' == s.(log := s.log + b, buffer := s'.buffer, flushed := s'.flushed,
               unresolved := s.unresolved + {Ids(b)})
  {
    es', s' := ToAcking(cfg, w, es, s);
    es', s' := Extend(cfg, w, es', s', Send);
    es', s' := Extend(cfg, w, es', s', GiveUp);
  }

  lemma DeliverForGood(cfg: Config, w: World, es: seq<Event>, s: State) returns (es': seq<Event>, s': State)
    requires cfg.Valid() && !w.settled && IsRun(cfg, w, es) && After(cfg, es) == s
    requires s.phase.Fetching? && s.store != [] && s.batch == s.hand == []
    requires |s.store| <= cfg.fetchSize
    ensures IsRun(cfg, w, es') && After(cfg, es') == s'
    ensures s' == s.(log := s.log + s.store, buffer := s'.buffer, flushed := s'.flushed, store := [])
  {
    es', s' := ToAcking(cfg, w, es, s);
    IdsContain(s.store);
    RemoveAll(s.store, Ids(s.store));
    es', s' := Extend(cfg, w, es', s', AckOk);
  }

  function Rep(m: Message, n: nat): (ms: seq<Message>)
    ensures |ms| == n && forall i :: 0 <= i < n ==> ms[i] == m
  {
    if n == 0 then [] else Rep(m, n - 1) + [m]
  }

  /** One message, delivered over and over. */
  lemma {:induction false} DeliverOver(cfg: Config, w: World, es: seq<Event>, s: State, m: Message, n: nat)
    returns (es': seq<Event>, s': State)
    requires cfg.Valid() && !w.settled && IsRun(cfg, w, es) && After(cfg, es) == s
    requires s.phase.Fetching? && s.store == [m] && s.batch == s.hand == []
    ensures IsRun(cfg, w, es') && After(cfg, es') == s'
    ensures s' == s.(log := s.log + Rep(m, n), buffer := s'.buffer, flushed := s'.flushed, unresolved := s'.unresolved)
    ensures n > 0 ==> Ids([m]) in s'.unresolved
  {
    if n == 0 {
      es', s' := es, s;
      assert s.log + [] == s.log;
    } else {
      es', s' := DeliverOver(cfg, w, es, s, m, n - 1);
      assert Front(s'.store, cfg.fetchSize) == [m];
      es', s' := DeliverInVain(cfg, w, es', s');
      assert s.log + Rep(m, n) == s.log + Rep(m, n - 1) + [m];
    }
  }

  /** What was delivered says how it was cut. */
  lemma TwoChunks(k: nat, buffer: seq<Message>, flushed: seq<seq<Message>>, a: seq<Message>, b: seq<Message>,
                  rest: seq<Message>)
    requires Filled(k, buffer, flushed) && Concat(flushed) + buffer == a + b + rest
    requires |a| == |b| == k && |rest| < k
    ensures flushed == [a, b] && buffer == rest
  {
    FilledCounts(k, buffer, flushed);
    DivideUnique(2, |rest|, k);
    assert flushed == [flushed[0], flushed[1]];
    assert Concat(flushed) == flushed[0] + flushed[1] by {
      assert flushed[..1] == [flushed[0]];
      assert flushed[..1][..0] == [];
    }
    var all := flushed[0] + flushed[1] + buffer;
    assert flushed[0] == all[..k] == a;
    assert flushed[1] == all[k..2 * k] == b;
    assert buffer == all[2 * k..] == rest;
  }

  // --------------------------------------------------------------- what is gone

  lemma NoByteNoLine(text: string, m: Message, p: nat, c: char)
    requires c in m.data && c !in text
    ensures !HoldsAt(text, Line(m), p)
  {
    var i :| 0 <= i < |m.data| && m.data[i] == c;
    if HoldsAt(text, Line(m), p) { ByteOfPart(text, Line(m), p, p + i); }
  }

  lemma NoByteNoMessage(chunks: seq<seq<Message>>, d: D.Disk, m: Message, c: char)
    requires c in m.data && forall n :: n in d.files ==> c !in d.files[n]
    ensures !OnDisk(chunks, d, m)
  {
    forall i: nat, k: nat ensures !AtItsPlace(chunks, d, m, i, k) {
      if AtItsPlace(chunks, d, m, i, k) {
        NoByteNoLine(d.files[ChunkName(chunks[i])], m, Place(chunks[i], k), c);
      }
    }
  }

  lemma Gone(s: State, m: Message, c: char)
    requires m in s.inserted && m !in s.store && s.hand == [] && m !in s.buffer
    requires |s.flushed| == 2 && D.Finished(Jobs(s.flushed), s.disk, 0) && D.Finished(Jobs(s.flushed), s.disk, 1)
    requires c in m.data && forall n :: n in s.disk.files ==> c !in s.disk.files[n]
    ensures !NoLoss(s)
  {
    NoByteNoMessage(s.flushed, s.disk, m, c);
    assert !Safe(s, m);
  }

  lemma NameIs(c: seq<Message>, m: Message, hi: nat)
    requires c != [] && m in c && (forall x :: x in c ==> m.id <= x.id) && LastId(c) == hi
    ensures ChunkName(c) == FileName(m.id, hi)
  {
    assert MinId(c) <= m.id;
  }

  lemma RepPush(m: Message, n: nat)
    requires n > 0
    ensures FileBytes(Rep(m, n)) == FileBytes(Rep(m, n - 1)) + Line(m)
  {
    assert Rep(m, n)[..n - 1] == Rep(m, n - 1);
  }

  lemma OneMore(n: nat, l: nat)
    requires n > 0
    ensures n * l == (n - 1) * l + l
  {}

  lemma {:induction false} RepLength(m: Message, n: nat)
    ensures |FileBytes(Rep(m, n))| == n * |Line(m)|
  {
    if n > 0 {
      RepLength(m, n - 1);
      RepPush(m, n);
      OneMore(n, |Line(m)|);
    }
  }

  lemma {:induction false} RepLacks(m: Message, n: nat, c: char)
    requires c !in Line(m)
    ensures c !in FileBytes(Rep(m, n))
  {
    if n > 0 {
      RepLacks(m, n - 1, c);
      RepPush(m, n);
    }
  }

  /** A message becomes visible while the store is empty. */
  lemma InsertAlone(cfg: Config, w: World, es: seq<Event>, s: State, m: Message)
    returns (es': seq<Event>, s': State)
    requires IsRun(cfg, w, es) && After(cfg, es) == s && s.store == []
    requires forall i :: 0 <= i < |s.inserted| ==>
      s.inserted[i].id != m.id && (w.ascending ==> s.inserted[i].id < m.id)
    ensures IsRun(cfg, w, es') && After(cfg, es') == s'
    ensures s' == s.(inserted := s.inserted + [m], store := [m])
  {
    es', s' := Extend(cfg, w, es, s, Insert(m));
    assert s'.store == [m];
  }

  /** The chunks of a run that delivered two chunks' worth and a rest. */
  lemma CutInTwo(cfg: Config, w: World, es: seq<Event>, s: State, a: seq<Message>, b: seq<Message>, rest: seq<Message>)
    requires cfg.Valid() && IsRun(cfg, w, es) && After(cfg, es) == s && s.phase.Fetching?
    requires s.log == a + b + rest && |a| == |b| == cfg.chunkSize && |rest| < cfg.chunkSize
    ensures s.flushed == [a, b] && s.buffer == rest
  {
    RunKeepsInv(cfg, w, es);
    TwoChunks(cfg.chunkSize, s.buffer, s.flushed, a, b, rest);
  }

  lemma TwoJobs(s: State, a: seq<Message>, b: seq<Message>, lo: Message, hi: nat) returns (name: string)
    requires s.flushed == [a, b] && a != [] && b != [] && lo in a && lo in b
    requires (forall m :: m in a || m in b ==> lo.id <= m.id) && LastId(a) == LastId(b) == hi
    ensures Jobs(s.flushed) == [D.Job(name, FileBytes(a)), D.Job(name, FileBytes(b))]
    ensures FileBytes(a) != [] && FileBytes(b) != []
  {
    NameIs(a, lo, hi);
    NameIs(b, lo, hi);
    name := FileName(lo.id, hi);
  }

  /** Two savers run to their ends and the one file they leave lacks a byte of a message that
      is nowhere else. */
  lemma EndsInLoss(cfg: Config, w: World, es: seq<Event>, s: State, vs: seq<D.SaverEvent>,
                   m: Message, c: char, name: string, text: string) returns (es': seq<Event>)
    requires IsRun(cfg, w, es) && After(cfg, es) == s && s.disk == D.EMPTY && |s.flushed| == 2
    requires m in s.inserted && m !in s.store && s.hand == [] && m !in s.buffer && c in m.data && c !in text
    requires D.AllEnabled(Jobs(s.flushed), D.EMPTY, vs)
    requires w.exclusive ==> D.AllAlone(Jobs(s.flushed), D.EMPTY, vs)
    requires D.RunAll(Jobs(s.flushed), D.EMPTY, vs).files == map[name := text]
    requires var d := D.RunAll(Jobs(s.flushed), D.EMPTY, vs);
      D.Finished(Jobs(s.flushed), d, 0) && D.Finished(Jobs(s.flushed), d, 1)
    ensures es' == es + AsEvents(vs) && IsRun(cfg, w, es') && !NoLoss(After(cfg, es'))
  {
    var s';
    es', s' := RunSavers(cfg, w, es, s, vs);
    Gone(s', m, c);
  }

  // ------------------------------------------------ late ids and in-order savers

  const OLD := Message(1, "old")
  const NEW := Message(2, "new")

  lemma LateRowLog(cfg: Config, w: World) returns (es: seq<Event>, s: State)
    requires cfg.Valid() && cfg.chunkSize >= 2 && !w.ascending && !w.settled
    ensures IsRun(cfg, w, es) && After(cfg, es) == s
    ensures s == INIT.(inserted := [NEW, OLD], store := [OLD], log := [NEW] + Rep(OLD, 2 * cfg.chunkSize - 1),
                       buffer := s.buffer, flushed := s.flushed, unresolved := s.unresolved)
  {
    es, s := InsertAlone(cfg, w, [], INIT, NEW);
    es, s := DeliverForGood(cfg, w, es, s);
    assert s.log == [NEW] && s.inserted == [NEW];
    es, s := InsertAlone(cfg, w, es, s, OLD);
    assert s.inserted == [NEW, OLD];
    es, s := DeliverOver(cfg, w, es, s, OLD, 2 * cfg.chunkSize - 1);
  }

  lemma LateRowChunks(k: nat) returns (a: seq<Message>, b: seq<Message>)
    requires k >= 2
    ensures a == [NEW] + Rep(OLD, k - 1) && b == Rep(OLD, k)
    ensures OLD in a && OLD in b && LastId(a) == LastId(b) == 1
    ensures forall m :: m in a || m in b ==> OLD.id <= m.id
  {
    a, b := [NEW] + Rep(OLD, k - 1), Rep(OLD, k);
    assert a[1] == b[0] == OLD;
  }

  lemma LateRowJobs(s: State, k: nat)
    requires k >= 2 && s.flushed == [[NEW] + Rep(OLD, k - 1), Rep(OLD, k)]
    ensures var jobs := Jobs(s.flushed);
      && jobs[0].name == jobs[1].name && jobs[0].bytes != "" && jobs[1].bytes != "" && 'n' !in jobs[1].bytes
  {
    var a, b := LateRowChunks(k);
    var name := TwoJobs(s, a, b, OLD, 1);
    RepLacks(OLD, k, 'n');
  }

  /** NEW is visible first and acknowledged; OLD appears late and is delivered in vain over
      and over. The two chunks get the same name. */
  lemma LateRow(cfg: Config, w: World) returns (es: seq<Event>, s: State)
    requires cfg.Valid() && cfg.chunkSize >= 2 && !w.ascending && !w.settled
    ensures IsRun(cfg, w, es) && After(cfg, es) == s
    ensures NEW in s.inserted && NEW !in s.store && s.hand == s.buffer == [] && s.disk == D.EMPTY
    ensures |s.flushed| == 2
    ensures var jobs := Jobs(s.flushed);
      && jobs[0].name == jobs[1].name && jobs[0].bytes != "" && jobs[1].bytes != "" && 'n' !in jobs[1].bytes
  {
    es, s := LateRowLog(cfg, w);
    var k := cfg.chunkSize;
    assert s.log == ([NEW] + Rep(OLD, k - 1)) + Rep(OLD, k) + [];
    CutInTwo(cfg, w, es, s, [NEW] + Rep(OLD, k - 1), Rep(OLD, k), []);
    LateRowJobs(s, k);
  }

  /** One saver after the other, in spawn order: the second truncates the first, and NEW is
      gone from the store and from the folder. */
  lemma LosingLateRow(cfg: Config, w: World) returns (es: seq<Event>)
    requires cfg.Valid() && cfg.chunkSize >= 2 && !w.ascending && !w.settled
    ensures IsRun(cfg, w, es) && !NoLoss(After(cfg, es))
  {
    var s;
    es, s := LateRow(cfg, w);
    var vs := D.OneAfterOther(Jobs(s.flushed));
    es := EndsInLoss(cfg, w, es, s, vs, NEW, 'n', Jobs(s.flushed)[1].name, Jobs(s.flushed)[1].bytes);
  }

  // ------------------------------------------ ascending ids and overlapping savers

  /** A greater id becomes visible behind the one that is stored. */
  lemma InsertBehind(cfg: Config, w: World, es: seq<Event>, s: State, x: Message, m: Message)
    returns (es': seq<Event>, s': State)
    requires IsRun(cfg, w, es) && After(cfg, es) == s && s.store == s.inserted == [x] && x.id < m.id
    ensures IsRun(cfg, w, es') && After(cfg, es') == s'
    ensures s' == s.(inserted := [x, m], store := [x, m])
  {
    es', s' := Extend(cfg, w, es, s, Insert(m));
    InsertByIdLast(s.store, m);
  }

  /** `x` is delivered in vain `n` times before `y` becomes visible, then both are. */
  lemma DeliverBoth(cfg: Config, w: World, x: Message, y: Message, n: nat) returns (es: seq<Event>, s: State)
    requires cfg.Valid() && cfg.fetchSize >= 2 && !w.settled && x.id < y.id && n > 0
    ensures IsRun(cfg, w, es) && After(cfg, es) == s
    ensures s == INIT.(inserted := [x, y], store := [x, y], log := Rep(x, n) + [x, y],
                       buffer := s.buffer, flushed := s.flushed, unresolved := s.unresolved)
    ensures Ids([x]) in s.unresolved
  {
    es, s := InsertAlone(cfg, w, [], INIT, x);
    assert s.inserted == [x];
    es, s := DeliverOver(cfg, w, es, s, x, n);
    assert s.log == Rep(x, n);
    es, s := InsertBehind(cfg, w, es, s, x, y);
    es, s := DeliverInVain(cfg, w, es, s);
  }

  /** The delete of `x` alone, sent long ago, takes effect. */
  lemma LateDelete(cfg: Config, w: World, es: seq<Event>, s: State, x: Message, y: Message)
    returns (es': seq<Event>, s': State)
    requires IsRun(cfg, w, es) && After(cfg, es) == s && s.store == [x, y] && x.id != y.id
    requires Ids([x]) in s.unresolved
    ensures IsRun(cfg, w, es') && After(cfg, es') == s' && s' == s.(store := [y])
  {
    var ids := Ids([x]);
    assert ids == [x.id];
    assert Remove([x, y], ids) == [y] by {
      assert [x, y][1..] == [y];
      assert Remove([y], ids) == [y] + Remove([y][1..], ids) == [y];
    }
    es', s' := Extend(cfg, w, es, s, Arrive(ids));
  }

  function Zs(n: nat): string { seq(n, i => 'z') }

  /** `short` ends with the line feed that falls on the only `y` of `long`. */
  ghost predicate Meets(short: string, long: string) {
    && 2 <= |short| <= |long| && short[|short| - 1] == '\n'
    && forall q :: 0 <= q < |long| && long[q] == 'y' ==> q == |short| - 1
  }

  /** Savers `a` and `b` of two chunks write the same file, and the last line feed of `a` falls
      on the only `y` in the bytes of `b`. */
  ghost predicate Collides(jobs: seq<D.Job>, a: nat, b: nat) {
    && |jobs| == 2 && a < 2 && b == 1 - a && jobs[0].name == jobs[1].name
    && Meets(jobs[a].bytes, jobs[b].bytes)
  }

  /** Nothing is in the store, in hand or written yet; `m` is in the two chunks only. */
  ghost predicate OnlyInChunks(s: State, m: Message) {
    m in s.inserted && s.store == s.hand == [] && m !in s.buffer && s.disk == D.EMPTY && |s.flushed| == 2
  }

  /** Saver `a` has written all but its last line feed when `b` opens the file and writes it. */
  function UpToLastLineFeed(jobs: seq<D.Job>, a: nat, b: nat): seq<D.SaverEvent>
    requires a < |jobs| && b < |jobs| && jobs[a].bytes != ""
  {
    D.Overtaken(jobs, a, b, |jobs[a].bytes| - 1)
  }

  lemma CollisionLeaves(jobs: seq<D.Job>, a: nat, b: nat) returns (text: string)
    requires Collides(jobs, a, b)
    ensures var vs := UpToLastLineFeed(jobs, a, b);
      && D.AllEnabled(jobs, D.EMPTY, vs) && D.RunAll(jobs, D.EMPTY, vs).files == map[jobs[a].name := text]
      && D.Finished(jobs, D.RunAll(jobs, D.EMPTY, vs), 0) && D.Finished(jobs, D.RunAll(jobs, D.EMPTY, vs), 1)
    ensures 'y' !in text
  {
    var short, long, p := jobs[a].bytes, jobs[b].bytes, |jobs[a].bytes| - 1;
    D.OvertakenLeaves(jobs, a, b, p);
    text := long[..p] + short[p..] + long[|short|..];
    NoLetterLeft(short, long);
  }

  lemma CollisionLoses(cfg: Config, w: World, es: seq<Event>, s: State, m: Message, a: nat, b: nat)
    requires !w.exclusive && IsRun(cfg, w, es) && After(cfg, es) == s && OnlyInChunks(s, m) && 'y' in m.data
    requires Collides(Jobs(s.flushed), a, b)
    ensures var all := es + AsEvents(UpToLastLineFeed(Jobs(s.flushed), a, b));
      IsRun(cfg, w, all) && !NoLoss(After(cfg, all))
  {
    var text := CollisionLeaves(Jobs(s.flushed), a, b);
    var vs := UpToLastLineFeed(Jobs(s.flushed), a, b);
    var _ := EndsInLoss(cfg, w, es, s, vs, m, 'y', Jobs(s.flushed)[a].name, text);
  }

  lemma NoLetterLeft(short: string, long: string)
    requires Meets(short, long)
    ensures 'y' !in long[..|short| - 1] + short[|short| - 1..] + long[|short|..]
  {
    assert short[|short| - 1..] == ['\n'];
  }

  lemma OneLine(m: Message)
    ensures FileBytes([m]) == Line(m)
  {
    assert [m][..0] == [];
  }

  lemma EndsWithLineFeed(ms: seq<Message>)
    requires ms != []
    ensures FileBytes(ms) != "" && FileBytes(ms)[|FileBytes(ms)| - 1] == '\n'
  {}

  // Chunks of three or more: [x, ..., x, y] and [x, y, ..., y].

  function Long(k: nat, t: nat): Message
    requires k >= 1
  {
    Message(1, Zs((k - 1) * t))
  }

  function Short(k: nat, t: nat): Message
    requires k >= 3 && t >= 1
  {
    SizeGrows(k - 2, t);
    Message(2, ['y'] + Zs((k - 2) * t - 1))
  }

  lemma LongSizes(k: nat, t: nat)
    requires k >= 3 && t >= 1
    ensures |Long(k, t).data| >= t && |Short(k, t).data| >= t && 'y' in Short(k, t).data
  {
    SizeGrows(k - 1, t);
    SizeGrows(k - 2, t);
    assert Short(k, t).data[0] == 'y';
  }

  lemma SizeGrows(n: nat, t: nat)
    requires n >= 1
    ensures n * t >= t
  {
    OneMore(n, t);
    assert (n - 1) * t >= 0;
  }

  lemma OverlapLog(cfg: Config, w: World, t: nat) returns (es: seq<Event>, s: State)
    requires cfg.Valid() && cfg.fetchSize >= 2 && cfg.chunkSize >= 3 && !w.settled && t >= 1
    ensures IsRun(cfg, w, es) && After(cfg, es) == s && s.phase.Fetching? && s.hand == [] && s.disk == D.EMPTY
    ensures var x, y, k := Long(cfg.chunkSize, t), Short(cfg.chunkSize, t), cfg.chunkSize;
      && s.log == (Rep(x, k - 1) + [y]) + ([x] + Rep(y, k - 1)) + []
      && s.inserted == [x, y] && s.store == []
  {
    var k := cfg.chunkSize;
    var x, y := Long(k, t), Short(k, t);
    es, s := DeliverBoth(cfg, w, x, y, k - 2);
    es, s := DeliverInVain(cfg, w, es, s);
    es, s := LateDelete(cfg, w, es, s, x, y);
    es, s := DeliverOver(cfg, w, es, s, y, k - 3);
    es, s := DeliverForGood(cfg, w, es, s);
    assert s.log == Rep(x, k - 2) + [x, y] + [x, y] + Rep(y, k - 3) + [y];
    OverlapParts(x, y, k);
  }

  lemma OverlapParts(x: Message, y: Message, k: nat)
    requires k >= 3
    ensures Rep(x, k - 2) + [x, y] + [x, y] + Rep(y, k - 3) + [y]
         == (Rep(x, k - 1) + [y]) + ([x] + Rep(y, k - 1)) + []
  {}

  lemma FirstBytes(x: Message, y: Message, n: nat)
    ensures FileBytes(Rep(x, n) + [y]) == FileBytes(Rep(x, n)) + Line(y)
    ensures |FileBytes([x] + Rep(y, n))| == |Line(x)| + n * |Line(y)|
  {
    OneLine(x);
    OneLine(y);
    FileBytesConcat(Rep(x, n), [y]);
    FileBytesConcat([x], Rep(y, n));
    RepLength(y, n);
  }

  /** The `y` of the first chunk stands where the second one has its last line feed. */
  lemma LongShortBytes(k: nat, t: nat) returns (front: string)
    requires k >= 3 && t >= 1
    ensures FileBytes(Rep(Long(k, t), k - 1) + [Short(k, t)]) == front + Line(Short(k, t))
    ensures |FileBytes([Long(k, t)] + Rep(Short(k, t), k - 1))| == |front| + 1
    ensures |front| > 0 && 'y' !in front
  {
    var x, y := Long(k, t), Short(k, t);
    front := FileBytes(Rep(x, k - 1));
    FirstBytes(x, y, k - 1);
    RepLacks(x, k - 1, 'y');
    RepLength(x, k - 1);
    LineLengths(k, t);
    SizeGrows(k - 1, |Line(x)|);
    PlacesMeet(k, t);
  }

  lemma LineLengths(k: nat, t: nat)
    requires k >= 3 && t >= 1
    ensures |Line(Long(k, t))| == (k - 1) * t + 1 && |Line(Short(k, t))| == (k - 2) * t + 1
  {
    SizeGrows(k - 2, t);
  }

  lemma PlacesMeet(k: nat, t: nat)
    requires k >= 3
    ensures var long, short := (k - 1) * t + 1, (k - 2) * t + 1;
      (k - 1) * long + 1 == long + (k - 1) * short
  {
    var long, short := (k - 1) * t + 1, (k - 2) * t + 1;
    assert long == short + t by { OneMore(k - 1, t); }
    assert (k - 1) * long == (k - 1) * short + (k - 1) * t;
  }

  lemma OverlapMeets(k: nat, t: nat)
    requires k >= 3 && t >= 1
    ensures Meets(FileBytes([Long(k, t)] + Rep(Short(k, t), k - 1)), FileBytes(Rep(Long(k, t), k - 1) + [Short(k, t)]))
  {
    var front := LongShortBytes(k, t);
    ShortLine(k, t);
    BytesMeet([Long(k, t)] + Rep(Short(k, t), k - 1), Rep(Long(k, t), k - 1) + [Short(k, t)], front, Short(k, t));
  }

  lemma ShortLine(k: nat, t: nat)
    requires k >= 3 && t >= 1
    ensures forall i :: 1 <= i < |Line(Short(k, t))| ==> Line(Short(k, t))[i] != 'y'
  {}

  lemma BytesMeet(a: seq<Message>, b: seq<Message>, front: string, m: Message)
    requires 'y' !in front && forall i :: 1 <= i < |Line(m)| ==> Line(m)[i] != 'y'
    requires a != [] && FileBytes(b) == front + Line(m) && |front| > 0 && |FileBytes(a)| == |front| + 1
    ensures Meets(FileBytes(a), FileBytes(b))
  {
    EndsWithLineFeed(a);
    OnlyAfter(front, Line(m));
  }

  lemma OverlapCollides(s: State, k: nat, t: nat)
    requires k >= 3 && t >= 1
    requires s.flushed == [Rep(Long(k, t), k - 1) + [Short(k, t)], [Long(k, t)] + Rep(Short(k, t), k - 1)]
    ensures Collides(Jobs(s.flushed), 1, 0)
  {
    var a, b := OverlapChunks(Long(k, t), Short(k, t), k);
    var name := TwoJobs(s, a, b, Long(k, t), 2);
    OverlapMeets(k, t);
  }

  lemma OverlapChunks(x: Message, y: Message, k: nat) returns (a: seq<Message>, b: seq<Message>)
    requires k >= 2 && x.id < y.id
    ensures a == Rep(x, k - 1) + [y] && b == [x] + Rep(y, k - 1)
    ensures x in a && x in b && LastId(a) == LastId(b) == y.id
    ensures forall m :: m in a || m in b ==> x.id <= m.id
  {
    a, b := Rep(x, k - 1) + [y], [x] + Rep(y, k - 1);
    assert a[0] == b[0] == x;
  }

  lemma OnlyAfter(front: string, line: string)
    requires 'y' !in front && forall i :: 1 <= i < |line| ==> line[i] != 'y'
    ensures forall q :: 0 <= q < |front + line| && (front + line)[q] == 'y' ==> q == |front|
  {
    forall q | 0 <= q < |front + line| && q != |front| ensures (front + line)[q] != 'y' {
      if q < |front| {
        assert front[q] in front;
      } else {
        assert (front + line)[q] == line[q - |front|];
      }
    }
  }

  // Chunks of two: [x, x] and [y, x].

  function First(t: nat): Message
    requires t >= 1
  {
    Message(1, ['y'] + Zs(t - 1))
  }

  function Second(t: nat): Message { Message(2, Zs(2 * t)) }

  lemma PairLog(cfg: Config, w: World, t: nat) returns (es: seq<Event>, s: State)
    requires cfg.Valid() && cfg.fetchSize >= 2 && cfg.chunkSize == 2 && !w.settled && t >= 1
    ensures IsRun(cfg, w, es) && After(cfg, es) == s && s.phase.Fetching? && s.hand == [] && s.disk == D.EMPTY
    ensures var x, y := First(t), Second(t);
      s.inserted == [x, y] && s.store == [] && s.flushed == [[x, x], [y, x]] && s.buffer == [y]
  {
    var x, y := First(t), Second(t);
    es, s := DeliverBoth(cfg, w, x, y, 1);
    es, s := DeliverForGood(cfg, w, es, s);
    assert s.log == [x, x] + [y, x] + [y];
    CutInTwo(cfg, w, es, s, [x, x], [y, x], [y]);
  }

  lemma PairMeets(t: nat)
    requires t >= 1
    ensures Meets(FileBytes([First(t), First(t)]), FileBytes([Second(t), First(t)]))
  {
    var x, y := First(t), Second(t);
    OneLine(x);
    OneLine(y);
    FileBytesConcat([x], [x]);
    FileBytesConcat([y], [x]);
    assert [x] + [x] == [x, x] && [y] + [x] == [y, x];
    OnlyAfter(Line(y), Line(x));
  }

  lemma PairCollides(s: State, t: nat)
    requires t >= 1 && s.flushed == [[First(t), First(t)], [Second(t), First(t)]]
    ensures Collides(Jobs(s.flushed), 0, 1)
  {
    var a, b := PairChunks(First(t), Second(t));
    var name := TwoJobs(s, a, b, First(t), 1);
    PairMeets(t);
  }

  lemma PairChunks(x: Message, y: Message) returns (a: seq<Message>, b: seq<Message>)
    requires x.id < y.id
    ensures a == [x, x] && b == [y, x] && x in a && x in b && LastId(a) == LastId(b) == x.id
    ensures forall m :: m in a || m in b ==> x.id <= m.id
  {
    a, b := [x, x], [y, x];
    assert a[0] == b[1] == x;
  }

  // Both.

  lemma LongCollision(cfg: Config, w: World, t: nat) returns (es: seq<Event>, s: State, m: Message)
    requires cfg.Valid() && cfg.fetchSize >= 2 && cfg.chunkSize >= 3 && !w.settled && t >= 1
    ensures IsRun(cfg, w, es) && After(cfg, es) == s && OnlyInChunks(s, m) && 'y' in m.data
    ensures Collides(Jobs(s.flushed), 1, 0) && forall x :: x in s.inserted ==> |x.data| >= t
  {
    var k := cfg.chunkSize;
    m := Short(k, t);
    es, s := OverlapLog(cfg, w, t);
    CutInTwo(cfg, w, es, s, Rep(Long(k, t), k - 1) + [m], [Long(k, t)] + Rep(m, k - 1), []);
    OverlapCollides(s, k, t);
    LongSizes(k, t);
  }

  lemma PairCollision(cfg: Config, w: World, t: nat) returns (es: seq<Event>, s: State, m: Message)
    requires cfg.Valid() && cfg.fetchSize >= 2 && cfg.chunkSize == 2 && !w.settled && t >= 1
    ensures IsRun(cfg, w, es) && After(cfg, es) == s && OnlyInChunks(s, m) && 'y' in m.data
    ensures Collides(Jobs(s.flushed), 0, 1) && forall x :: x in s.inserted ==> |x.data| >= t
  {
    m := First(t);
    es, s := PairLog(cfg, w, t);
    PairCollides(s, t);
    assert m.data[0] == 'y';
  }

  lemma Collision(cfg: Config, w: World, size: nat) returns (es: seq<Event>, s: State, m: Message, a: nat, b: nat)
    requires cfg.Valid() && cfg.fetchSize >= 2 && cfg.chunkSize >= 2 && !w.settled
    ensures IsRun(cfg, w, es) && After(cfg, es) == s && OnlyInChunks(s, m) && 'y' in m.data
    ensures Collides(Jobs(s.flushed), a, b) && forall x :: x in s.inserted ==> |x.data| >= size
  {
    if cfg.chunkSize == 2 {
      es, s, m := PairCollision(cfg, w, size + 1);
      a, b := 0, 1;
    } else {
      es, s, m := LongCollision(cfg, w, size + 1);
      a, b := 1, 0;
    }
  }

  /** Ascending ids do not help when two savers of one name overlap, however long the payloads
      are and however large the pieces the stream forwards: one saver has everything but its
      last line feed written when the other one opens the file and writes it all. That line
      feed then falls on the only copy of a message that is deleted already. */
  lemma LosingOverlap(cfg: Config, w: World, size: nat) returns (es: seq<Event>, vs: seq<D.SaverEvent>)
    requires cfg.Valid() && cfg.fetchSize >= 2 && cfg.chunkSize >= 2 && !w.settled && !w.exclusive
    ensures IsRun(cfg, w, es + AsEvents(vs)) && !NoLoss(After(cfg, es + AsEvents(vs)))
    ensures After(cfg, es).disk == D.EMPTY && forall x :: x in After(cfg, es).inserted ==> |x.data| >= size
    ensures exists a: nat, b: nat :: Collides(Jobs(After(cfg, es).flushed), a, b)
              && vs == UpToLastLineFeed(Jobs(After(cfg, es).flushed), a, b)
  {
    var s, m, a, b;
    es, s, m, a, b := Collision(cfg, w, size);
    CollisionLoses(cfg, w, es, s, m, a, b);
    vs := UpToLastLineFeed(Jobs(s.flushed), a, b);
  }

  // ------------------------------------------------------------------ exactly when

  /** A configuration and an environment lose nothing, in every run, if and only if every
      delete takes effect before the next fetch, or chunks hold one message, or ids become
      visible in ascending order and savers of one file do not overlap or messages are
      fetched one by one. */
  lemma LossFreeExactlyWhen(cfg: Config, w: World)
    requires cfg.Valid()
    ensures (forall es :: IsRun(cfg, w, es) ==> NoLoss(After(cfg, es)))
       <==> w.settled || cfg.chunkSize == 1 || (w.ascending && (w.exclusive || cfg.fetchSize == 1))
  {
    if w.settled || cfg.chunkSize == 1 || (w.ascending && (w.exclusive || cfg.fetchSize == 1)) {
      forall es | IsRun(cfg, w, es) ensures NoLoss(After(cfg, es)) { LossFreeRun(cfg, w, es); }
    } else {
      var es := LosingRun(cfg, w);
    }
  }

  lemma LossFreeRun(cfg: Config, w: World, es: seq<Event>)
    requires cfg.Valid() && IsRun(cfg, w, es)
    requires w.settled || cfg.chunkSize == 1 || (w.ascending && (w.exclusive || cfg.fetchSize == 1))
    ensures NoLoss(After(cfg, es))
  {
    if w.settled {
      SettledIsLossFree(cfg, w, es);
    } else if cfg.chunkSize == 1 {
      SinglesAreLossFree(cfg, w, es);
    } else if w.exclusive {
      AscendingIsLossFree(cfg, w, es);
    } else {
      OneByOneIsLossFree(cfg, w, es);
    }
  }

  lemma LosingRun(cfg: Config, w: World) returns (es: seq<Event>)
    requires cfg.Valid() && !w.settled && cfg.chunkSize >= 2
    requires !w.ascending || (!w.exclusive && cfg.fetchSize >= 2)
    ensures IsRun(cfg, w, es) && !NoLoss(After(cfg, es))
  {
    if !w.ascending {
      es := LosingLateRow(cfg, w);
    } else {
      var vs;
      es, vs := LosingOverlap(cfg, w, 0);
      es := es + AsEvents(vs);
    }
  }

  /** After the destructor and all savers, the bytes of everything that left the store are
      in the folder. */
  lemma StoppedMeansOnDisk(cfg: Config, w: World, es: seq<Event>)
    requires cfg.Valid() && IsRun(cfg, w, es)
    requires w.settled || cfg.chunkSize == 1 || (w.ascending && (w.exclusive || cfg.fetchSize == 1))
    requires After(cfg, es).phase.Stopped? && AllSaved(After(cfg, es))
    ensures var s := After(cfg, es); forall m :: m in s.inserted ==> m in s.store || OnDisk(s.flushed, s.disk, m)
  {
    LossFreeRun(cfg, w, es);
    RunKeepsInv(cfg, w, es);
    var s := After(cfg, es);
    forall m | m in s.inserted && m !in s.store ensures OnDisk(s.flushed, s.disk, m) {
      assert Safe(s, m);
    }
  }
}
