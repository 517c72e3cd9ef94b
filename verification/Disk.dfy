/** The output folder under concurrent writers, byte by byte.

    A job is what one saver thread has to do: truncate its file, then write its bytes. The
    stream between the thread and the file forwards them in pieces of any size, and every
    saver has its own file offset, so savers of the same file overwrite each other and can
    leave holes. */
module Disk {
  import opened Text

  /** A saver without bytes returns before it opens anything. */
  datatype Job = Job(name: string, bytes: string)

  /** `offsets` has an entry for each saver that opened its file: the bytes it wrote so far. */
  datatype Disk = Disk(files: map<string, string>, offsets: map<nat, nat>)

  datatype SaverEvent =
    | Open(i: nat)           // open with trunc
    | Write(i: nat, n: nat)  // the next n bytes reach the file

  const NUL := 0 as char

  /** `pwrite`: bytes beyond the end of the file that nobody wrote read as NUL. */
  function WriteAt(file: string, at: nat, data: string): string {
    seq(if |file| < at + |data| then at + |data| else |file|,
        q requires 0 <= q => if at <= q < at + |data| then data[q - at] else if q < |file| then file[q] else NUL)
  }

  function Contents(d: Disk, name: string): string { if name in d.files then d.files[name] else "" }

  predicate Active(jobs: seq<Job>, d: Disk, i: nat) {
    i < |jobs| && i in d.offsets && d.offsets[i] < |jobs[i].bytes|
  }

  predicate Finished(jobs: seq<Job>, d: Disk, i: nat) {
    i < |jobs| && (jobs[i].bytes == "" || (i in d.offsets && d.offsets[i] == |jobs[i].bytes|))
  }

  predicate Enabled(jobs: seq<Job>, d: Disk, e: SaverEvent) {
    match e
    case Open(i) => i < |jobs| && jobs[i].bytes != "" && i !in d.offsets
    case Write(i, n) => Active(jobs, d, i) && 0 < n <= |jobs[i].bytes| - d.offsets[i]
  }

  function Step(jobs: seq<Job>, d: Disk, e: SaverEvent): Disk
    requires Enabled(jobs, d, e)
  {
    match e
    case Open(i) => Disk(d.files[jobs[i].name := ""], d.offsets[i := 0])
    case Write(i, n) =>
      var at := d.offsets[i];
      var file := WriteAt(Contents(d, jobs[i].name), at, jobs[i].bytes[at..at + n]);
      Disk(d.files[jobs[i].name := file], d.offsets[i := at + n])
  }

  /** Nobody else is still writing the file that saver `i` writes. */
  predicate Alone(jobs: seq<Job>, d: Disk, i: nat)
    requires i < |jobs|
  {
    forall j :: 0 <= j < |jobs| && j != i && Active(jobs, d, j) ==> jobs[j].name != jobs[i].name
  }

  // ---------------------------------------------- what every schedule maintains

  predicate OffsetsFit(jobs: seq<Job>, d: Disk) {
    forall i :: i in d.offsets ==>
      i < |jobs| && d.offsets[i] <= |jobs[i].bytes| && jobs[i].bytes != "" && jobs[i].name in d.files
  }

  /** A byte some saver of the file writes at this position. */
  ghost predicate ByteOf(jobs: seq<Job>, name: string, q: nat, c: char) {
    exists j: nat :: j < |jobs| && jobs[j].name == name && q < |jobs[j].bytes| && jobs[j].bytes[q] == c
  }

  /** Saver `i` opened the file, and what it wrote since is still occupied by its own bytes
      or by bytes that another saver of the file writes at the same position. */
  ghost predicate Covers(jobs: seq<Job>, d: Disk, name: string, i: nat) {
    && i < |jobs| && jobs[i].name == name && i in d.offsets && d.offsets[i] <= |Contents(d, name)|
    && forall q :: 0 <= q < d.offsets[i] ==> ByteOf(jobs, name, q, Contents(d, name)[q])
  }

  ghost predicate Bounds(jobs: seq<Job>, d: Disk, name: string, i: nat) {
    i < |jobs| && jobs[i].name == name && i in d.offsets && |Contents(d, name)| <= d.offsets[i]
  }

  ghost predicate NameKept(jobs: seq<Job>, d: Disk, name: string) {
    (exists i: nat :: Covers(jobs, d, name, i)) && (exists i: nat :: Bounds(jobs, d, name, i))
  }

  /** Some saver opened this file. */
  ghost predicate Touched(jobs: seq<Job>, d: Disk, name: string) {
    exists i: nat :: i < |jobs| && i in d.offsets && jobs[i].name == name
  }

  ghost predicate Kept(jobs: seq<Job>, d: Disk) {
    OffsetsFit(jobs, d) && forall n :: Touched(jobs, d, n) ==> NameKept(jobs, d, n)
  }

  lemma OpenCovers(jobs: seq<Job>, d: Disk, i: nat)
    requires Enabled(jobs, d, Open(i))
    ensures NameKept(jobs, Step(jobs, d, Open(i)), jobs[i].name)
  {
    assert Covers(jobs, Step(jobs, d, Open(i)), jobs[i].name, i);
    assert Bounds(jobs, Step(jobs, d, Open(i)), jobs[i].name, i);
  }

  lemma WriteCovers(jobs: seq<Job>, d: Disk, k: nat, n: nat, i: nat)
    requires Enabled(jobs, d, Write(k, n)) && Covers(jobs, d, jobs[k].name, i)
    ensures Covers(jobs, Step(jobs, d, Write(k, n)), jobs[k].name, i)
  {
    var d', name, at := Step(jobs, d, Write(k, n)), jobs[k].name, d.offsets[k];
    forall q | 0 <= q < d'.offsets[i] ensures ByteOf(jobs, name, q, Contents(d', name)[q]) {
      if at <= q < at + n {
        assert Contents(d', name)[q] == jobs[k].bytes[q];
      } else {
        assert Contents(d', name)[q] == Contents(d, name)[q];
      }
    }
  }

  lemma WriteBounds(jobs: seq<Job>, d: Disk, k: nat, n: nat, i: nat)
    requires Enabled(jobs, d, Write(k, n)) && Bounds(jobs, d, jobs[k].name, i)
    ensures exists j: nat :: Bounds(jobs, Step(jobs, d, Write(k, n)), jobs[k].name, j)
  {
    var d' := Step(jobs, d, Write(k, n));
    assert Bounds(jobs, d', jobs[k].name, i) || Bounds(jobs, d', jobs[k].name, k);
  }

  lemma OtherNameKept(jobs: seq<Job>, d: Disk, e: SaverEvent, name: string)
    requires Enabled(jobs, d, e) && jobs[e.i].name != name && NameKept(jobs, d, name)
    ensures NameKept(jobs, Step(jobs, d, e), name)
  {
    var d' := Step(jobs, d, e);
    var i: nat :| Covers(jobs, d, name, i);
    assert Contents(d', name) == Contents(d, name);
    assert Covers(jobs, d', name, i);
    var j: nat :| Bounds(jobs, d, name, j);
    assert Bounds(jobs, d', name, j);
  }

  lemma OwnNameKept(jobs: seq<Job>, d: Disk, e: SaverEvent)
    requires Kept(jobs, d) && Enabled(jobs, d, e)
    ensures NameKept(jobs, Step(jobs, d, e), jobs[e.i].name)
  {
    match e
    case Open(i) => OpenCovers(jobs, d, i);
    case Write(k, n) =>
      assert Touched(jobs, d, jobs[k].name);
      var i: nat :| Covers(jobs, d, jobs[k].name, i);
      WriteCovers(jobs, d, k, n, i);
      var j: nat :| Bounds(jobs, d, jobs[k].name, j);
      WriteBounds(jobs, d, k, n, j);
  }

  lemma OtherTouched(jobs: seq<Job>, d: Disk, e: SaverEvent, name: string)
    requires Enabled(jobs, d, e) && jobs[e.i].name != name && Touched(jobs, Step(jobs, d, e), name)
    ensures Touched(jobs, d, name)
  {}

  lemma StepKeepsFiles(jobs: seq<Job>, d: Disk, e: SaverEvent)
    requires Kept(jobs, d) && Enabled(jobs, d, e)
    ensures Kept(jobs, Step(jobs, d, e))
  {
    var d' := Step(jobs, d, e);
    OwnNameKept(jobs, d, e);
    forall n | Touched(jobs, d', n) ensures NameKept(jobs, d', n) {
      if n != jobs[e.i].name {
        OtherTouched(jobs, d, e, n);
        OtherNameKept(jobs, d, e, n);
      }
    }
  }

  lemma SpawnTouches(jobs: seq<Job>, jobs': seq<Job>, d: Disk, name: string)
    requires jobs <= jobs' && OffsetsFit(jobs, d) && Touched(jobs', d, name)
    ensures Touched(jobs, d, name)
  {}

  lemma TouchedAfterSpawn(jobs: seq<Job>, jobs': seq<Job>, d: Disk, name: string)
    requires jobs <= jobs' && Touched(jobs, d, name)
    ensures Touched(jobs', d, name)
  {
    var i: nat :| i < |jobs| && i in d.offsets && jobs[i].name == name;
    assert jobs'[i] == jobs[i];
  }

  lemma NameSurvivesSpawns(jobs: seq<Job>, jobs': seq<Job>, d: Disk, name: string)
    requires jobs <= jobs' && NameKept(jobs, d, name)
    ensures NameKept(jobs', d, name)
  {
    var i: nat :| Covers(jobs, d, name, i);
    forall q | 0 <= q < d.offsets[i] ensures ByteOf(jobs', name, q, Contents(d, name)[q]) {
      var c := Contents(d, name)[q];
      assert ByteOf(jobs, name, q, c);
      var j: nat :| j < |jobs| && jobs[j].name == name && q < |jobs[j].bytes| && jobs[j].bytes[q] == c;
      assert jobs'[j] == jobs[j];
    }
    assert Covers(jobs', d, name, i);
    var j: nat :| Bounds(jobs, d, name, j);
    assert Bounds(jobs', d, name, j);
  }

  lemma SpawnKeepsFiles(jobs: seq<Job>, jobs': seq<Job>, d: Disk)
    requires jobs <= jobs' && Kept(jobs, d)
    ensures Kept(jobs', d)
  {
    forall n | Touched(jobs', d, n) ensures NameKept(jobs', d, n) {
      SpawnTouches(jobs, jobs', d, n);
      NameSurvivesSpawns(jobs, jobs', d, n);
    }
  }

  // ------------------------------------------------ what that says about contents

  /** Whatever the schedule: what every saver of a file writes at the same place is there
      once the savers are done with it. */
  lemma SharedPartStays(jobs: seq<Job>, d: Disk, name: string, i: nat, part: string, p: nat)
    requires Covers(jobs, d, name, i) && Finished(jobs, d, i)
    requires forall j :: 0 <= j < |jobs| && jobs[j].name == name ==> HoldsAt(jobs[j].bytes, part, p)
    ensures HoldsAt(Contents(d, name), part, p)
  {
    var file := Contents(d, name);
    forall q | p <= q < p + |part| ensures file[q] == part[q - p] {
      assert ByteOf(jobs, name, q, file[q]);
      var j: nat :| j < |jobs| && jobs[j].name == name && q < |jobs[j].bytes| && jobs[j].bytes[q] == file[q];
      ByteOfPart(jobs[j].bytes, part, p, q);
    }
  }

  lemma Toucher(jobs: seq<Job>, d: Disk, n: string) returns (i: nat)
    requires Touched(jobs, d, n)
    ensures i < |jobs| && jobs[i].name == n
  {
    i :| i < |jobs| && i in d.offsets && jobs[i].name == n;
  }

  /** The saver whose progress vouches for a file that was written. */
  lemma Witness(jobs: seq<Job>, d: Disk, j: nat) returns (i: nat)
    requires Kept(jobs, d) && Finished(jobs, d, j) && jobs[j].bytes != ""
    ensures jobs[j].name in d.files && i < |jobs| && Covers(jobs, d, jobs[j].name, i)
    ensures NameKept(jobs, d, jobs[j].name)
  {
    assert Touched(jobs, d, jobs[j].name);
    i :| Covers(jobs, d, jobs[j].name, i);
  }

  /** If all savers of a file write the same bytes and are done, the file is those bytes. */
  lemma AgreedContents(jobs: seq<Job>, d: Disk, name: string, bytes: string)
    requires NameKept(jobs, d, name)
    requires forall j :: 0 <= j < |jobs| && jobs[j].name == name ==> jobs[j].bytes == bytes && Finished(jobs, d, j)
    requires OffsetsFit(jobs, d)
    ensures Contents(d, name) == bytes
  {
    var i: nat :| Covers(jobs, d, name, i);
    var j: nat :| Bounds(jobs, d, name, j);
    SharedPartStays(jobs, d, name, i, bytes, 0);
    assert Contents(d, name)[0..|bytes|] == Contents(d, name);
  }

  // ------------------------------------------------- savers that do not overlap

  /** The file is what saver `i` wrote so far, and no other saver is writing it. */
  ghost predicate Owns(jobs: seq<Job>, d: Disk, name: string, i: nat) {
    && i < |jobs| && jobs[i].name == name && i in d.offsets && d.offsets[i] <= |jobs[i].bytes|
    && Contents(d, name) == jobs[i].bytes[..d.offsets[i]]
    && Alone(jobs, d, i)
  }

  ghost predicate Owned(jobs: seq<Job>, d: Disk) {
    forall n :: Touched(jobs, d, n) ==> exists i: nat :: Owns(jobs, d, n, i)
  }

  lemma OpenOwns(jobs: seq<Job>, d: Disk, i: nat)
    requires Enabled(jobs, d, Open(i)) && Alone(jobs, d, i)
    ensures Owns(jobs, Step(jobs, d, Open(i)), jobs[i].name, i)
  {
    var d' := Step(jobs, d, Open(i));
    forall j: nat | Active(jobs, d', j) && j != i ensures jobs[j].name != jobs[i].name {
      assert Active(jobs, d, j);
    }
  }

  lemma WriteOwns(jobs: seq<Job>, d: Disk, k: nat, n: nat, i: nat)
    requires Enabled(jobs, d, Write(k, n)) && Owns(jobs, d, jobs[k].name, i)
    ensures Owns(jobs, Step(jobs, d, Write(k, n)), jobs[k].name, k)
  {
    assert i == k;
    var d', at := Step(jobs, d, Write(k, n)), d.offsets[k];
    assert WriteAt(jobs[k].bytes[..at], at, jobs[k].bytes[at..at + n]) == jobs[k].bytes[..at + n];
    forall j: nat | Active(jobs, d', j) && j != k ensures jobs[j].name != jobs[k].name {
      assert Active(jobs, d, j);
    }
  }

  lemma OtherOwned(jobs: seq<Job>, d: Disk, e: SaverEvent, name: string, i: nat)
    requires Enabled(jobs, d, e) && jobs[e.i].name != name && Owns(jobs, d, name, i)
    ensures Owns(jobs, Step(jobs, d, e), name, i)
  {
    var d' := Step(jobs, d, e);
    forall j: nat | Active(jobs, d', j) && j != i ensures jobs[j].name != name {
      if j != e.i { assert Active(jobs, d, j); }
    }
  }

  lemma OwnOwned(jobs: seq<Job>, d: Disk, e: SaverEvent)
    requires Owned(jobs, d) && Enabled(jobs, d, e) && (e.Open? ==> Alone(jobs, d, e.i))
    ensures exists i: nat :: Owns(jobs, Step(jobs, d, e), jobs[e.i].name, i)
  {
    match e
    case Open(i) => OpenOwns(jobs, d, i);
    case Write(k, n) =>
      assert Touched(jobs, d, jobs[k].name);
      var i: nat :| Owns(jobs, d, jobs[k].name, i);
      WriteOwns(jobs, d, k, n, i);
  }

  lemma StepKeepsOwned(jobs: seq<Job>, d: Disk, e: SaverEvent)
    requires Owned(jobs, d) && Enabled(jobs, d, e) && (e.Open? ==> Alone(jobs, d, e.i))
    ensures Owned(jobs, Step(jobs, d, e))
  {
    var d' := Step(jobs, d, e);
    OwnOwned(jobs, d, e);
    forall n | Touched(jobs, d', n) ensures exists i: nat :: Owns(jobs, d', n, i) {
      if n != jobs[e.i].name {
        OtherTouched(jobs, d, e, n);
        var i: nat :| Owns(jobs, d, n, i);
        OtherOwned(jobs, d, e, n, i);
      }
    }
  }

  lemma OwnsSurvivesSpawns(jobs: seq<Job>, jobs': seq<Job>, d: Disk, name: string, i: nat)
    requires jobs <= jobs' && OffsetsFit(jobs, d) && Owns(jobs, d, name, i)
    ensures Owns(jobs', d, name, i)
  {
    forall j: nat | Active(jobs', d, j) && j != i ensures jobs'[j].name != jobs'[i].name {
      assert Active(jobs, d, j);
    }
  }

  lemma SpawnKeepsOwned(jobs: seq<Job>, jobs': seq<Job>, d: Disk)
    requires jobs <= jobs' && OffsetsFit(jobs, d) && Owned(jobs, d)
    ensures Owned(jobs', d)
  {
    forall n | Touched(jobs', d, n) ensures exists i: nat :: Owns(jobs', d, n, i) {
      SpawnTouches(jobs, jobs', d, n);
      var i: nat :| Owns(jobs, d, n, i);
      OwnsSurvivesSpawns(jobs, jobs', d, n, i);
    }
  }

  /** The saver that owns a file, and whose bytes the file is once it is done. */
  lemma Owner(jobs: seq<Job>, d: Disk, j: nat) returns (i: nat)
    requires OffsetsFit(jobs, d) && Owned(jobs, d) && Finished(jobs, d, j) && jobs[j].bytes != ""
    ensures i < |jobs| && jobs[i].name == jobs[j].name && jobs[j].name in d.files
    ensures Finished(jobs, d, i) ==> d.files[jobs[j].name] == jobs[i].bytes
  {
    assert Touched(jobs, d, jobs[j].name);
    i :| Owns(jobs, d, jobs[j].name, i);
  }

  // -------------------------------------------------------------------- schedules

  /** Disabled events are skipped; `AllEnabled` says there are none. */
  function RunAll(jobs: seq<Job>, d: Disk, es: seq<SaverEvent>): Disk {
    if es == [] then d else
    var before, e := RunAll(jobs, d, es[..|es| - 1]), es[|es| - 1];
    if Enabled(jobs, before, e) then Step(jobs, before, e) else before
  }

  predicate AllEnabled(jobs: seq<Job>, d: Disk, es: seq<SaverEvent>) {
    es == [] || (AllEnabled(jobs, d, es[..|es| - 1])
                 && Enabled(jobs, RunAll(jobs, d, es[..|es| - 1]), es[|es| - 1]))
  }

  lemma {:induction false} RunKeepsFiles(jobs: seq<Job>, d: Disk, es: seq<SaverEvent>)
    requires Kept(jobs, d) && AllEnabled(jobs, d, es)
    ensures Kept(jobs, RunAll(jobs, d, es))
  {
    if es != [] {
      RunKeepsFiles(jobs, d, es[..|es| - 1]);
      StepKeepsFiles(jobs, RunAll(jobs, d, es[..|es| - 1]), es[|es| - 1]);
    }
  }

  /** A saver without a chunk does nothing. */
  lemma {:induction false} EmptyJobIsIdle(jobs: seq<Job>, d: Disk, es: seq<SaverEvent>)
    requires AllEnabled(jobs + [Job("", "")], d, es)
    ensures AllEnabled(jobs, d, es) && RunAll(jobs, d, es) == RunAll(jobs + [Job("", "")], d, es)
  {
    if es != [] { EmptyJobIsIdle(jobs, d, es[..|es| - 1]); }
  }

  /** Savers touch no file but their own. */
  lemma {:induction false} RunKeepsOthers(jobs: seq<Job>, d: Disk, es: seq<SaverEvent>, n: string)
    requires AllEnabled(jobs, d, es) && forall j :: 0 <= j < |jobs| ==> jobs[j].name != n
    ensures var d' := RunAll(jobs, d, es);
      (n in d'.files <==> n in d.files) && Contents(d', n) == Contents(d, n)
  {
    if es != [] { RunKeepsOthers(jobs, d, es[..|es| - 1], n); }
  }

  /** No file is opened while another saver is writing it. */
  predicate AllAlone(jobs: seq<Job>, d: Disk, es: seq<SaverEvent>) {
    es == [] || (AllAlone(jobs, d, es[..|es| - 1])
                 && (es[|es| - 1].Open? && es[|es| - 1].i < |jobs| ==>
                       Alone(jobs, RunAll(jobs, d, es[..|es| - 1]), es[|es| - 1].i)))
  }

  lemma RunOneMore(jobs: seq<Job>, d: Disk, es: seq<SaverEvent>, e: SaverEvent)
    requires AllEnabled(jobs, d, es) && Enabled(jobs, RunAll(jobs, d, es), e)
    ensures AllEnabled(jobs, d, es + [e])
    ensures RunAll(jobs, d, es + [e]) == Step(jobs, RunAll(jobs, d, es), e)
    ensures AllAlone(jobs, d, es + [e])
       <==> AllAlone(jobs, d, es) && (e.Open? ==> Alone(jobs, RunAll(jobs, d, es), e.i))
  {
    assert (es + [e])[..|es|] == es;
  }

  lemma OpenAndWrite(jobs: seq<Job>, d: Disk, i: nat)
    requires Enabled(jobs, d, Open(i))
    ensures var emptied, job := Step(jobs, d, Open(i)), jobs[i];
      && Enabled(jobs, emptied, Write(i, |job.bytes|))
      && Step(jobs, emptied, Write(i, |job.bytes|)) == Disk(d.files[job.name := job.bytes], d.offsets[i := |job.bytes|])
  {
    var emptied, job := Step(jobs, d, Open(i)), jobs[i];
    assert WriteAt("", 0, job.bytes[0..0 + |job.bytes|]) == job.bytes;
    var written := Step(jobs, emptied, Write(i, |job.bytes|));
    assert written.files == d.files[job.name := job.bytes];
    assert written.offsets == d.offsets[i := |job.bytes|];
  }

  /** A saver that starts on an existing or missing file and runs to its end. */
  lemma WholeSave(jobs: seq<Job>, d: Disk, es: seq<SaverEvent>, i: nat) returns (es': seq<SaverEvent>)
    requires AllEnabled(jobs, d, es) && Enabled(jobs, RunAll(jobs, d, es), Open(i))
    ensures es' == es + [Open(i), Write(i, |jobs[i].bytes|)] && AllEnabled(jobs, d, es')
    ensures var before, job := RunAll(jobs, d, es), jobs[i];
      RunAll(jobs, d, es') == Disk(before.files[job.name := job.bytes], before.offsets[i := |job.bytes|])
    ensures AllAlone(jobs, d, es') <==> AllAlone(jobs, d, es) && Alone(jobs, RunAll(jobs, d, es), i)
  {
    RunOneMore(jobs, d, es, Open(i));
    OpenAndWrite(jobs, RunAll(jobs, d, es), i);
    RunOneMore(jobs, d, es + [Open(i)], Write(i, |jobs[i].bytes|));
    es' := es + [Open(i)] + [Write(i, |jobs[i].bytes|)];
  }

  const EMPTY := Disk(map[], map[])

  /** Two savers of one file, the second after the first. */
  lemma OneAfterOther(jobs: seq<Job>) returns (es: seq<SaverEvent>)
    requires |jobs| == 2 && jobs[0].name == jobs[1].name && jobs[0].bytes != "" && jobs[1].bytes != ""
    ensures AllEnabled(jobs, EMPTY, es) && AllAlone(jobs, EMPTY, es)
    ensures var d := RunAll(jobs, EMPTY, es);
      d.files == map[jobs[1].name := jobs[1].bytes] && Finished(jobs, d, 0) && Finished(jobs, d, 1)
  {
    es := WholeSave(jobs, EMPTY, [], 0);
    var d := RunAll(jobs, EMPTY, es);
    assert d == Disk(map[jobs[0].name := jobs[0].bytes], map[0 := |jobs[0].bytes|]);
    assert Alone(jobs, d, 1);
    es := WholeSave(jobs, EMPTY, es, 1);
    assert RunAll(jobs, EMPTY, es).files == map[jobs[1].name := jobs[1].bytes];
  }

  /** Saver `a` is overtaken after `p` bytes by saver `b` of the same file, then goes on. */
  function Overtaken(jobs: seq<Job>, a: nat, b: nat, p: nat): seq<SaverEvent>
    requires a < |jobs| && b < |jobs| && p < |jobs[a].bytes|
  {
    [Open(a), Write(a, p)] + [Open(b), Write(b, |jobs[b].bytes|)] + [Write(a, |jobs[a].bytes| - p)]
  }

  lemma Halfway(jobs: seq<Job>, a: nat, p: nat)
    requires a < |jobs| && 0 < p < |jobs[a].bytes|
    ensures AllEnabled(jobs, EMPTY, [Open(a), Write(a, p)])
    ensures RunAll(jobs, EMPTY, [Open(a), Write(a, p)]) == Disk(map[jobs[a].name := jobs[a].bytes[..p]], map[a := p])
  {
    RunOneMore(jobs, EMPTY, [], Open(a));
    assert [] + [Open(a)] == [Open(a)];
    RunOneMore(jobs, EMPTY, [Open(a)], Write(a, p));
    assert [Open(a)] + [Write(a, p)] == [Open(a), Write(a, p)];
    assert WriteAt("", 0, jobs[a].bytes[0..p]) == jobs[a].bytes[..p];
  }

  lemma WriteInside(s: string, t: string, p: nat)
    requires p < |s| <= |t|
    ensures WriteAt(t, p, s[p..p + (|s| - p)]) == t[..p] + s[p..] + t[|s|..]
  {}

  lemma LastWrite(jobs: seq<Job>, d: Disk, a: nat, p: nat, t: string)
    requires a < |jobs| && jobs[a].name in d.files && d.files[jobs[a].name] == t
    requires a in d.offsets && d.offsets[a] == p && 0 < p < |jobs[a].bytes| <= |t|
    ensures Enabled(jobs, d, Write(a, |jobs[a].bytes| - p))
    ensures var s := jobs[a].bytes;
      Step(jobs, d, Write(a, |s| - p))
        == Disk(d.files[jobs[a].name := t[..p] + s[p..] + t[|s|..]], d.offsets[a := |s|])
  {
    WriteInside(jobs[a].bytes, t, p);
  }

  lemma LastUpdateWins(n: string, x: string, y: string, z: string)
    ensures map[n := x][n := y][n := z] == map[n := z]
  {}

  lemma OvertakenLeaves(jobs: seq<Job>, a: nat, b: nat, p: nat)
    requires a < |jobs| && b < |jobs| && a != b && jobs[a].name == jobs[b].name
    requires 0 < p < |jobs[a].bytes| <= |jobs[b].bytes|
    ensures AllEnabled(jobs, EMPTY, Overtaken(jobs, a, b, p))
    ensures var s, t := jobs[a].bytes, jobs[b].bytes;
      RunAll(jobs, EMPTY, Overtaken(jobs, a, b, p)).files == map[jobs[a].name := t[..p] + s[p..] + t[|s|..]]
    ensures var d := RunAll(jobs, EMPTY, Overtaken(jobs, a, b, p)); Finished(jobs, d, a) && Finished(jobs, d, b)
  {
    Halfway(jobs, a, p);
    var es := WholeSave(jobs, EMPTY, [Open(a), Write(a, p)], b);
    var d := RunAll(jobs, EMPTY, es);
    LastWrite(jobs, d, a, p, jobs[b].bytes);
    RunOneMore(jobs, EMPTY, es, Write(a, |jobs[a].bytes| - p));
    LastUpdateWins(jobs[a].name, jobs[a].bytes[..p], jobs[b].bytes,
                   jobs[b].bytes[..p] + jobs[a].bytes[p..] + jobs[b].bytes[|jobs[a].bytes|..]);
  }
}
