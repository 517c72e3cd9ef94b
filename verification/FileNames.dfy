/** Names and contents of the files a chunk of messages is saved to. */
module FileNames {
  import opened Text
  import opened Messages
  import D = Disk

  const NAME_WIDTH: nat := 19

  function FileName(lo: nat, hi: nat): string { Padded(lo, NAME_WIDTH) + ['-'] + Padded(hi, NAME_WIDTH) }

  /** The dash of a name can be found again. */
  lemma DashInName(lo: nat, hi: nat)
    ensures var name, n := FileName(lo, hi), |Padded(lo, NAME_WIDTH)|;
      && n < |name| && name[n] == '-' && (forall i :: 0 <= i < n ==> IsDigit(name[i]))
      && name[..n] == Padded(lo, NAME_WIDTH) && name[n + 1..] == Padded(hi, NAME_WIDTH)
  {
    PaddedValue(lo, NAME_WIDTH);
  }

  /** Padding never truncates, so a name determines both ids, whatever their size. */
  lemma NameInjective(a: nat, b: nat, c: nat, d: nat)
    requires FileName(a, b) == FileName(c, d)
    ensures a == c && b == d
  {
    DashInName(a, b);
    DashInName(c, d);
    DashSplitsOnce(FileName(a, b), |Padded(a, NAME_WIDTH)|, |Padded(c, NAME_WIDTH)|);
    PaddedInjective(a, c);
    PaddedInjective(b, d);
  }

  lemma PaddedInjective(m: nat, n: nat)
    requires Padded(m, NAME_WIDTH) == Padded(n, NAME_WIDTH)
    ensures m == n
  {
    PaddedValue(m, NAME_WIDTH);
    PaddedValue(n, NAME_WIDTH);
  }

  /** A name is decimal text of at least 19 digits, a dash, and decimal text again, with zeros in
      front only up to that width. */
  lemma NameText(lo: nat, hi: nat) returns (n: nat)
    ensures var name := FileName(lo, hi);
      && 19 <= n && n + 20 <= |name| && name[n] == '-'
      && AllDigits(name[..n]) && Value(name[..n]) == lo && (n > 19 ==> name[..n] == Print(lo))
      && AllDigits(name[n + 1..]) && Value(name[n + 1..]) == hi && (|name| > n + 20 ==> name[n + 1..] == Print(hi))
  {
    DashInName(lo, hi);
    PaddedValue(lo, NAME_WIDTH);
    PaddedValue(hi, NAME_WIDTH);
    n := |Padded(lo, NAME_WIDTH)|;
  }

  // ---------------------------------------------------------- order of names

  const WIDE := 10_000_000_000_000_000_000  // the least id that needs a twentieth digit

  /** A 19-digit and a 20-digit id compare by their first 19 digits only. */
  predicate Comparable(x: nat, y: nat) {
    || (x < WIDE <==> y < WIDE)
    || (if x < y then x <= y / 10 else y <= x / 10)
  }

  lemma PaddedWidth(n: nat)
    requires n < WORD
    ensures |Padded(n, NAME_WIDTH)| == if n < WIDE then 19 else 20
    ensures n >= WIDE ==> Padded(n, NAME_WIDTH) == Print(n)
  {
    PaddedValue(n, NAME_WIDTH);
    PrintWidth(n, 19);
    PrintWidth(n, 20);
    TwentyDigits();
  }

  lemma TwentyDigits()
    ensures Pow10(19) == WIDE && Pow10(20) == 10 * WIDE
  {
    assert Pow10(5) == 100_000;
    assert Pow10(10) == 10_000_000_000;
    assert Pow10(15) == 1_000_000_000_000_000;
  }

  /** What follows an id inside a name: nothing, or the dash. */
  predicate Tail(u: string) { u == [] || u[0] == '-' }

  lemma EqualWidthOrder(x: nat, y: nat, u: string, v: string)
    requires x < y < WORD && (x < WIDE <==> y < WIDE)
    ensures LexLess(Padded(x, NAME_WIDTH) + u, Padded(y, NAME_WIDTH) + v)
    ensures !LexLess(Padded(y, NAME_WIDTH) + v, Padded(x, NAME_WIDTH) + u)
  {
    var s, t := Padded(x, NAME_WIDTH), Padded(y, NAME_WIDTH);
    PaddedWidth(x);
    PaddedWidth(y);
    PaddedValue(x, NAME_WIDTH);
    PaddedValue(y, NAME_WIDTH);
    DigitOrder(s, t);
    DigitOrder(t, s);
    LexAppend(s, t, u, v);
    LexAppend(t, s, v, u);
  }

  lemma MixedWidthOrder(x: nat, y: nat, u: string, v: string)
    requires x < WIDE <= y < WORD && Tail(u)
    ensures LexLess(Padded(x, NAME_WIDTH) + u, Padded(y, NAME_WIDTH) + v) <==> x <= y / 10
    ensures LexLess(Padded(y, NAME_WIDTH) + v, Padded(x, NAME_WIDTH) + u) <==> !(x <= y / 10)
  {
    var s, t, d := Padded(x, NAME_WIDTH), Print(y / 10), DigitChar(y % 10);
    PaddedWidth(x);
    PaddedWidth(y);
    PaddedValue(x, NAME_WIDTH);
    PrintValue(y / 10);
    assert Padded(y, NAME_WIDTH) + v == t + ([d] + v);
    DigitOrder(s, t);
    DigitOrder(t, s);
    LexAppend(s, t, u, [d] + v);
    LexAppend(t, s, [d] + v, u);
    assert ([d] + v)[0] == d;
  }

  lemma PaddedOrder(x: nat, y: nat, u: string, v: string)
    requires x < WORD && y < WORD && x != y && Tail(u) && Tail(v)
    ensures (LexLess(Padded(x, NAME_WIDTH) + u, Padded(y, NAME_WIDTH) + v) <==> x < y) <==> Comparable(x, y)
  {
    if x < WIDE <==> y < WIDE {
      if x < y { EqualWidthOrder(x, y, u, v); } else { EqualWidthOrder(y, x, v, u); }
    } else if x < WIDE {
      MixedWidthOrder(x, y, u, v);
    } else {
      MixedWidthOrder(y, x, v, u);
    }
  }

  /** Names of 64-bit ids list in the order of (lowest id, last id) if and only if the
      deciding pair of ids is comparable. */
  lemma NameOrder(a: nat, b: nat, c: nat, d: nat)
    requires a < WORD && b < WORD && c < WORD && d < WORD
    ensures (LexLess(FileName(a, b), FileName(c, d)) <==> a < c || (a == c && b < d))
       <==> (if a != c then Comparable(a, c) else Comparable(b, d))
  {
    var u, v := ['-'] + Padded(b, NAME_WIDTH), ['-'] + Padded(d, NAME_WIDTH);
    assert FileName(a, b) == Padded(a, NAME_WIDTH) + u && FileName(c, d) == Padded(c, NAME_WIDTH) + v;
    if a != c {
      PaddedOrder(a, c, u, v);
    } else {
      SameFirstId(a, b, d);
      LastIdOrder(b, d);
    }
  }

  lemma SameFirstId(a: nat, b: nat, d: nat)
    ensures LexLess(FileName(a, b), FileName(a, d)) <==> LexLess(Padded(b, NAME_WIDTH), Padded(d, NAME_WIDTH))
  {
    var s, u, v := Padded(a, NAME_WIDTH), ['-'] + Padded(b, NAME_WIDTH), ['-'] + Padded(d, NAME_WIDTH);
    assert FileName(a, b) == s + u && FileName(a, d) == s + v;
    LexIrreflexive(s);
    LexAppend(s, s, u, v);
    LexIrreflexive(['-']);
    LexAppend(['-'], ['-'], Padded(b, NAME_WIDTH), Padded(d, NAME_WIDTH));
  }

  lemma LastIdOrder(b: nat, d: nat)
    requires b < WORD && d < WORD
    ensures (LexLess(Padded(b, NAME_WIDTH), Padded(d, NAME_WIDTH)) <==> b < d) <==> Comparable(b, d)
  {
    if b == d {
      LexIrreflexive(Padded(b, NAME_WIDTH));
    } else {
      PaddedOrder(b, d, [], []);
      assert Padded(b, NAME_WIDTH) + [] == Padded(b, NAME_WIDTH);
      assert Padded(d, NAME_WIDTH) + [] == Padded(d, NAME_WIDTH);
    }
  }

  /** From about the year 2045 on, neighbouring ids can list the wrong way round. */
  lemma NamesMisorder()
    ensures WIDE - 1 < WIDE < WORD && LexLess(FileName(WIDE, WIDE), FileName(WIDE - 1, WIDE - 1))
  {
    NameOrder(WIDE - 1, WIDE - 1, WIDE, WIDE);
    NameOrder(WIDE, WIDE, WIDE - 1, WIDE - 1);
  }

  // ------------------------------------------------------------------ chunks

  function MinId(ms: seq<Message>): (id: nat)
    requires ms != []
    ensures exists m :: m in ms && m.id == id
    ensures forall m :: m in ms ==> id <= m.id
  {
    if |ms| == 1 then assert ms[0] in ms; ms[0].id
    else
      var rest := MinId(ms[..|ms| - 1]);
      var last := ms[|ms| - 1];
      assert ms == ms[..|ms| - 1] + [last];
      if last.id < rest then last.id else rest
  }

  function LastId(ms: seq<Message>): nat
    requires ms != []
  {
    ms[|ms| - 1].id
  }

  function ChunkName(ms: seq<Message>): string
    requires ms != []
  {
    FileName(MinId(ms), LastId(ms))
  }

  lemma EqualNames(a: seq<Message>, b: seq<Message>)
    requires a != [] && b != [] && ChunkName(a) == ChunkName(b)
    ensures MinId(a) == MinId(b) && LastId(a) == LastId(b)
  {
    NameInjective(MinId(a), LastId(a), MinId(b), LastId(b));
  }

  /** Ascending chunks, the kind a Redis run without redelivery produces, are named by
      their true extremes. */
  lemma AscendingBracket(ms: seq<Message>)
    requires ms != [] && Ascending(ms)
    ensures MinId(ms) == ms[0].id
    ensures forall m :: m in ms ==> MinId(ms) <= m.id <= LastId(ms)
  {
    assert ms[0] in ms;
  }

  /** A payload as it is saved. */
  function Line(m: Message): string { m.data + ['\n'] }

  /** The payloads, each followed by a line feed. */
  function FileBytes(ms: seq<Message>): string {
    if ms == [] then [] else FileBytes(ms[..|ms| - 1]) + Line(ms[|ms| - 1])
  }

  lemma FileBytesAppend(ms: seq<Message>, m: Message)
    ensures FileBytes(ms + [m]) == FileBytes(ms) + Line(m)
  {
    assert (ms + [m])[..|ms|] == ms;
  }

  lemma {:induction false} FileBytesConcat(a: seq<Message>, b: seq<Message>)
    ensures FileBytes(a + b) == FileBytes(a) + FileBytes(b)
  {
    if b == [] {
      assert a + b == a;
    } else {
      var n := |b| - 1;
      var front := b[..n];
      FileBytesConcat(a, front);
      FileBytesAppend(a + front, b[n]);
      FileBytesAppend(front, b[n]);
      assert front + [b[n]] == b && a + front + [b[n]] == a + b;
      Grouped(FileBytes(a), FileBytes(front), Line(b[n]));
    }
  }

  lemma Grouped(x: string, y: string, z: string)
    ensures x + y + z == x + (y + z)
  {}

  lemma FileBytesPush(ms: seq<Message>, k: nat)
    requires k < |ms|
    ensures FileBytes(ms[..k + 1]) == FileBytes(ms[..k]) + Line(ms[k])
  {
    assert ms[..k + 1][..k] == ms[..k];
  }

  lemma FileBytesPrefix(ms: seq<Message>, k: nat)
    requires k < |ms|
    ensures FileBytes(ms[..k + 1]) == FileBytes(ms[..k]) + Line(ms[k]) <= FileBytes(ms)
  {
    FileBytesPush(ms, k);
    FileBytesConcat(ms[..k + 1], ms[k + 1..]);
    assert ms[..k + 1] + ms[k + 1..] == ms;
  }

  lemma PartHolds(text: string, front: string, part: string)
    requires front + part <= text
    ensures HoldsAt(text, part, |front|)
  {
    assert (front + part)[|front|..] == part;
  }

  /** Where message `k` of a chunk begins in its file: each message before it takes its payload
      and one byte. */
  function Place(ms: seq<Message>, k: nat): nat
    requires k <= |ms|
  {
    if k == 0 then 0 else Place(ms, k - 1) + |ms[k - 1].data| + 1
  }

  lemma {:induction false} PlaceIsLength(ms: seq<Message>, k: nat)
    requires k <= |ms|
    ensures Place(ms, k) == |FileBytes(ms[..k])|
  {
    if k > 0 {
      PlaceIsLength(ms, k - 1);
      FileBytesPush(ms, k - 1);
    }
  }

  lemma FileLength(ms: seq<Message>)
    ensures |FileBytes(ms)| == Place(ms, |ms|)
  {
    PlaceIsLength(ms, |ms|);
    assert ms[..|ms|] == ms;
  }

  /** Every payload of a saved chunk is in its bytes as it was, where its predecessors end; a line
      feed follows, then the next payload, and nothing else is in the file. */
  lemma FileHoldsPayload(ms: seq<Message>, k: nat)
    requires k < |ms|
    ensures HoldsAt(FileBytes(ms), ms[k].data, Place(ms, k))
    ensures Place(ms, k + 1) == Place(ms, k) + |ms[k].data| + 1 <= |FileBytes(ms)| == Place(ms, |ms|)
    ensures FileBytes(ms)[Place(ms, k) + |ms[k].data|] == '\n'
    ensures HoldsAt(FileBytes(ms), ms[k].data + ['\n'], Place(ms, k))
  {
    FileBytesPrefix(ms, k);
    PlaceIsLength(ms, k);
    FileLength(ms);
    PartHolds(FileBytes(ms), FileBytes(ms[..k]), Line(ms[k]));
    LineHolds(FileBytes(ms), ms[k].data, Place(ms, k));
  }

  lemma LineHolds(text: string, data: string, p: nat)
    requires HoldsAt(text, data + ['\n'], p)
    ensures HoldsAt(text, data, p) && text[p + |data|] == '\n'
  {
    var line := data + ['\n'];
    assert text[p..p + |data|] == text[p..p + |line|][..|data|] == line[..|data|] == data;
    ByteOfPart(text, line, p, p + |data|);
  }

  // -------------------------------------------------------------- what a saver does

  /** What a saver thread does with its chunk; an empty one is not saved at all. */
  function JobOf(c: seq<Message>): D.Job {
    if c == [] then D.Job("", "") else D.Job(ChunkName(c), FileBytes(c))
  }

  function Jobs(chunks: seq<seq<Message>>): (jobs: seq<D.Job>)
    ensures |jobs| == |chunks| && forall i :: 0 <= i < |jobs| ==> jobs[i] == JobOf(chunks[i])
  {
    seq(|chunks|, i requires 0 <= i < |chunks| => JobOf(chunks[i]))
  }

  lemma JobsPrefix(a: seq<seq<Message>>, b: seq<seq<Message>>)
    requires a <= b
    ensures Jobs(a) <= Jobs(b)
  {
    assert Jobs(b)[..|a|] == Jobs(a);
  }
}
