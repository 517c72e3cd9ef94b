/** The Redis stream id `ts-seq`, the 64-bit word the producer packs it into, and
    the text it prints back in XDEL.

    Every loop here accumulates in `uint64_t`, so it wraps at 2^64; the bounds under
    which nothing is lost are conclusions, not assumptions. */
module StreamIds {
  import opened Text
  import opened Messages

  const TIMESTAMP_SHIFT: nat := 22
  const SEQUENCE_RANGE := 0x40_0000  // 1 << TIMESTAMP_SHIFT
  const TIMESTAMP_RANGE := 0x400_0000_0000  // 1 << (64 - TIMESTAMP_SHIFT)

  function Wrap(n: nat): nat { n % WORD }

  function BitOr(a: nat, b: nat): nat {
    if a == 0 && b == 0 then 0
    else (if a % 2 == 1 || b % 2 == 1 then 1 else 0) + 2 * BitOr(a / 2, b / 2)
  }

  function Pow2(k: nat): (p: nat)
    ensures p >= 1
  {
    if k == 0 then 1 else 2 * Pow2(k - 1)
  }

  /** Or-ing into bits that are clear is adding. */
  lemma {:induction false} OrIsSum(k: nat, p: nat, high: nat, low: nat)
    requires low < p == Pow2(k)
    ensures BitOr(p * high, low) == p * high + low
  {
    if k == 0 {
      OrZero(high);
    } else {
      var h := Pow2(k - 1);
      assert p * high == 2 * (h * high);
      OrIsSum(k - 1, h, high, low / 2);
    }
  }

  lemma {:induction false} OrZero(a: nat)
    ensures BitOr(a, 0) == a
  {
    if a != 0 { OrZero(a / 2); }
  }

  /** `(ts << TIMESTAMP_SHIFT) | seq` in 64 bits. */
  function Pack(ts: nat, sq: nat): nat { BitOr(Wrap(Wrap(ts) * SEQUENCE_RANGE), Wrap(sq)) }

  predicate InRange(ts: nat, sq: nat) { ts < TIMESTAMP_RANGE && sq < SEQUENCE_RANGE }

  lemma PackInRange(ts: nat, sq: nat)
    requires InRange(ts, sq)
    ensures Pack(ts, sq) == ts * SEQUENCE_RANGE + sq < WORD
    ensures Pack(ts, sq) / SEQUENCE_RANGE == ts && Pack(ts, sq) % SEQUENCE_RANGE == sq
  {
    var high := ts * SEQUENCE_RANGE;
    assert Wrap(high) == high && Wrap(ts) == ts && Wrap(sq) == sq;
    assert BitOr(high, sq) == high + sq by {
      PowTwentyTwo();
      OrIsSum(TIMESTAMP_SHIFT, SEQUENCE_RANGE, ts, sq);
    }
    SplitWord(ts, sq);
  }

  lemma SplitWord(ts: nat, sq: nat)
    requires sq < SEQUENCE_RANGE
    ensures (ts * SEQUENCE_RANGE + sq) / SEQUENCE_RANGE == ts
    ensures (ts * SEQUENCE_RANGE + sq) % SEQUENCE_RANGE == sq
  {}

  lemma PowTwentyTwo()
    ensures Pow2(TIMESTAMP_SHIFT) == SEQUENCE_RANGE
  {
    assert Pow2(4) == 16;
    assert Pow2(8) == 256;
    assert Pow2(12) == 4096;
    assert Pow2(16) == 65536;
    assert Pow2(20) == 1048576;
  }

  /** Within range the packed words order, and identify, stream ids the way Redis does:
      by timestamp, then by sequence number. */
  lemma PackOrder(ts1: nat, sq1: nat, ts2: nat, sq2: nat)
    requires InRange(ts1, sq1) && InRange(ts2, sq2)
    ensures Pack(ts1, sq1) < Pack(ts2, sq2) <==> ts1 < ts2 || (ts1 == ts2 && sq1 < sq2)
    ensures Pack(ts1, sq1) == Pack(ts2, sq2) <==> ts1 == ts2 && sq1 == sq2
  {
    PackInRange(ts1, sq1);
    PackInRange(ts2, sq2);
  }

  lemma {:induction false} OrCommutes(a: nat, b: nat)
    ensures BitOr(a, b) == BitOr(b, a)
  {
    if a != 0 || b != 0 { OrCommutes(a / 2, b / 2); }
  }

  /** The id whose word this is and that fits. */
  lemma WordOfInRange(word: nat)
    requires word < WORD
    ensures InRange(word / SEQUENCE_RANGE, word % SEQUENCE_RANGE)
    ensures Pack(word / SEQUENCE_RANGE, word % SEQUENCE_RANGE) == word
  {
    PackInRange(word / SEQUENCE_RANGE, word % SEQUENCE_RANGE);
  }

  /** A stream id is mistaken for another one, which fits the packing, if and only if it does
      not fit itself: an overflowing sequence number is read as a later timestamp, and the
      high bits of a timestamp are lost. */
  lemma MistakenExactlyWhenOutOfRange(ts: nat, sq: nat)
    ensures (exists t, q :: InRange(t, q) && (t != ts || q != sq) && Pack(t, q) == Pack(ts, sq))
       <==> !InRange(ts, sq)
  {
    var word := Pack(ts, sq);
    PackBelowWord(ts, sq);
    WordOfInRange(word);
    if InRange(ts, sq) {
      forall t, q | InRange(t, q) && Pack(t, q) == word ensures t == ts && q == sq {
        PackOrder(t, q, ts, sq);
      }
    }
  }

  // ------------------------------------------------------------- id as text

  function IdText(ts: nat, sq: nat): string { Print(ts) + ['-'] + Print(sq) }

  /** `(id >> TIMESTAMP_SHIFT) << '-' << (id & SEQUENCE_MASK)`. */
  function PrintId(id: nat): string { IdText(id / SEQUENCE_RANGE, id % SEQUENCE_RANGE) }

  /** The numbers behind the packing: 42 bits of timestamp, 22 of sequence, written with a dash. */
  lemma Layout(ts: nat, sq: nat)
    ensures InRange(ts, sq) <==> ts < 4_398_046_511_104 && sq < 4_194_304
    ensures InRange(ts, sq) ==> Pack(ts, sq) == ts * 4_194_304 + sq
    ensures InRange(ts, sq) ==> PrintId(ts * 4_194_304 + sq) == Print(ts) + "-" + Print(sq)
    ensures IdText(ts, sq) == Print(ts) + "-" + Print(sq)
  {
    if InRange(ts, sq) { PackInRange(ts, sq); }
  }

  /** Where the run of digits that starts at `i` ends. */
  function DigitsEnd(text: string, i: nat): (j: nat)
    requires i <= |text|
    ensures i <= j <= |text| && AllDigits(text[i..j])
    ensures j < |text| ==> !IsDigit(text[j])
    decreases |text| - i
  {
    if i < |text| && IsDigit(text[i]) then DigitsEnd(text, i + 1) else i
  }

  /** The timestamp digits, one skipped character whatever it is, the sequence digits. */
  function ParseId(text: string): nat {
    var i := DigitsEnd(text, 0);
    var ts := Value(text[0..i]);
    var sq := if i + 1 <= |text| then Value(text[i + 1..DigitsEnd(text, i + 1)]) else 0;
    Pack(ts, sq)
  }

  lemma WrapStep(v: nat, d: nat)
    ensures Wrap(Wrap(v) * 10 + d) == Wrap(v * 10 + d)
  {
    var q := v / WORD;
    assert v * 10 + d == (Wrap(v) * 10 + d) + WORD * (10 * q);
    WrapMultiple(Wrap(v) * 10 + d, 10 * q);
  }

  lemma WrapMultiple(x: nat, k: nat)
    ensures Wrap(x + WORD * k) == Wrap(x)
  {}

  lemma ValueStep(text: string, i: nat, j: nat)
    requires i <= j < |text| && AllDigits(text[i..j]) && IsDigit(text[j])
    ensures AllDigits(text[i..j + 1])
    ensures Value(text[i..j + 1]) == Value(text[i..j]) * 10 + DigitValue(text[j])
  {
    var t, u := text[i..j + 1], text[i..j];
    forall k | 0 <= k < |t| ensures IsDigit(t[k]) {
      if k < |u| { assert t[k] == u[k]; }
    }
    assert t[..|t| - 1] == u;
  }

  lemma {:induction false} DigitsEndUnique(text: string, i: nat, j: nat)
    requires i <= j <= |text| && AllDigits(text[i..j]) && (j < |text| ==> !IsDigit(text[j]))
    ensures DigitsEnd(text, i) == j
    decreases j - i
  {
    if i < j {
      assert IsDigit(text[i..j][0]);
      assert text[i + 1..j] == text[i..j][1..];
      DigitsEndUnique(text, i + 1, j);
    }
  }

  /** The accumulation loop, wrapping as it goes; the source writes it twice. */
  method AccumulateDigits(text: string, start: nat) returns (i: nat, value: nat)
    requires start <= |text|
    ensures i == DigitsEnd(text, start) && value == Wrap(Value(text[start..i]))
  {
    i, value := start, 0;
    while i < |text| && IsDigit(text[i])
      invariant start <= i <= |text| && AllDigits(text[start..i])
      invariant value == Wrap(Value(text[start..i]))
    {
      ValueStep(text, start, i);
      WrapStep(Value(text[start..i]), DigitValue(text[i]));
      value := Wrap(value * 10 + DigitValue(text[i]));
      i := i + 1;
    }
    DigitsEndUnique(text, start, i);
  }

  /** `messageIdFromReply` on the text of a string reply. */
  method MessageIdFromText(text: string) returns (id: nat)
    ensures id == ParseId(text)
    ensures id < WORD
  {
    var i, ts := AccumulateDigits(text, 0);
    ghost var seen := Value(text[0..i]);
    i := i + 1;
    var sq := 0;
    if i <= |text| {
      ghost var start := i;
      i, sq := AccumulateDigits(text, i);
      PackBelowWord(seen, Value(text[start..i]));
    } else {
      PackBelowWord(seen, 0);
    }
    id := BitOr(Wrap(ts * SEQUENCE_RANGE), sq);
  }

  lemma ParseIdText(ts: nat, sq: nat)
    ensures ParseId(IdText(ts, sq)) == Pack(ts, sq)
  {
    PrintValue(ts);
    PrintValue(sq);
    var text := IdText(ts, sq);
    var i := |Print(ts)|;
    assert text[0..i] == Print(ts) && text[i + 1..|text|] == Print(sq);
    DigitsEndUnique(text, 0, i);
    DigitsEndUnique(text, i + 1, |text|);
  }

  /** The dash of an id can be found again. */
  lemma DashInText(ts: nat, sq: nat)
    ensures var text, n := IdText(ts, sq), |Print(ts)|;
      && n < |text| && text[n] == '-' && (forall i :: 0 <= i < n ==> IsDigit(text[i]))
      && text[..n] == Print(ts) && text[n + 1..] == Print(sq)
  {
    PrintValue(ts);
  }

  lemma IdTextInjective(ts1: nat, sq1: nat, ts2: nat, sq2: nat)
    requires IdText(ts1, sq1) == IdText(ts2, sq2)
    ensures ts1 == ts2 && sq1 == sq2
  {
    DashInText(ts1, sq1);
    DashInText(ts2, sq2);
    DashSplitsOnce(IdText(ts1, sq1), |Print(ts1)|, |Print(ts2)|);
    PrintInjective(ts1, ts2);
    PrintInjective(sq1, sq2);
  }

  // ------------------------------------------------------------ round trips

  /** Whatever 64-bit id the producer holds, the text it prints parses back to it. */
  lemma ParseOfPrint(id: nat)
    requires id < WORD
    ensures ParseId(PrintId(id)) == id
  {
    ParseIdText(id / SEQUENCE_RANGE, id % SEQUENCE_RANGE);
    PackInRange(id / SEQUENCE_RANGE, id % SEQUENCE_RANGE);
  }

  /** Any id text a Redis server can send (both halves 64-bit) comes back unchanged in
      XDEL if and only if both halves fit the packing. */
  lemma PrintOfParse(ts: nat, sq: nat)
    ensures PrintId(ParseId(IdText(ts, sq))) == IdText(ts, sq) <==> InRange(ts, sq)
  {
    ParseIdText(ts, sq);
    var id := Pack(ts, sq);
    if InRange(ts, sq) {
      PackInRange(ts, sq);
    } else if PrintId(id) == IdText(ts, sq) {
      IdTextInjective(id / SEQUENCE_RANGE, id % SEQUENCE_RANGE, ts, sq);
      PackBelowWord(ts, sq);
    }
  }

  lemma PackBelowWord(ts: nat, sq: nat)
    ensures Pack(ts, sq) < WORD
  {
    assert Pow2(64) == WORD by { PowSixtyFour(); }
    OrBounded(64, Wrap(Wrap(ts) * SEQUENCE_RANGE), Wrap(sq));
  }

  lemma {:induction false} OrBounded(k: nat, a: nat, b: nat)
    requires a < Pow2(k) && b < Pow2(k)
    ensures BitOr(a, b) < Pow2(k)
  {
    if k > 0 { OrBounded(k - 1, a / 2, b / 2); }
  }

  lemma {:induction false} PowSum(a: nat, b: nat)
    ensures Pow2(a + b) == Pow2(a) * Pow2(b)
  {
    if b > 0 {
      PowSum(a, b - 1);
      assert Pow2(a) * (2 * Pow2(b - 1)) == 2 * (Pow2(a) * Pow2(b - 1));
    }
  }

  lemma PowSixtyFour()
    ensures Pow2(64) == WORD
  {
    PowTwentyTwo();
    PowSum(22, 22);
    PowSum(44, 20);
    assert Pow2(20) * 4 == Pow2(22);
  }
}
