/** Decimal text as an output stream writes it, and lexicographic order on text.

    The gateway prints 64-bit ids in three places: file names, XDEL commands and
    DELETE statements. Each result about those texts rests on this module. */
module Text {

  /** A value, or the exception the source throws. */
  datatype Result<+T> = Ok(value: T) | Throw(reason: string)

  datatype Option<+T> = None | Some(value: T)

  // ---------------------------------------------------------------- digits

  predicate IsDigit(c: char) { '0' <= c <= '9' }

  predicate AllDigits(s: string) { forall i :: 0 <= i < |s| ==> IsDigit(s[i]) }

  function DigitChar(d: nat): (c: char)
    requires d < 10
    ensures IsDigit(c) && DigitValue(c) == d
  {
    (d + '0' as int) as char
  }

  function DigitValue(c: char): (d: nat)
    requires IsDigit(c)
    ensures d < 10
  {
    c as int - '0' as int
  }

  /** `stream << n` for an unsigned `n`. */
  function Print(n: nat): string {
    if n < 10 then [DigitChar(n)] else Print(n / 10) + [DigitChar(n % 10)]
  }

  function Value(s: string): nat
    requires AllDigits(s)
  {
    if s == [] then 0 else Value(s[..|s| - 1]) * 10 + DigitValue(s[|s| - 1])
  }

  lemma {:induction false} PrintValue(n: nat)
    ensures Print(n) != [] && AllDigits(Print(n))
    ensures Value(Print(n)) == n
  {
    if n >= 10 {
      PrintValue(n / 10);
      var s := Print(n);
      assert s[..|s| - 1] == Print(n / 10);
    } else {
      assert Print(n)[..0] == [];
    }
  }

  lemma PrintInjective(m: nat, n: nat)
    requires Print(m) == Print(n)
    ensures m == n
  {
    PrintValue(m);
    PrintValue(n);
  }

  function Pow10(k: nat): (p: nat)
    ensures p >= 1
  {
    if k == 0 then 1 else 10 * Pow10(k - 1)
  }

  lemma {:induction false} PrintWidth(n: nat, k: nat)
    requires k >= 1
    ensures |Print(n)| <= k <==> n < Pow10(k)
  {
    if n >= 10 && k > 1 {
      PrintWidth(n / 10, k - 1);
    } else if k == 1 {
      if n >= 10 { PrintValue(n / 10); }
    } else {
      PowPositive(k - 1);
    }
  }

  lemma {:induction false} PowPositive(k: nat)
    requires k >= 1
    ensures Pow10(k) >= 10
  {
    if k > 1 { PowPositive(k - 1); }
  }

  // --------------------------------------------------------------- padding

  function Zeros(k: nat): (z: string)
    ensures |z| == k && AllDigits(z)
  {
    if k == 0 then [] else Zeros(k - 1) + ['0']
  }

  lemma {:induction false} ZerosValue(k: nat, s: string)
    requires AllDigits(s)
    ensures AllDigits(Zeros(k) + s) && Value(Zeros(k) + s) == Value(s)
  {
    var t := Zeros(k) + s;
    if s != [] {
      ZerosValue(k, s[..|s| - 1]);
      assert t[..|t| - 1] == Zeros(k) + s[..|s| - 1];
    } else if k > 0 {
      ZerosValue(k - 1, []);
      assert t[..|t| - 1] == Zeros(k - 1) + [];
    } else {
      assert t == [];
    }
  }

  /** `stream << std::setw(width) << std::setfill('0') << n`: pads, never truncates. */
  function Padded(n: nat, width: nat): string {
    var s := Print(n);
    if |s| >= width then s else Zeros(width - |s|) + s
  }

  lemma PaddedValue(n: nat, width: nat)
    ensures AllDigits(Padded(n, width)) && Value(Padded(n, width)) == n
    ensures |Padded(n, width)| >= width
  {
    PrintValue(n);
    if |Print(n)| < width { ZerosValue(width - |Print(n)|, Print(n)); }
  }

  /** A text has at most one dash that only digits precede. */
  lemma DashSplitsOnce(s: string, a: nat, b: nat)
    requires a < |s| && b < |s| && s[a] == '-' == s[b]
    requires forall i :: 0 <= i < a ==> IsDigit(s[i])
    requires forall i :: 0 <= i < b ==> IsDigit(s[i])
    ensures a == b
  {}

  // ---------------------------------------------------- lexicographic order

  predicate LexLess(s: string, t: string) {
    t != [] && (s == [] || s[0] < t[0] || (s[0] == t[0] && LexLess(s[1..], t[1..])))
  }

  lemma {:induction false} LexAppend(s: string, t: string, u: string, v: string)
    requires |s| == |t|
    ensures LexLess(s + u, t + v) <==> LexLess(s, t) || (s == t && LexLess(u, v))
  {
    if s == [] {
      assert s + u == u && t + v == v;
    } else {
      LexAppend(s[1..], t[1..], u, v);
      assert (s + u)[1..] == s[1..] + u && (t + v)[1..] == t[1..] + v;
      assert s == t <==> s[0] == t[0] && s[1..] == t[1..];
    }
  }

  lemma {:induction false} LexTransitive(s: string, t: string, u: string)
    requires LexLess(s, t) && LexLess(t, u)
    ensures LexLess(s, u)
  {
    if s != [] && s[0] == t[0] == u[0] { LexTransitive(s[1..], t[1..], u[1..]); }
  }

  lemma {:induction false} LexIrreflexive(s: string)
    ensures !LexLess(s, s)
  {
    if s != [] { LexIrreflexive(s[1..]); }
  }

  /** Digits of equal width compare as text the way they compare as numbers. */
  lemma {:induction false} DigitOrder(s: string, t: string)
    requires |s| == |t| && AllDigits(s) && AllDigits(t)
    ensures LexLess(s, t) <==> Value(s) < Value(t)
    ensures s == t <==> Value(s) == Value(t)
  {
    if s != [] {
      var n := |s| - 1;
      DigitOrder(s[..n], t[..n]);
      LexAppend(s[..n], t[..n], [s[n]], [t[n]]);
      assert s == s[..n] + [s[n]] && t == t[..n] + [t[n]];
      assert LexLess([s[n]], [t[n]]) <==> s[n] < t[n];
      assert s == t <==> s[..n] == t[..n] && s[n] == t[n];
    }
  }

  // ------------------------------------------------------------ split / join

  function Join(parts: seq<string>, sep: char): string {
    if parts == [] then []
    else if |parts| == 1 then parts[0]
    else parts[0] + [sep] + Join(parts[1..], sep)
  }

  lemma {:induction false} JoinPush(parts: seq<string>, sep: char, w: string)
    requires parts != []
    ensures Join(parts + [w], sep) == Join(parts, sep) + [sep] + w
  {
    if |parts| == 1 {
      assert (parts + [w])[1..] == [w];
    } else {
      JoinPush(parts[1..], sep, w);
      assert (parts + [w])[1..] == parts[1..] + [w];
    }
  }

  /** The words of a text, as the receiver of a command splits it. */
  function Split(s: string, sep: char): (parts: seq<string>)
    ensures parts != []
  {
    if s == [] then [[]]
    else if s[0] == sep then [[]] + Split(s[1..], sep)
    else var rest := Split(s[1..], sep); [[s[0]] + rest[0]] + rest[1..]
  }

  lemma {:induction false} SplitWord(w: string, sep: char, rest: string)
    requires sep !in w
    ensures Split(w, sep) == [w]
    ensures Split(w + [sep] + rest, sep) == [w] + Split(rest, sep)
  {
    var s := w + [sep] + rest;
    if w == [] {
      assert s[1..] == rest;
    } else {
      SplitWord(w[1..], sep, rest);
      assert s[1..] == w[1..] + [sep] + rest;
      assert w == [w[0]] + w[1..];
    }
  }

  lemma {:induction false} SplitJoin(parts: seq<string>, sep: char)
    requires parts != [] && forall i :: 0 <= i < |parts| ==> sep !in parts[i]
    ensures Split(Join(parts, sep), sep) == parts
  {
    if |parts| == 1 {
      SplitWord(parts[0], sep, []);
    } else {
      SplitJoin(parts[1..], sep);
      SplitWord(parts[0], sep, Join(parts[1..], sep));
    }
  }

  // -------------------------------------------------------------- parts of a text

  predicate HoldsAt(text: string, part: string, p: nat) {
    p + |part| <= |text| && text[p..p + |part|] == part
  }

  lemma ByteOfPart(text: string, part: string, p: nat, q: nat)
    requires HoldsAt(text, part, p) && p <= q < p + |part|
    ensures text[q] == part[q - p]
  {
    assert text[p..p + |part|][q - p] == text[q];
  }
}
