/** The consumer's buffer and the chunks it spills, as values. */
module Chunks {
  import opened Messages

  function Concat(chunks: seq<seq<Message>>): seq<Message> {
    if chunks == [] then [] else Concat(chunks[..|chunks| - 1]) + chunks[|chunks| - 1]
  }

  lemma ConcatPush(chunks: seq<seq<Message>>, c: seq<Message>)
    ensures Concat(chunks + [c]) == Concat(chunks) + c
  {
    assert (chunks + [c])[..|chunks|] == chunks;
  }

  /** What one pass of the consumer's loop leaves: the buffer and the spilled chunks. */
  function Accept(chunkSize: nat, buffer: seq<Message>, flushed: seq<seq<Message>>, m: Message)
    : (seq<Message>, seq<seq<Message>>)
  {
    if |buffer| + 1 >= chunkSize then ([], flushed + [buffer + [m]]) else (buffer + [m], flushed)
  }

  function AcceptAll(chunkSize: nat, buffer: seq<Message>, flushed: seq<seq<Message>>, ms: seq<Message>)
    : (seq<Message>, seq<seq<Message>>)
  {
    if ms == [] then (buffer, flushed)
    else
      var (b, f) := AcceptAll(chunkSize, buffer, flushed, ms[..|ms| - 1]);
      Accept(chunkSize, b, f, ms[|ms| - 1])
  }

  /** Between calls the buffer is short of a chunk and every chunk is full. */
  ghost predicate Filled(chunkSize: nat, buffer: seq<Message>, flushed: seq<seq<Message>>) {
    |buffer| < chunkSize && forall i :: 0 <= i < |flushed| ==> |flushed[i]| == chunkSize
  }

  lemma AcceptKeeps(chunkSize: nat, buffer: seq<Message>, flushed: seq<seq<Message>>, m: Message)
    requires Filled(chunkSize, buffer, flushed)
    ensures var (b, f) := Accept(chunkSize, buffer, flushed, m);
      Filled(chunkSize, b, f) && Concat(f) + b == Concat(flushed) + buffer + [m] && flushed <= f
  {
    var chunk := buffer + [m];
    assert Concat(flushed) + chunk == Concat(flushed) + buffer + [m];
    if |chunk| >= chunkSize {
      ConcatPush(flushed, chunk);
      assert Concat(flushed) + chunk + [] == Concat(flushed) + chunk;
    }
  }

  lemma {:induction false} AcceptAllKeeps(chunkSize: nat, buffer: seq<Message>, flushed: seq<seq<Message>>,
                                          ms: seq<Message>)
    requires Filled(chunkSize, buffer, flushed)
    ensures var (b, f) := AcceptAll(chunkSize, buffer, flushed, ms);
      Filled(chunkSize, b, f) && Concat(f) + b == Concat(flushed) + buffer + ms
  {
    if ms == [] {
      assert Concat(flushed) + buffer + [] == Concat(flushed) + buffer;
    } else {
      var n := |ms| - 1;
      AcceptAllKeeps(chunkSize, buffer, flushed, ms[..n]);
      var (b, f) := AcceptAll(chunkSize, buffer, flushed, ms[..n]);
      AcceptKeeps(chunkSize, b, f, ms[n]);
      assert Concat(flushed) + buffer + ms == (Concat(flushed) + buffer + ms[..n]) + [ms[n]];
    }
  }

  lemma {:induction false} ConcatLength(chunkSize: nat, chunks: seq<seq<Message>>)
    requires forall i :: 0 <= i < |chunks| ==> |chunks[i]| == chunkSize
    ensures |Concat(chunks)| == |chunks| * chunkSize
  {
    if chunks != [] {
      var n := |chunks| - 1;
      ConcatLength(chunkSize, chunks[..n]);
      assert |chunks| * chunkSize == n * chunkSize + chunkSize;
    }
  }

  /** Buffer and chunk counts are the remainder and the quotient of what was delivered. */
  lemma FilledCounts(chunkSize: nat, buffer: seq<Message>, flushed: seq<seq<Message>>)
    requires chunkSize >= 1 && Filled(chunkSize, buffer, flushed)
    ensures var n := |Concat(flushed) + buffer|; |buffer| == n % chunkSize && |flushed| == n / chunkSize
  {
    ConcatLength(chunkSize, flushed);
    DivideUnique(|flushed|, |buffer|, chunkSize);
  }

  lemma DivideUnique(q: nat, r: nat, d: nat)
    requires r < d
    ensures (q * d + r) / d == q && (q * d + r) % d == r
  {
    var n := q * d + r;
    var k := n / d - q;
    assert n == (n / d) * d + n % d;
    assert (n / d) * d == k * d + q * d;
    SmallMultiple(k, d);
  }

  lemma SmallMultiple(k: int, d: int)
    requires d >= 0
    ensures k >= 1 ==> k * d >= d
    ensures k <= -1 ==> k * d <= -d
  {
    if k >= 1 {
      assert k * d == (k - 1) * d + d;
    } else if k <= -1 {
      assert k * d == (k + 1) * d - d;
    }
  }

  // -------------------------------------------- where a chunk lies in the log

  function Offset(chunks: seq<seq<Message>>, i: nat): nat
    requires i <= |chunks|
  {
    |Concat(chunks[..i])|
  }

  lemma OffsetStep(chunks: seq<seq<Message>>, i: nat)
    requires i < |chunks|
    ensures Offset(chunks, i + 1) == Offset(chunks, i) + |chunks[i]|
    ensures Concat(chunks[..i + 1]) == Concat(chunks[..i]) + chunks[i]
  {
    assert chunks[..i + 1][..i] == chunks[..i];
  }

  lemma {:induction false} OffsetMonotone(chunks: seq<seq<Message>>, i: nat, j: nat)
    requires i <= j <= |chunks|
    ensures Offset(chunks, i) <= Offset(chunks, j)
    ensures Concat(chunks[..i]) <= Concat(chunks[..j])
    decreases j - i
  {
    if i < j {
      OffsetMonotone(chunks, i, j - 1);
      OffsetStep(chunks, j - 1);
    }
  }

  /** Chunk `i` is the stretch of the log that starts at its offset. */
  lemma ChunkInLog(chunks: seq<seq<Message>>, i: nat, k: nat)
    requires i < |chunks| && k < |chunks[i]|
    ensures Offset(chunks, i) + k < Offset(chunks, i + 1) <= |Concat(chunks)|
    ensures Concat(chunks)[Offset(chunks, i) + k] == chunks[i][k]
  {
    OffsetStep(chunks, i);
    OffsetMonotone(chunks, i + 1, |chunks|);
    assert chunks[..|chunks|] == chunks;
  }

  lemma {:induction false} ChunkOf(chunks: seq<seq<Message>>, p: nat) returns (i: nat, k: nat)
    requires p < |Concat(chunks)|
    ensures i < |chunks| && k < |chunks[i]| && p == Offset(chunks, i) + k
  {
    var n := |chunks| - 1;
    assert chunks[..|chunks|] == chunks;
    if p < |Concat(chunks[..n])| {
      i, k := ChunkOf(chunks[..n], p);
      assert chunks[..n][..i] == chunks[..i];
    } else {
      i, k := n, p - |Concat(chunks[..n])|;
    }
  }
}
