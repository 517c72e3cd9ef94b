/** The unit both halves of the back end exchange: an id and a payload.

    Payloads are byte strings; each `char` of a payload stands for one byte. */
module Messages {

  datatype Message = Message(id: nat, data: string)

  const WORD := 0x1_0000_0000_0000_0000

  /** At most the first `n`: what `LIMIT` and `COUNT` let through. */
  function Front<T>(s: seq<T>, n: nat): (f: seq<T>)
    ensures f <= s
  {
    if n < |s| then s[..n] else s
  }

  predicate Ascending(ms: seq<Message>) {
    forall i, j :: 0 <= i < j < |ms| ==> ms[i].id < ms[j].id
  }

  /** No id is shared by two different messages. */
  ghost predicate IdsIdentify(ms: seq<Message>) {
    forall a, b :: a in ms && b in ms && a.id == b.id ==> a == b
  }

  function Ids(ms: seq<Message>): (ids: seq<nat>)
    ensures |ids| == |ms|
    ensures forall i :: 0 <= i < |ms| ==> ids[i] == ms[i].id
  {
    seq(|ms|, i requires 0 <= i < |ms| => ms[i].id)
  }

  lemma IdsContain(ms: seq<Message>)
    ensures forall m :: m in ms ==> m.id in Ids(ms)
  {
    forall m | m in ms ensures m.id in Ids(ms) {
      var i :| 0 <= i < |ms| && ms[i] == m;
      assert Ids(ms)[i] == m.id;
    }
  }

  /** XDEL / DELETE ... IN: everything whose id is listed goes, the rest keeps its order. */
  function Remove(ms: seq<Message>, ids: seq<nat>): seq<Message> {
    if ms == [] then []
    else if ms[0].id in ids then Remove(ms[1..], ids)
    else [ms[0]] + Remove(ms[1..], ids)
  }

  lemma {:induction false} RemoveContents(ms: seq<Message>, ids: seq<nat>)
    ensures forall m :: m in Remove(ms, ids) <==> m in ms && m.id !in ids
  {
    if ms != [] { RemoveContents(ms[1..], ids); }
  }

  lemma {:induction false} RemoveAscending(ms: seq<Message>, ids: seq<nat>)
    requires Ascending(ms)
    ensures Ascending(Remove(ms, ids))
  {
    if ms != [] {
      RemoveAscending(ms[1..], ids);
      RemoveContents(ms[1..], ids);
      assert forall m :: m in ms[1..] ==> ms[0].id < m.id;
    }
  }

  /** Deleting never pushes an element back. */
  lemma {:induction false} RemoveMovesForward(ms: seq<Message>, ids: seq<nat>, i: nat)
    requires i < |Remove(ms, ids)|
    ensures exists k :: i <= k < |ms| && ms[k] == Remove(ms, ids)[i]
  {
    if ms[0].id in ids {
      RemoveMovesForward(ms[1..], ids, i);
      var k :| i <= k < |ms| - 1 && ms[1..][k] == Remove(ms, ids)[i];
      assert ms[k + 1] == Remove(ms, ids)[i];
    } else if i > 0 {
      RemoveMovesForward(ms[1..], ids, i - 1);
      var k :| i - 1 <= k < |ms| - 1 && ms[1..][k] == Remove(ms[1..], ids)[i - 1];
      assert ms[k + 1] == Remove(ms, ids)[i];
    }
  }

  lemma {:induction false} RemoveAppend(a: seq<Message>, b: seq<Message>, ids: seq<nat>)
    ensures Remove(a + b, ids) == Remove(a, ids) + Remove(b, ids)
  {
    if a == [] {
      assert a + b == b;
    } else {
      RemoveAppend(a[1..], b, ids);
      assert (a + b)[1..] == a[1..] + b && (a + b)[0] == a[0];
      var rest := Remove(a[1..], ids);
      assert [a[0]] + (rest + Remove(b, ids)) == ([a[0]] + rest) + Remove(b, ids);
    }
  }

  lemma {:induction false} RemoveNothing(ms: seq<Message>, ids: seq<nat>)
    requires forall m :: m in ms ==> m.id !in ids
    ensures Remove(ms, ids) == ms
  {
    if ms != [] {
      assert forall m :: m in ms[1..] ==> m in ms;
      RemoveNothing(ms[1..], ids);
    }
  }

  lemma {:induction false} RemoveAll(ms: seq<Message>, ids: seq<nat>)
    requires forall m :: m in ms ==> m.id in ids
    ensures Remove(ms, ids) == []
  {
    if ms != [] {
      assert forall m :: m in ms[1..] ==> m in ms;
      RemoveAll(ms[1..], ids);
    }
  }

  /** Where `ORDER BY id` puts a row. */
  function InsertById(ms: seq<Message>, m: Message): seq<Message> {
    if ms == [] || m.id < ms[0].id then [m] + ms
    else [ms[0]] + InsertById(ms[1..], m)
  }

  lemma {:induction false} InsertByIdContents(ms: seq<Message>, m: Message)
    ensures forall x :: x in InsertById(ms, m) <==> x == m || x in ms
  {
    if ms != [] && m.id >= ms[0].id { InsertByIdContents(ms[1..], m); }
  }

  lemma {:induction false} InsertByIdAscending(ms: seq<Message>, m: Message)
    requires Ascending(ms)
    requires forall x :: x in ms ==> x.id != m.id
    ensures Ascending(InsertById(ms, m))
  {
    if ms != [] && m.id >= ms[0].id {
      assert forall x :: x in ms[1..] ==> x in ms;
      InsertByIdAscending(ms[1..], m);
      InsertByIdContents(ms[1..], m);
      assert ms[0] in ms;
      var rest := InsertById(ms[1..], m);
      forall i | 0 <= i < |rest| ensures ms[0].id < rest[i].id {
        assert rest[i] in rest;
      }
    }
  }

  lemma {:induction false} InsertByIdLast(ms: seq<Message>, m: Message)
    requires forall x :: x in ms ==> x.id <= m.id
    ensures InsertById(ms, m) == ms + [m]
  {
    if ms != [] {
      assert forall x :: x in ms[1..] ==> x in ms;
      InsertByIdLast(ms[1..], m);
      assert [ms[0]] + (ms[1..] + [m]) == ms + [m];
    }
  }
}
