/** What redelivery can and cannot do to the log of delivered messages when ids grow
    with every insert.

    The producer always reads the lowest ids and deletes a whole batch or nothing, so
    the log is a chain of ascending runs that may step back, but only to something
    still stored. `Ordered` collects the consequences and is kept by the three things
    that can happen to the store: an insert, a fetch, and the arrival of a delete. */
module Replay {
  import opened Messages

  /** Before position `p` the log already passed through `x`, and did not go below it since. */
  ghost predicate Passed(log: seq<Message>, x: Message, p: nat)
    requires p < |log|
  {
    exists q :: 0 <= q <= p && log[q] == x && forall t :: q <= t <= p ==> x.id <= log[t].id
  }

  /** `x` occurs at `p`, and everything delivered after `p` is newer. */
  ghost predicate LastAt(log: seq<Message>, x: Message, p: nat) {
    p < |log| && log[p] == x && forall r :: p < r < |log| ==> x.id < log[r].id
  }

  ghost predicate StoreIsBridged(log: seq<Message>, store: seq<Message>) {
    forall p, z :: 0 <= p < |log| && z in store && z.id < log[p].id ==> Passed(log, z, p)
  }

  ghost predicate StepsBackAreReplays(log: seq<Message>) {
    forall p, r :: 0 <= p < r < |log| && log[r].id < log[p].id ==> Passed(log, log[r], p)
  }

  ghost predicate EachHasLast(log: seq<Message>) {
    forall x :: x in log ==> exists p: nat :: LastAt(log, x, p)
  }

  /** Only the next batch can hold something delivered before. */
  ghost predicate DeliveredIsInFront(log: seq<Message>, store: seq<Message>, fetchSize: nat) {
    forall i :: fetchSize <= i < |store| ==> store[i] !in log
  }

  ghost predicate DeletedIsOlder(inserted: seq<Message>, store: seq<Message>) {
    forall x, y :: x in inserted && x !in store && y in store ==> x.id < y.id
  }

  /** A delete command names delivered messages and skips nothing stored below them. */
  ghost predicate CommandIsPrefix(log: seq<Message>, store: seq<Message>, ids: seq<nat>) {
    && (forall id :: id in ids ==> exists m :: m in log && m.id == id)
    && (forall y, z :: y in ids && z in store && z.id < y ==> z.id in ids)
  }

  ghost predicate Ordered(inserted: seq<Message>, store: seq<Message>, log: seq<Message>,
                          commands: set<seq<nat>>, fetchSize: nat)
  {
    && Ascending(inserted)
    && Ascending(store)
    && (forall m :: m in store ==> m in inserted)
    && (forall m :: m in log ==> m in inserted)
    && DeletedIsOlder(inserted, store)
    && DeliveredIsInFront(log, store, fetchSize)
    && (forall c :: c in commands ==> CommandIsPrefix(log, store, c))
    && StoreIsBridged(log, store)
    && StepsBackAreReplays(log)
    && EachHasLast(log)
  }

  lemma AscendingIdentifies(ms: seq<Message>)
    requires Ascending(ms)
    ensures IdsIdentify(ms)
  {}

  // ------------------------------------------------------------------ insert

  lemma AscendingPush(ms: seq<Message>, m: Message)
    requires Ascending(ms) && forall x :: x in ms ==> x.id < m.id
    ensures Ascending(ms + [m])
  {
    assert forall i :: 0 <= i < |ms| ==> ms[i] in ms;
  }

  lemma InsertKeepsCommands(log: seq<Message>, store: seq<Message>, c: seq<nat>, m: Message)
    requires CommandIsPrefix(log, store, c) && forall x :: x in log ==> x.id < m.id
    ensures CommandIsPrefix(log, store + [m], c)
  {}

  lemma InsertKeepsBridge(log: seq<Message>, store: seq<Message>, m: Message)
    requires StoreIsBridged(log, store) && forall x :: x in log ==> x.id < m.id
    ensures StoreIsBridged(log, store + [m])
  {
    assert forall p :: 0 <= p < |log| ==> log[p] in log;
  }

  lemma InsertKeepsOrdered(inserted: seq<Message>, store: seq<Message>, log: seq<Message>,
                           commands: set<seq<nat>>, fetchSize: nat, m: Message)
    requires Ordered(inserted, store, log, commands, fetchSize)
    requires forall x :: x in inserted ==> x.id < m.id
    ensures Ordered(inserted + [m], store + [m], log, commands, fetchSize)
  {
    AscendingPush(inserted, m);
    AscendingPush(store, m);
    InsertKeepsBridge(log, store, m);
    assert m !in log;
    forall c | c in commands ensures CommandIsPrefix(log, store + [m], c) {
      InsertKeepsCommands(log, store, c, m);
    }
  }

  // ------------------------------------------------------------------- fetch

  lemma PassedExtends(log: seq<Message>, b: seq<Message>, x: Message, p: nat)
    requires p < |log| && Passed(log, x, p)
    ensures Passed(log + b, x, p)
  {
    var q :| 0 <= q <= p && log[q] == x && forall t :: q <= t <= p ==> x.id <= log[t].id;
    assert (log + b)[q] == x;
    assert forall t :: q <= t <= p ==> (log + b)[t] == log[t];
  }

  lemma PassedInBatch(log: seq<Message>, b: seq<Message>, k: nat, p: nat)
    requires Ascending(b) && k < |b| && |log| + k <= p < |log| + |b|
    ensures Passed(log + b, b[k], p)
  {
    var q, log' := |log| + k, log + b;
    assert log'[q] == b[k];
    forall t | q <= t <= p ensures b[k].id <= log'[t].id {
      assert log'[t] == b[t - |log|];
    }
  }

  lemma FetchBridges(log: seq<Message>, store: seq<Message>, n: nat)
    requires Ascending(store) && n <= |store| && StoreIsBridged(log, store)
    ensures StoreIsBridged(log + store[..n], store)
  {
    var b := store[..n];
    forall p, z | 0 <= p < |log + b| && z in store && z.id < (log + b)[p].id
      ensures Passed(log + b, z, p)
    {
      if p < |log| {
        PassedExtends(log, b, z, p);
      } else {
        var k :| 0 <= k < |store| && store[k] == z;
        PassedInBatch(log, b, k, p);
      }
    }
  }

  lemma FetchReplays(log: seq<Message>, store: seq<Message>, n: nat)
    requires Ascending(store) && n <= |store|
    requires StoreIsBridged(log, store) && StepsBackAreReplays(log)
    ensures StepsBackAreReplays(log + store[..n])
  {
    var b := store[..n];
    var log' := log + b;
    forall p, r | 0 <= p < r < |log'| && log'[r].id < log'[p].id
      ensures Passed(log', log'[r], p)
    {
      if p < |log| {
        if r >= |log| { assert log'[r] == store[r - |log|]; }
        PassedExtends(log, b, log'[r], p);
      }
    }
  }

  lemma LastExtends(log: seq<Message>, b: seq<Message>, x: Message, p: nat)
    requires LastAt(log, x, p) && forall y :: y in b ==> x.id < y.id
    ensures LastAt(log + b, x, p)
  {
    forall r | p < r < |log + b| ensures x.id < (log + b)[r].id {
      if r >= |log| { assert (log + b)[r] in b; }
    }
  }

  lemma DeliveredIsFetched(store: seq<Message>, log: seq<Message>, fetchSize: nat, n: nat, x: Message)
    requires n == if fetchSize < |store| then fetchSize else |store|
    requires DeliveredIsInFront(log, store, fetchSize)
    requires x in log && x in store
    ensures x in store[..n]
  {
    var i :| 0 <= i < |store| && store[i] == x;
    assert i < n;
    assert store[..n][i] == x;
  }

  lemma FetchHasLast(inserted: seq<Message>, store: seq<Message>, log: seq<Message>, fetchSize: nat, n: nat)
    requires Ascending(store) && n == if fetchSize < |store| then fetchSize else |store|
    requires forall m :: m in log ==> m in inserted
    requires DeletedIsOlder(inserted, store) && DeliveredIsInFront(log, store, fetchSize)
    requires EachHasLast(log)
    ensures EachHasLast(log + store[..n])
  {
    var b := store[..n];
    forall x | x in log + b ensures exists p: nat :: LastAt(log + b, x, p) {
      if x in b {
        var k :| 0 <= k < |b| && b[k] == x;
        assert LastAt(log + b, x, |log| + k);
      } else {
        if x in store { DeliveredIsFetched(store, log, fetchSize, n, x); }
        var p: nat :| LastAt(log, x, p);
        assert forall y :: y in b ==> y in store;
        LastExtends(log, b, x, p);
      }
    }
  }

  lemma FetchCommands(store: seq<Message>, log: seq<Message>, commands: set<seq<nat>>, n: nat)
    requires Ascending(store) && n <= |store|
    requires forall c :: c in commands ==> CommandIsPrefix(log, store, c)
    ensures forall c :: c in commands + {Ids(store[..n])} ==> CommandIsPrefix(log + store[..n], store, c)
  {
    var b := store[..n];
    assert forall m :: m in log ==> m in log + b;
    forall c | c in commands ensures CommandIsPrefix(log + b, store, c) {
      assert CommandIsPrefix(log, store, c);
    }
    var ids := Ids(b);
    forall id | id in ids ensures exists m :: m in log + b && m.id == id {
      var i :| 0 <= i < |ids| && ids[i] == id;
      assert b[i] in log + b;
    }
    forall y, z | y in ids && z in store && z.id < y ensures z.id in ids {
      var i :| 0 <= i < |ids| && ids[i] == y;
      var k :| 0 <= k < |store| && store[k] == z;
      assert k < i;
      assert ids[k] == z.id;
    }
  }

  lemma FetchKeepsOrdered(inserted: seq<Message>, store: seq<Message>, log: seq<Message>,
                          commands: set<seq<nat>>, fetchSize: nat, n: nat)
    requires Ordered(inserted, store, log, commands, fetchSize)
    requires n == if fetchSize < |store| then fetchSize else |store|
    ensures Ordered(inserted, store, log + store[..n], commands + {Ids(store[..n])}, fetchSize)
  {
    var b := store[..n];
    assert forall m :: m in b ==> m in store;
    FetchBridges(log, store, n);
    FetchReplays(log, store, n);
    FetchHasLast(inserted, store, log, fetchSize, n);
    FetchCommands(store, log, commands, n);
    assert DeliveredIsInFront(log + b, store, fetchSize);
  }

  // ------------------------------------------------------- arrival of a delete

  lemma DeleteKeepsOlder(inserted: seq<Message>, store: seq<Message>, log: seq<Message>, ids: seq<nat>)
    requires Ascending(inserted)
    requires forall m :: m in store ==> m in inserted
    requires DeletedIsOlder(inserted, store) && CommandIsPrefix(log, store, ids)
    ensures DeletedIsOlder(inserted, Remove(store, ids))
  {
    RemoveContents(store, ids);
    AscendingIdentifies(inserted);
  }

  lemma DeleteKeepsOrdered(inserted: seq<Message>, store: seq<Message>, log: seq<Message>,
                           commands: set<seq<nat>>, fetchSize: nat, ids: seq<nat>)
    requires Ordered(inserted, store, log, commands, fetchSize) && ids in commands
    ensures Ordered(inserted, Remove(store, ids), log, commands, fetchSize)
  {
    var store' := Remove(store, ids);
    RemoveContents(store, ids);
    RemoveAscending(store, ids);
    DeleteKeepsOlder(inserted, store, log, ids);
    forall c | c in commands ensures CommandIsPrefix(log, store', c) {
      assert CommandIsPrefix(log, store, c);
    }
    forall i | fetchSize <= i < |store'| ensures store'[i] !in log {
      RemoveMovesForward(store, ids, i);
    }
  }
}
