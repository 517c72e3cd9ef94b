/** Runs of the front end: the writer classes make them, and two that clients should know. */
module FrontEndRuns {
  import opened RedisWire
  import opened Hiredis
  import opened Writers
  import opened Http
  import opened FrontEnd
  import PW = PostgresWriter
  import RW = RedisWriter

  lemma Go(cfg: Config, es: seq<Event>, s: State, e: Event) returns (es': seq<Event>, s': State)
    requires After(cfg, es) == s && Enabled(cfg, s, e)
    ensures es' == es + [e] && s' == Step(cfg, s, e) && After(cfg, es') == s'
  {
    es', s' := es + [e], Step(cfg, s, e);
    assert es'[..|es|] == es;
  }

  // ---------------------------------------- the writer classes make runs of the machine

  /** Can it be that the insert of this call was, or was not, executed when it returned? */
  predicate FateFits(cfg: Config, trace: seq<CallEnd>, end: CallEnd, executed: bool) {
    && (executed ==> CanSend(cfg, trace) && !Withdrawn(end))
    && (end.Committed? || (end.Replied? && !end.value.Error?) ==> executed)
  }

  /** `t` is `s` after session `n` made one more call, with `copies` more rows of its own. */
  ghost predicate Grew(s: State, t: State, n: nat, trace: seq<CallEnd>, copies: nat) {
    && n in s.sessions && s.sessions[n].phase.Handling? && s.sessions[n].received != [] && n in t.sessions
    && t.sessions[n] == s.sessions[n].(phase := Handling(trace, false))
    && s.rows <= t.rows && |t.rows| == |s.rows| + copies
    && forall i :: |s.rows| <= i < |t.rows| ==>
        For(t.rows[i], n, |s.sessions[n].received| - 1) && t.rows[i].data == Last(s.sessions[n]).body
  }

  /** An insert leaves and is executed, or not yet. */
  lemma SendAndExecute(cfg: Config, es: seq<Event>, s: State, n: nat, executed: bool)
    returns (es': seq<Event>, t: State)
    requires After(cfg, es) == s && PhaseOf(s, n).Handling? && !PhaseOf(s, n).waiting && s.sessions[n].received != []
    requires CanSend(cfg, PhaseOf(s, n).trace)
    ensures es <= es' && After(cfg, es') == t && n in t.sessions
    ensures t.sessions[n] == s.sessions[n].(phase := Handling(PhaseOf(s, n).trace, true))
    ensures var row := Current(n, s.sessions[n]);
      if executed then t.rows == s.rows + [row] else t.rows == s.rows && row in t.flight
  {
    es', t := Go(cfg, es, s, Send(n));
    if executed { es', t := Go(cfg, es', t, Execute(Current(n, s.sessions[n]))); }
  }

  lemma OneCall(cfg: Config, es: seq<Event>, s: State, n: nat, end: CallEnd, executed: bool)
    returns (es': seq<Event>, t: State)
    requires After(cfg, es) == s && PhaseOf(s, n).Handling? && !PhaseOf(s, n).waiting && s.sessions[n].received != []
    requires Fits(cfg, PhaseOf(s, n).trace, end) && FateFits(cfg, PhaseOf(s, n).trace, end, executed)
    ensures es <= es' && After(cfg, es') == t
    ensures Grew(s, t, n, PhaseOf(s, n).trace + [end], if executed then 1 else 0)
  {
    es', t := es, s;
    if CanSend(cfg, PhaseOf(s, n).trace) {
      es', t := SendAndExecute(cfg, es, s, n, executed);
      assert Current(n, t.sessions[n]) == Current(n, s.sessions[n]);
    }
    es', t := Go(cfg, es', t, Comes(n, end));
  }

  function Count(fates: seq<bool>): nat {
    if fates == [] then 0 else Count(fates[..|fates| - 1]) + if fates[|fates| - 1] then 1 else 0
  }

  ghost predicate FatesFit(cfg: Config, trace: seq<CallEnd>, fates: seq<bool>) {
    && |fates| == |trace|
    && forall i :: 0 <= i < |trace| ==>
         Fits(cfg, trace[..i], trace[i]) && FateFits(cfg, trace[..i], trace[i], fates[i])
  }

  lemma FatesPrefix(cfg: Config, trace: seq<CallEnd>, fates: seq<bool>, m: nat)
    requires FatesFit(cfg, trace, fates) && m <= |trace|
    ensures FatesFit(cfg, trace[..m], fates[..m])
  {
    forall i | 0 <= i < m
      ensures Fits(cfg, trace[..m][..i], trace[..m][i])
      ensures FateFits(cfg, trace[..m][..i], trace[..m][i], fates[..m][i])
    {
      assert trace[..m][..i] == trace[..i];
    }
  }

  /** Whatever calls a writer's program can make is a stretch of a run. */
  lemma CallsAreRun(cfg: Config, es: seq<Event>, s: State, n: nat, trace: seq<CallEnd>, fates: seq<bool>)
    returns (es': seq<Event>, t: State)
    requires After(cfg, es) == s && PhaseOf(s, n) == Handling([], false) && s.sessions[n].received != []
    requires FatesFit(cfg, trace, fates)
    ensures es <= es' && After(cfg, es') == t && Grew(s, t, n, trace, Count(fates))
  {
    es', t := es, s;
    for m := 0 to |trace|
      invariant es <= es' && After(cfg, es') == t && Grew(s, t, n, trace[..m], Count(fates[..m]))
    {
      es', t := NextCall(cfg, es', s, t, n, trace, fates, m);
    }
    assert trace[..|trace|] == trace && fates[..|trace|] == fates;
  }

  lemma NextCall(cfg: Config, es: seq<Event>, s: State, u: State, n: nat, trace: seq<CallEnd>, fates: seq<bool>, m: nat)
    returns (es': seq<Event>, t: State)
    requires After(cfg, es) == u && FatesFit(cfg, trace, fates) && m < |trace|
    requires Grew(s, u, n, trace[..m], Count(fates[..m]))
    ensures es <= es' && After(cfg, es') == t && Grew(s, t, n, trace[..m + 1], Count(fates[..m + 1]))
  {
    es', t := OneCall(cfg, es, u, n, trace[m], fates[m]);
    GrewOn(s, u, t, n, trace[..m], trace[m], Count(fates[..m]), if fates[m] then 1 else 0);
    assert trace[..m] + [trace[m]] == trace[..m + 1];
    assert fates[..m + 1][..m] == fates[..m];
  }

  lemma GrewOn(s: State, u: State, t: State, n: nat, trace: seq<CallEnd>, end: CallEnd, copies: nat, more: nat)
    requires Grew(s, u, n, trace, copies) && Grew(u, t, n, trace + [end], more)
    ensures Grew(s, t, n, trace + [end], copies + more)
  {
    forall i | |s.rows| <= i < |t.rows|
      ensures For(t.rows[i], n, |s.sessions[n].received| - 1) && t.rows[i].data == Last(s.sessions[n]).body
    {
      if i < |u.rows| { assert t.rows[i] == u.rows[i]; }
    }
  }

  lemma FatesPush(cfg: Config, trace: seq<CallEnd>, fates: seq<bool>, end: CallEnd, executed: bool)
    requires FatesFit(cfg, trace, fates) && Fits(cfg, trace, end) && FateFits(cfg, trace, end, executed)
    ensures FatesFit(cfg, trace + [end], fates + [executed])
    ensures Count(fates + [executed]) == Count(fates) + if executed then 1 else 0
  {
    var more, long := trace + [end], fates + [executed];
    assert long[..|fates|] == fates;
    forall i | 0 <= i < |more|
      ensures Fits(cfg, more[..i], more[i]) && FateFits(cfg, more[..i], more[i], long[i])
    {
      assert more[..i] == if i < |trace| then trace[..i] else trace;
    }
  }

  /** The copies the Redis writer says it may have made can be told apart by call. */
  lemma {:induction false} RedisFates(cfg: Config, trace: seq<CallEnd>, copies: nat) returns (fates: seq<bool>)
    requires cfg.kind.RedisStore? && RW.Traced(trace, copies)
    ensures FatesFit(cfg, trace, fates) && Count(fates) == copies
  {
    fates := [];
    if trace != [] {
      var m, end := |trace| - 1, trace[|trace| - 1];
      var before := trace[..m];
      assert Fits(cfg, before, end);
      var executed := RW.Executed(end) || copies > RW.Possible(before);
      RedisFollowsPrefix(trace, m);
      RW.SureIsPossible(before);
      fates := RedisFates(cfg, before, if executed then copies - 1 else copies);
      FatesPush(cfg, before, fates, end, executed);
      fates := fates + [executed];
      assert before + [end] == trace;
    }
  }

  lemma RedisFollowsPrefix(trace: seq<CallEnd>, m: nat)
    requires Follows(RW.Fits, trace) && m <= |trace|
    ensures Follows(RW.Fits, trace[..m])
  {
    forall i | 0 <= i < m ensures RW.Fits(trace[..m][..i], trace[..m][i]) {
      assert trace[..m][..i] == trace[..i];
    }
  }

  /** What `RedisWriter.Writer.Write` does, by its contract, is a stretch of a run in which
      its session makes the same calls and the stream gains as many copies. */
  lemma RedisWriteIsRun(cfg: Config, es: seq<Event>, n: nat, trace: seq<CallEnd>, copies: nat)
    returns (es': seq<Event>)
    requires cfg.kind.RedisStore? && PhaseOf(After(cfg, es), n) == Handling([], false)
    requires After(cfg, es).sessions[n].received != [] && RW.Traced(trace, copies)
    ensures es <= es' && Grew(After(cfg, es), After(cfg, es'), n, trace, copies)
  {
    var fates := RedisFates(cfg, trace, copies);
    var t;
    es', t := CallsAreRun(cfg, es, After(cfg, es), n, trace, fates);
  }

  lemma PostgresFates(cfg: Config, trace: seq<CallEnd>, copies: nat) returns (fates: seq<bool>)
    requires cfg.kind.PostgresStore? && PW.Traced(trace, copies)
    ensures FatesFit(cfg, trace, fates) && Count(fates) == copies
  {
    var m := |trace|;
    fates := seq(m, i => i == m - 1 && copies == 1);
    forall i | 0 <= i < m
      ensures Fits(cfg, trace[..i], trace[i]) && FateFits(cfg, trace[..i], trace[i], fates[i])
    {
      if i + 1 < m {
        assert PW.Fits(trace[..i + 1], trace[i + 1]);
        assert trace[..i + 1][i] == trace[i];
      }
    }
    OnlyLastCounts(fates);
  }

  lemma {:induction false} NoneCounts(fates: seq<bool>)
    requires forall i :: 0 <= i < |fates| ==> !fates[i]
    ensures Count(fates) == 0
  {
    if fates != [] { NoneCounts(fates[..|fates| - 1]); }
  }

  lemma OnlyLastCounts(fates: seq<bool>)
    requires forall i :: 0 <= i < |fates| - 1 ==> !fates[i]
    ensures Count(fates) == if fates != [] && fates[|fates| - 1] then 1 else 0
  {
    if fates != [] { NoneCounts(fates[..|fates| - 1]); }
  }

  /** The same for `PostgresWriter.Writer.Write`. */
  lemma PostgresWriteIsRun(cfg: Config, es: seq<Event>, n: nat, trace: seq<CallEnd>, copies: nat)
    returns (es': seq<Event>)
    requires cfg.kind.PostgresStore? && PhaseOf(After(cfg, es), n) == Handling([], false)
    requires After(cfg, es).sessions[n].received != [] && PW.Traced(trace, copies)
    ensures es <= es' && Grew(After(cfg, es), After(cfg, es'), n, trace, copies)
  {
    var fates := PostgresFates(cfg, trace, copies);
    var t;
    es', t := CallsAreRun(cfg, es, After(cfg, es), n, trace, fates);
  }

  // ---------------------------------------------- what clients of a Redis gateway can see

  function Post(body: string): Request { Request(11, true, "/instrument", Absent, body) }

  /** The only session, `calls` into handling its only request. */
  function Busy(body: string, calls: seq<CallEnd>, waiting: bool, rows: seq<Row>, flight: set<Row>): State {
    State(map[0 := Session(Handling(calls, waiting), [Post(body)], [], 0)], rows, flight)
  }

  lemma Called(cfg: Config, es: seq<Event>, body: string, calls: seq<CallEnd>, waiting: bool, end: CallEnd,
               rows: seq<Row>, flight: set<Row>) returns (es': seq<Event>)
    requires After(cfg, es) == Busy(body, calls, waiting, rows, flight)
    requires Enabled(cfg, Busy(body, calls, waiting, rows, flight), Comes(0, end)) && !Withdrawn(end)
    ensures After(cfg, es') == Busy(body, calls + [end], false, rows, flight)
  {
    var s;
    es', s := Go(cfg, es, Busy(body, calls, waiting, rows, flight), Comes(0, end));
    assert s == Busy(body, calls + [end], false, rows, flight);
  }

  lemma Sent(cfg: Config, es: seq<Event>, body: string, calls: seq<CallEnd>, rows: seq<Row>, flight: set<Row>)
    returns (es': seq<Event>)
    requires After(cfg, es) == Busy(body, calls, false, rows, flight) && CanSend(cfg, calls)
    ensures After(cfg, es') == Busy(body, calls, true, rows, flight + {Row(0, 0, |calls|, body)})
  {
    var s;
    es', s := Go(cfg, es, Busy(body, calls, false, rows, flight), Send(0));
    assert s == Busy(body, calls, true, rows, flight + {Row(0, 0, |calls|, body)});
  }

  lemma Posted(cfg: Config, body: string) returns (es: seq<Event>)
    requires cfg.checker.accepts(body)
    ensures After(cfg, es) == Busy(body, [], false, [], {})
  {
    var s;
    es, s := Go(cfg, [], EMPTY, Accept(0));
    assert s == State(map[0 := Session(Reading, [], [], 0)], [], {});
    assert ForHandler(Post(body));
    es, s := Go(cfg, es, s, Read(0, Post(body)));
    assert s.sessions[0].received == [Post(body)];
    assert s == Busy(body, [], false, [], {});
  }

  const CUT := [Found(OK), NoReply(EOF)]

  /** One session posts `body`; its first XADD is on its way when the connection ends. */
  lemma FirstAddFails(cfg: Config, body: string) returns (es: seq<Event>)
    requires cfg.kind.RedisStore? && cfg.checker.accepts(body)
    ensures After(cfg, es) == Busy(body, CUT, false, [], {Row(0, 0, 1, body)})
  {
    es := Posted(cfg, body);
    es := Called(cfg, es, body, [], false, Found(OK), [], {});
    assert [] + [Found(OK)] == [Found(OK)];
    es := Sent(cfg, es, body, [Found(OK)], [], {});
    assert {} + {Row(0, 0, 1, body)} == {Row(0, 0, 1, body)};
    es := Called(cfg, es, body, [Found(OK)], true, NoReply(EOF), [], {Row(0, 0, 1, body)});
    assert [Found(OK)] + [NoReply(EOF)] == CUT;
  }

  lemma Answered(cfg: Config, es: seq<Event>, body: string, calls: seq<CallEnd>, rows: seq<Row>, flight: set<Row>)
    returns (es': seq<Event>, s: State)
    requires After(cfg, es) == Busy(body, calls, false, rows, flight) && Next(cfg, calls).Return?
    ensures After(cfg, es') == s && s.rows == rows && s.flight == flight
    ensures 0 in s.sessions && s.sessions[0].answers == [Answer(Post(body), OutcomeOf(Next(cfg, calls).result))]
  {
    es', s := Go(cfg, es, Busy(body, calls, false, rows, flight), Respond(0));
  }

  /** The client is told that the storage is unavailable, and then the message is stored. */
  lemma UnavailableYetStored(cfg: Config, body: string) returns (es: seq<Event>)
    requires cfg.kind.RedisStore? && cfg.checker.accepts(body)
    ensures var s := After(cfg, es);
      && 0 in s.sessions && |s.sessions[0].answers| == 1 && s.sessions[0].answers[0].status == 503
      && s.rows == [Row(0, 0, 1, body)]
  {
    var s;
    es := FirstAddFails(cfg, body);
    es := Called(cfg, es, body, CUT, false, NotReconnected(""), [], {Row(0, 0, 1, body)});
    es, s := Answered(cfg, es, body, CUT + [NotReconnected("")], [], {Row(0, 0, 1, body)});
    es, s := Go(cfg, es, s, Execute(Row(0, 0, 1, body)));
  }

  lemma Executes(cfg: Config, es: seq<Event>, body: string, calls: seq<CallEnd>, rows: seq<Row>, flight: set<Row>,
                 row: Row) returns (es': seq<Event>)
    requires After(cfg, es) == Busy(body, calls, true, rows, flight) && row in flight
    ensures After(cfg, es') == Busy(body, calls, true, rows + [row], flight - {row})
  {
    var s;
    es', s := Go(cfg, es, Busy(body, calls, true, rows, flight), Execute(row));
  }

  /** The repeated XADD is executed while the first one is still on its way. */
  lemma SecondAddExecuted(cfg: Config, body: string) returns (es: seq<Event>)
    requires cfg.kind.RedisStore? && cfg.checker.accepts(body)
    ensures After(cfg, es) == Busy(body, CUT + [Reconnected], true, [Row(0, 0, 3, body)], {Row(0, 0, 1, body)})
  {
    var first, second := Row(0, 0, 1, body), Row(0, 0, 3, body);
    es := FirstAddFails(cfg, body);
    es := Called(cfg, es, body, CUT, false, Reconnected, [], {first});
    es := Sent(cfg, es, body, CUT + [Reconnected], [], {first});
    es := Executes(cfg, es, body, CUT + [Reconnected], [], {first} + {second}, second);
    assert {first} + {second} - {second} == {first} && [] + [second] == [second];
  }

  lemma SecondAddSucceeds(cfg: Config, body: string) returns (es: seq<Event>)
    requires cfg.kind.RedisStore? && cfg.checker.accepts(body)
    ensures var calls := CUT + [Reconnected] + [Replied(Str("0-1"))];
      After(cfg, es) == Busy(body, calls, false, [Row(0, 0, 3, body)], {Row(0, 0, 1, body)})
  {
    es := SecondAddExecuted(cfg, body);
    es := Called(cfg, es, body, CUT + [Reconnected], true, Replied(Str("0-1")), [Row(0, 0, 3, body)],
                 {Row(0, 0, 1, body)});
  }

  lemma TwoRows(a: Row, b: Row)
    requires For(a, 0, 0) && For(b, 0, 0)
    ensures Copies([a, b], 0, 0) == 2
  {
    assert [a, b][..1] == [a] && [a][..0] == [];
    assert Copies([a], 0, 0) == 1;
  }

  /** Both XADDs of one request are executed: the bound of two is reached, with a 202. */
  lemma AcceptedAndStoredTwice(cfg: Config, body: string) returns (es: seq<Event>)
    requires cfg.kind.RedisStore? && cfg.checker.accepts(body)
    ensures var s := After(cfg, es);
      && 0 in s.sessions && |s.sessions[0].answers| == 1 && s.sessions[0].answers[0].status == ACCEPTED
      && Copies(s.rows, 0, 0) == 2
  {
    var first, second, s := Row(0, 0, 1, body), Row(0, 0, 3, body), EMPTY;
    es := SecondAddSucceeds(cfg, body);
    es, s := Answered(cfg, es, body, CUT + [Reconnected] + [Replied(Str("0-1"))], [second], {first});
    es, s := Go(cfg, es, s, Execute(first));
    assert s.rows == [second, first];
    TwoRows(second, first);
  }

  // --------------------------------------------------- what an answer says, exactly when

  /** Answer `k` of session `n` has this status. */
  predicate AnsweredWith(s: State, n: nat, k: nat, status: nat) {
    n in s.sessions && k < |s.sessions[n].answers| && s.sessions[n].answers[k].status == status
  }

  /** A 503 means that nothing is stored if and only if the store is PostgreSQL. */
  lemma UnavailableMeansNothingExactlyWhen(cfg: Config, body: string)
    requires cfg.checker.accepts(body)
    ensures (forall es, n, k :: AnsweredWith(After(cfg, es), n, k, 503) ==> Copies(After(cfg, es).rows, n, k) == 0)
       <==> cfg.kind.PostgresStore?
  {
    if cfg.kind.PostgresStore? {
      forall es, n, k | AnsweredWith(After(cfg, es), n, k, 503) ensures Copies(After(cfg, es).rows, n, k) == 0 {
        AcceptedMeansStored(cfg, es, n, k);
      }
    } else {
      var es := UnavailableYetStored(cfg, body);
      var rows := [Row(0, 0, 1, body)];
      assert AnsweredWith(After(cfg, es), 0, 0, 503) && After(cfg, es).rows == rows;
      assert rows[..0] == [] && Copies(rows, 0, 0) == 1;
    }
  }

  /** A 202 means that one copy is stored if and only if the store is PostgreSQL. */
  lemma AcceptedMeansOnceExactlyWhen(cfg: Config, body: string)
    requires cfg.checker.accepts(body)
    ensures (forall es, n, k :: AnsweredWith(After(cfg, es), n, k, ACCEPTED) ==>
              Copies(After(cfg, es).rows, n, k) == 1)
       <==> cfg.kind.PostgresStore?
  {
    if cfg.kind.PostgresStore? {
      forall es, n, k | AnsweredWith(After(cfg, es), n, k, ACCEPTED) ensures Copies(After(cfg, es).rows, n, k) == 1 {
        AcceptedMeansStored(cfg, es, n, k);
      }
    } else {
      var es := AcceptedAndStoredTwice(cfg, body);
      assert AnsweredWith(After(cfg, es), 0, 0, ACCEPTED);
    }
  }

  /** A run goes on. */
  lemma {:induction false} GoesOn(cfg: Config, es: seq<Event>, fs: seq<Event>, n: nat, k: nat)
    requires n in After(cfg, es).sessions && k < |After(cfg, es).sessions[n].answers|
    ensures var s, t := After(cfg, es), After(cfg, es + fs);
      && n in t.sessions && k < |t.sessions[n].answers|
      && forall r :: r in Known(t) && For(r, n, k) ==> r in Known(s)
  {
    if fs == [] {
      assert es + fs == es;
    } else {
      var m := |fs| - 1;
      GoesOn(cfg, es, fs[..m], n, k);
      assert es + fs == (es + fs[..m]) + [fs[m]];
      assert (es + fs)[..|es + fs| - 1] == es + fs[..m];
      RunKeepsInv(cfg, es + fs[..m]);
      NothingNewFor(cfg, After(cfg, es + fs[..m]), fs[m], n, k);
    }
  }

  /** Once a request is answered, no command is sent for it any more. */
  lemma NothingNewFor(cfg: Config, s: State, e: Event, n: nat, k: nat)
    requires Inv(cfg, s) && n in s.sessions && k < |s.sessions[n].answers|
    ensures var t := Step(cfg, s, e);
      && n in t.sessions && k < |t.sessions[n].answers|
      && forall r :: r in Known(t) && For(r, n, k) ==> r in Known(s)
  {
    assert SessionInv(cfg, n, s.sessions[n], Known(s), s.rows);
  }

  /** An answered request leaves nothing in the store, however the run goes on, if and only if
      no command of it was executed or is still on its way. */
  lemma NeverStoredExactlyWhen(cfg: Config, es: seq<Event>, n: nat, k: nat)
    requires n in After(cfg, es).sessions && k < |After(cfg, es).sessions[n].answers|
    ensures (forall fs :: Copies(After(cfg, es + fs).rows, n, k) == 0)
       <==> NoneKnown(Known(After(cfg, es)), n, k)
  {
    var s := After(cfg, es);
    if NoneKnown(Known(s), n, k) {
      forall fs ensures Copies(After(cfg, es + fs).rows, n, k) == 0 {
        GoesOn(cfg, es, fs, n, k);
        NoneKnownNoCopy(After(cfg, es + fs), n, k);
      }
    } else {
      var r :| r in Known(s) && For(r, n, k);
      var fs := if r in s.rows then [] else [Execute(r)];
      assert es + [] == es && (es + [Execute(r)])[..|es|] == es;
      var t := After(cfg, es + fs);
      assert r in t.rows;
      CopiesAreRows(t.rows, n, k);
    }
  }

  lemma NoneKnownNoCopy(s: State, n: nat, k: nat)
    requires NoneKnown(Known(s), n, k)
    ensures Copies(s.rows, n, k) == 0
  {
    CopiesAreRows(s.rows, n, k);
  }

  /** Redis, seen from the calls of the writer: whatever it is about to report, the request will
      never be in the stream if and only if every XADD that was sent on a sound context was
      refused. */
  lemma RedisNeverStoredExactlyWhen(cfg: Config, es: seq<Event>, n: nat)
    requires cfg.kind.RedisStore? && PhaseOf(After(cfg, es), n).Handling? && Enabled(cfg, After(cfg, es), Respond(n))
    ensures var s := After(cfg, es); var x := s.sessions[n];
      (forall fs :: Copies(After(cfg, es + [Respond(n)] + fs).rows, n, |x.received| - 1) == 0)
        <==> forall i: nat :: !Standing(x.phase.trace, i)
  {
    var s, x := After(cfg, es), After(cfg, es).sessions[n];
    RunKeepsInv(cfg, es);
    assert HandlingInv(cfg, n, x, Known(s), s.rows);
    var es', t := Go(cfg, es, s, Respond(n));
    NeverStoredExactlyWhen(cfg, es', n, |x.received| - 1);
    assert Known(t) == Known(s);
    StandingIsKnown(cfg, n, x, Known(s), s.rows);
  }

  lemma StandingIsKnown(cfg: Config, n: nat, x: Session, known: set<Row>, rows: seq<Row>)
    requires cfg.kind.RedisStore? && x.phase.Handling? && HandlingInv(cfg, n, x, known, rows)
    requires Next(cfg, x.phase.trace).Return?
    ensures NoneKnown(known, n, |x.received| - 1) <==> forall i: nat :: !Standing(x.phase.trace, i)
  {
    if i: nat :| Standing(x.phase.trace, i) {
      assert For(Row(n, |x.received| - 1, i, Last(x).body), n, |x.received| - 1);
    }
  }

  /** For a 503 no XADD was refused. */
  lemma UnavailableRefusesNothing(cfg: Config, trace: seq<CallEnd>, i: nat)
    requires cfg.kind.RedisStore? && i < |trace|
    requires forall j :: 0 <= j < |trace| ==> Fits(cfg, trace[..j], trace[j])
    requires Next(cfg, trace).Return? && Next(cfg, trace).result.error.StorageUnavailable?
    ensures Standing(trace, i) <==> RW.Sends(trace[..i])
  {
    assert Follows(RW.Fits, trace);
    RW.Shape(trace);
    assert Fits(cfg, trace[..i], trace[i]);
  }

  /** A Redis request that is answered with 503 will never be in the stream if and only if no
      XADD was sent for it on a sound context. */
  lemma RedisUnavailableNeverStoredExactlyWhen(cfg: Config, es: seq<Event>, n: nat)
    requires cfg.kind.RedisStore? && PhaseOf(After(cfg, es), n).Handling? && Enabled(cfg, After(cfg, es), Respond(n))
    requires Next(cfg, After(cfg, es).sessions[n].phase.trace).result.error.StorageUnavailable?
    ensures var s := After(cfg, es); var x := s.sessions[n];
      (forall fs :: Copies(After(cfg, es + [Respond(n)] + fs).rows, n, |x.received| - 1) == 0)
        <==> forall i: nat :: i < |x.phase.trace| ==> !RW.Sends(x.phase.trace[..i])
  {
    var s, x := After(cfg, es), After(cfg, es).sessions[n];
    RedisNeverStoredExactlyWhen(cfg, es, n);
    RunKeepsInv(cfg, es);
    assert HandlingInv(cfg, n, x, Known(s), s.rows);
    forall i: nat | i < |x.phase.trace| ensures Standing(x.phase.trace, i) <==> RW.Sends(x.phase.trace[..i]) {
      UnavailableRefusesNothing(cfg, x.phase.trace, i);
    }
  }
}
