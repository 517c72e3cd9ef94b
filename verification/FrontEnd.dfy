/** All sessions of the front end over one store, interleaved at every step.

    A handler call is not atomic. Each session's writer goes through the program of its
    class, one call at a time: `RedisWriter.Next` or `PostgresWriter.Next`. Between any two
    of its steps every other session may read, write, answer or close, and the server may
    execute whatever commands are on their way to it, also those whose sender has long given
    up waiting. What an answer says about the store is a conclusion. */
module FrontEnd {
  import opened Writers
  import opened Http
  import RW = RedisWriter
  import PW = PostgresWriter

  datatype Kind = RedisStore | PostgresStore

  /** The handler a process was started with. */
  datatype Config = Config(kind: Kind, checker: Checker)

  /** `Handling`: the calls the writer made so far, and whether an insert is under way. */
  datatype Phase = Reading | Handling(trace: seq<CallEnd>, waiting: bool) | Writing | Closed

  datatype Session = Session(phase: Phase, received: seq<Request>, answers: seq<Response>, written: nat)

  /** One insert command: for which request of which session, and after how many calls of the
      writer it was sent. */
  datatype Row = Row(session: nat, request: nat, call: nat, data: string)

  /** `rows` are all inserts that took effect, in that order; what the back end deletes stays
      here. `flight` are those that were sent and neither executed nor refused yet. */
  datatype State = State(sessions: map<nat, Session>, rows: seq<Row>, flight: set<Row>)

  datatype Event =
    | Accept(n: nat)
    | Read(n: nat, r: Request)
    | Send(n: nat)                  // an insert command leaves
    | Execute(row: Row)             // the server executes a command that is on its way
    | Comes(n: nat, end: CallEnd)   // a call of the writer returns
    | Respond(n: nat)               // the writer returns and the answer is prepared
    | Written(n: nat)
    | Lost(n: nat)                  // the read or the write failed, or the peer is gone

  const EMPTY := State(map[], [], {})

  function PhaseOf(s: State, n: nat): Phase { if n in s.sessions then s.sessions[n].phase else Closed }

  /** The writer's program. */
  function Next(cfg: Config, trace: seq<CallEnd>): Action {
    match cfg.kind
    case RedisStore => RW.Next(trace)
    case PostgresStore => PW.Next(trace)
  }

  predicate Fits(cfg: Config, trace: seq<CallEnd>, end: CallEnd) {
    match cfg.kind
    case RedisStore => RW.Fits(trace, end)
    case PostgresStore => PW.Fits(trace, end)
  }

  function Last(x: Session): Request
    requires x.received != []
  {
    x.received[|x.received| - 1]
  }

  /** The command a handling session sends next or has sent last. */
  function Current(n: nat, x: Session): Row
    requires x.phase.Handling? && x.received != []
  {
    Row(n, |x.received| - 1, |x.phase.trace|, Last(x).body)
  }

  /** When an insert can be sent: on a context without error, or in a transaction. */
  predicate CanSend(cfg: Config, trace: seq<CallEnd>) {
    Next(cfg, trace).Insert? && (cfg.kind.RedisStore? ==> RW.Sends(trace))
  }

  /** What the library promises about one command. A reply without error and a normal end of
      the transaction mean that it was executed; an error reply and a broken connection mean
      that it was not and never will be; anything else says nothing. */
  predicate Honest(s: State, row: Row, end: CallEnd) {
    match end
    case Replied(value) => if value.Error? then row in s.flight else row in s.rows
    case Committed => row in s.rows
    case BrokenConnection => row in s.flight
    case _ => true
  }

  predicate Withdrawn(end: CallEnd) { end.BrokenConnection? || (end.Replied? && end.value.Error?) }

  /** A call that is no insert, or fails before anything is sent, says nothing about rows. A
      Redis command on a sound context and a transaction that is confirmed were sent. */
  predicate CanCome(cfg: Config, s: State, n: nat, x: Session, end: CallEnd)
    requires x.phase.Handling?
  {
    && x.received != [] && Fits(cfg, x.phase.trace, end)
    && (x.phase.waiting ==> Honest(s, Current(n, x), end))
    && (!x.phase.waiting ==>
          && !end.Committed?
          && (cfg.kind.RedisStore? ==> !CanSend(cfg, x.phase.trace)))
  }

  predicate Enabled(cfg: Config, s: State, e: Event) {
    match e
    case Accept(n) => n !in s.sessions
    case Read(n, r) => PhaseOf(s, n).Reading?
    case Send(n) =>
      && PhaseOf(s, n).Handling? && !PhaseOf(s, n).waiting && s.sessions[n].received != []
      && CanSend(cfg, PhaseOf(s, n).trace)
    case Execute(row) => row in s.flight
    case Comes(n, end) => PhaseOf(s, n).Handling? && CanCome(cfg, s, n, s.sessions[n], end)
    case Respond(n) =>
      && PhaseOf(s, n).Handling? && s.sessions[n].received != []
      && Next(cfg, PhaseOf(s, n).trace).Return?
    case Written(n) => PhaseOf(s, n).Writing? && s.sessions[n].answers != []
    case Lost(n) => PhaseOf(s, n).Reading? || PhaseOf(s, n).Writing?
  }

  function OnRead(cfg: Config, x: Session, r: Request): Session {
    var y := x.(received := x.received + [r]);
    if ForHandler(r) && cfg.checker.accepts(r.body) then y.(phase := Handling([], false))
    else y.(phase := Writing, answers := x.answers + [Answer(r, Outcome(BadData, cfg.checker.complaint(r.body)))])
  }

  function OnComes(x: Session, end: CallEnd): Session
    requires x.phase.Handling?
  {
    x.(phase := Handling(x.phase.trace + [end], false))
  }

  function OnRespond(cfg: Config, x: Session): Session
    requires x.phase.Handling? && x.received != [] && Next(cfg, x.phase.trace).Return?
  {
    var w := Next(cfg, x.phase.trace).result;
    x.(phase := Writing, answers := x.answers + [Answer(Last(x), OutcomeOf(w))])
  }

  function OnWritten(x: Session): Session
    requires x.answers != []
  {
    var a := x.answers[|x.answers| - 1];
    x.(phase := if StaysOpen(a.version, a.connection) then Reading else Closed, written := x.written + 1)
  }

  function With(s: State, n: nat, x: Session): State { s.(sessions := s.sessions[n := x]) }

  function Step(cfg: Config, s: State, e: Event): State {
    if !Enabled(cfg, s, e) then s else
    match e
    case Accept(n) => With(s, n, Session(Reading, [], [], 0))
    case Read(n, r) => With(s, n, OnRead(cfg, s.sessions[n], r))
    case Send(n) =>
      var x := s.sessions[n];
      With(s, n, x.(phase := Handling(x.phase.trace, true))).(flight := s.flight + {Current(n, x)})
    case Execute(row) => s.(rows := s.rows + [row], flight := s.flight - {row})
    case Comes(n, end) =>
      var x := s.sessions[n];
      With(s, n, OnComes(x, end)).(flight := if Withdrawn(end) then s.flight - {Current(n, x)} else s.flight)
    case Respond(n) => With(s, n, OnRespond(cfg, s.sessions[n]))
    case Written(n) => With(s, n, OnWritten(s.sessions[n]))
    case Lost(n) => With(s, n, s.sessions[n].(phase := Closed))
  }

  function After(cfg: Config, es: seq<Event>): State {
    if es == [] then EMPTY else Step(cfg, After(cfg, es[..|es| - 1]), es[|es| - 1])
  }

  // ---------------------------------------------------------------- invariants

  /** Every command that was executed or still can be. */
  ghost function Known(s: State): set<Row> { (set r | r in s.rows) + s.flight }

  ghost predicate OnceEach(s: State) {
    && (forall i, j :: 0 <= i < j < |s.rows| ==> s.rows[i] != s.rows[j])
    && (forall i :: 0 <= i < |s.rows| ==> s.rows[i] !in s.flight)
  }

  /** After how many calls a writer sends its inserts. */
  predicate SendsAfter(cfg: Config, call: nat) {
    match cfg.kind
    case RedisStore => call == 1 || call == 3
    case PostgresStore => call <= PW.RECONNECT_RETRIES
  }

  ghost predicate RowInv(cfg: Config, s: State, r: Row) {
    && r.session in s.sessions && r.request < |s.sessions[r.session].received|
    && s.sessions[r.session].received[r.request].body == r.data
    && ForHandler(s.sessions[r.session].received[r.request]) && cfg.checker.accepts(r.data)
    && SendsAfter(cfg, r.call)
  }

  predicate For(r: Row, n: nat, k: nat) { r.session == n && r.request == k }

  /** No command for request `k` of session `n` was executed or still can be. */
  ghost predicate NoneKnown(known: set<Row>, n: nat, k: nat) {
    forall r :: r in known ==> !For(r, n, k)
  }

  ghost predicate OneKnown(known: set<Row>, n: nat, k: nat) {
    forall r, t :: r in known && t in known && For(r, n, k) && For(t, n, k) ==> r == t
  }

  ghost predicate InRows(rows: seq<Row>, n: nat, k: nat) { exists r :: r in rows && For(r, n, k) }

  /** The answer is one of those a client is promised, and 400 for data exactly if the checker
      refuses it. */
  ghost predicate Fitting(cfg: Config, r: Request, a: Response) {
    exists o: Outcome :: Documented(r, o, a) && (ForHandler(r) ==> (o.error.BadData? <==> !cfg.checker.accepts(r.body)))
  }

  /** What an answer owes to the store, and to its request. */
  ghost predicate AnsweredWell(cfg: Config, n: nat, x: Session, known: set<Row>, rows: seq<Row>, k: nat)
    requires k < |x.received| && k < |x.answers|
  {
    var r, a := x.received[k], x.answers[k];
    && StaysOpen(a.version, a.connection) == StaysOpen(r.version, r.connection)
    && Fitting(cfg, r, a)
    && (a.status == ACCEPTED ==> ForHandler(r) && cfg.checker.accepts(r.body) && InRows(rows, n, k))
    && (cfg.kind.PostgresStore? ==> OneKnown(known, n, k))
    && (cfg.kind.PostgresStore? && a.status == 503 ==> NoneKnown(known, n, k))
  }

  /** Call `i` sent an XADD that was not refused: executed, or still possible. */
  predicate Standing(trace: seq<CallEnd>, i: nat) {
    i < |trace| && RW.Sends(trace[..i]) && !Withdrawn(trace[i])
  }

  /** Redis: the commands of the request being handled that were executed or still can be are
      those its calls sent and nobody refused. */
  ghost predicate KnownAsSent(n: nat, x: Session, known: set<Row>)
    requires x.phase.Handling? && x.received != []
  {
    && (forall i: nat :: Standing(x.phase.trace, i) ==> Row(n, |x.received| - 1, i, Last(x).body) in known)
    && (forall r :: r in known && For(r, n, |x.received| - 1) && r.call < |x.phase.trace| ==>
          Standing(x.phase.trace, r.call))
  }

  /** How far the writer of a handling session has got, and what that says about the store. */
  ghost predicate HandlingInv(cfg: Config, n: nat, x: Session, known: set<Row>, rows: seq<Row>)
    requires x.phase.Handling?
  {
    && |x.received| == |x.answers| + 1 && ForHandler(Last(x)) && cfg.checker.accepts(Last(x).body)
    && (x.phase.waiting ==> CanSend(cfg, x.phase.trace) && Current(n, x) in known)
    && (cfg.kind.RedisStore? ==> KnownAsSent(n, x, known))
    && (forall r :: r in known && For(r, n, |x.answers|) ==>
          r.call < |x.phase.trace| + if x.phase.waiting then 1 else 0)
    && (forall i :: 0 <= i < |x.phase.trace| ==> Fits(cfg, x.phase.trace[..i], x.phase.trace[i]))
    && (Stores(cfg, x.phase.trace) ==> InRows(rows, n, |x.answers|))
    && (cfg.kind.PostgresStore? ==> OneKnown(known, n, |x.answers|))
    && (cfg.kind.PostgresStore? && !x.phase.waiting && Unsent(x.phase.trace) ==> NoneKnown(known, n, |x.answers|))
  }

  /** The program is about to report success. */
  predicate Stores(cfg: Config, trace: seq<CallEnd>) {
    Next(cfg, trace).Return? && Next(cfg, trace).result.error.Stored?
  }

  /** All attempts so far ended with a broken connection. */
  predicate Unsent(trace: seq<CallEnd>) { trace == [] || trace[|trace| - 1].BrokenConnection? }

  ghost predicate SessionInv(cfg: Config, n: nat, x: Session, known: set<Row>, rows: seq<Row>) {
    && |x.answers| <= |x.received|
    && (forall k :: 0 <= k < |x.answers| ==> AnsweredWell(cfg, n, x, known, rows, k))
    && (forall r :: r in known && r.session == n ==> r.request < |x.received|)
    && (x.phase.Handling? ==> HandlingInv(cfg, n, x, known, rows))
    && (!x.phase.Handling? ==> |x.received| == |x.answers|)
    && (x.phase.Reading? || x.phase.Handling? ==> x.written == |x.answers|)
    && (x.phase.Writing? ==> x.written + 1 == |x.answers|)
    && x.written <= |x.answers| <= x.written + 1
  }

  ghost predicate Inv(cfg: Config, s: State) {
    && OnceEach(s)
    && (forall n :: n in s.sessions ==> SessionInv(cfg, n, s.sessions[n], Known(s), s.rows))
    && (forall r :: r in Known(s) ==> RowInv(cfg, s, r))
  }

  // ------------------------------------------------- what other parties cannot spoil

  lemma AnsweredStable(cfg: Config, n: nat, x: Session, y: Session, known: set<Row>, known': set<Row>,
                       rows: seq<Row>, rows': seq<Row>, k: nat)
    requires k < |x.answers| && k < |x.received| && x.answers <= y.answers && x.received <= y.received
    requires AnsweredWell(cfg, n, x, known, rows, k)
    requires forall r :: r in known' && For(r, n, k) ==> r in known
    requires forall r :: r in rows ==> r in rows'
    ensures AnsweredWell(cfg, n, y, known', rows', k)
  {}

  lemma HandlingStable(cfg: Config, n: nat, x: Session, known: set<Row>, known': set<Row>,
                       rows: seq<Row>, rows': seq<Row>)
    requires x.phase.Handling? && HandlingInv(cfg, n, x, known, rows)
    requires forall r: Row :: r.session == n ==> (r in known' <==> r in known)
    requires forall r :: r in rows ==> r in rows'
    ensures HandlingInv(cfg, n, x, known', rows')
  {}

  /** A session does not notice when commands of others come and go, and rows are added. */
  lemma SessionStable(cfg: Config, n: nat, x: Session, known: set<Row>, known': set<Row>,
                      rows: seq<Row>, rows': seq<Row>)
    requires SessionInv(cfg, n, x, known, rows)
    requires forall r: Row :: r.session == n ==> (r in known' <==> r in known)
    requires forall r :: r in rows ==> r in rows'
    ensures SessionInv(cfg, n, x, known', rows')
  {
    forall k | 0 <= k < |x.answers| ensures AnsweredWell(cfg, n, x, known', rows', k) {
      AnsweredStable(cfg, n, x, x, known, known', rows, rows', k);
    }
    if x.phase.Handling? { HandlingStable(cfg, n, x, known, known', rows, rows'); }
  }

  lemma RowsStable(cfg: Config, s: State, t: State)
    requires forall r :: r in Known(s) ==> RowInv(cfg, s, r)
    requires Known(t) <= Known(s)
    requires forall n :: n in s.sessions ==> n in t.sessions && s.sessions[n].received <= t.sessions[n].received
    ensures forall r :: r in Known(t) ==> RowInv(cfg, t, r)
  {
    forall r | r in Known(t) ensures RowInv(cfg, t, r) {
      assert RowInv(cfg, s, r);
    }
  }

  // --------------------------------------------------------- steps of one session

  lemma AnswerIsFitting(cfg: Config, r: Request, o: Outcome)
    ensures ForHandler(r) && (o.error.BadData? <==> !cfg.checker.accepts(r.body)) ==> Fitting(cfg, r, Answer(r, o))
    ensures !ForHandler(r) ==> Fitting(cfg, r, Answer(r, o))
  {
    AnswerIsDocumented(r, o);
  }

  lemma ReadKeeps(cfg: Config, n: nat, x: Session, known: set<Row>, rows: seq<Row>, r: Request)
    requires SessionInv(cfg, n, x, known, rows) && x.phase.Reading?
    ensures SessionInv(cfg, n, OnRead(cfg, x, r), known, rows)
  {
    var y := OnRead(cfg, x, r);
    AnswerKeepsFlag(r, Outcome(BadData, cfg.checker.complaint(r.body)));
    AnswerIsFitting(cfg, r, Outcome(BadData, cfg.checker.complaint(r.body)));
    assert NoneKnown(known, n, |x.received|);
    forall k | 0 <= k < |y.answers| ensures AnsweredWell(cfg, n, y, known, rows, k) {
      if k < |x.answers| { AnsweredStable(cfg, n, x, y, known, known, rows, rows, k); }
    }
    if y.phase.Handling? { assert HandlingInv(cfg, n, y, known, rows); }
  }

  lemma SamePastKeeps(cfg: Config, n: nat, x: Session, y: Session, known: set<Row>, rows: seq<Row>)
    requires SessionInv(cfg, n, x, known, rows) && !x.phase.Handling? && !y.phase.Handling? && !y.phase.Writing?
    requires y.received == x.received && y.answers == x.answers && y.written <= |y.answers| <= y.written + 1
    requires y.phase.Reading? ==> y.written == |y.answers|
    ensures SessionInv(cfg, n, y, known, rows)
  {
    forall k | 0 <= k < |y.answers| ensures AnsweredWell(cfg, n, y, known, rows, k) {
      AnsweredStable(cfg, n, x, y, known, known, rows, rows, k);
    }
  }

  lemma RespondKeeps(cfg: Config, n: nat, x: Session, known: set<Row>, rows: seq<Row>)
    requires SessionInv(cfg, n, x, known, rows) && x.phase.Handling? && Next(cfg, x.phase.trace).Return?
    ensures SessionInv(cfg, n, OnRespond(cfg, x), known, rows)
  {
    var y, k := OnRespond(cfg, x), |x.answers|;
    AnswerKeepsFlag(Last(x), OutcomeOf(Next(cfg, x.phase.trace).result));
    AnswerIsFitting(cfg, Last(x), OutcomeOf(Next(cfg, x.phase.trace).result));
    forall i | 0 <= i < k ensures AnsweredWell(cfg, n, y, known, rows, i) {
      AnsweredStable(cfg, n, x, y, known, known, rows, rows, i);
    }
    assert AnsweredWell(cfg, n, y, known, rows, k);
  }

  lemma SendKeeps(cfg: Config, n: nat, x: Session, known: set<Row>, rows: seq<Row>)
    requires SessionInv(cfg, n, x, known, rows) && x.phase.Handling? && !x.phase.waiting
    requires CanSend(cfg, x.phase.trace)
    ensures SessionInv(cfg, n, x.(phase := Handling(x.phase.trace, true)), known + {Current(n, x)}, rows)
    ensures Current(n, x) !in known
  {
    var y := x.(phase := Handling(x.phase.trace, true));
    forall k | 0 <= k < |y.answers| ensures AnsweredWell(cfg, n, y, known + {Current(n, x)}, rows, k) {
      AnsweredStable(cfg, n, x, y, known, known + {Current(n, x)}, rows, rows, k);
    }
    assert HandlingInv(cfg, n, y, known + {Current(n, x)}, rows);
  }

  /** Redis: success is reported for an XADD that was confirmed, and for nothing else. */
  lemma StoresOnlyConfirmed(cfg: Config, trace: seq<CallEnd>, end: CallEnd)
    requires Fits(cfg, trace, end) && Stores(cfg, trace + [end])
    ensures end.Committed? || (end.Replied? && !end.value.Error?)
    ensures CanSend(cfg, trace)
  {}

  lemma ComesStored(cfg: Config, s: State, n: nat, x: Session, end: CallEnd)
    requires x.phase.Handling? && CanCome(cfg, s, n, x, end) && Stores(cfg, x.phase.trace + [end])
    ensures Current(n, x) in s.rows
  {
    StoresOnlyConfirmed(cfg, x.phase.trace, end);
  }

  /** Postgres: after a broken connection nothing of the request is left anywhere. */
  lemma ComesUnsent(cfg: Config, s: State, n: nat, x: Session, end: CallEnd, known: set<Row>, known': set<Row>)
    requires x.phase.Handling? && x.received != [] && HandlingInv(cfg, n, x, known, s.rows)
    requires cfg.kind.PostgresStore? && CanCome(cfg, s, n, x, end) && end.BrokenConnection?
    requires known == Known(s) && known' == known - {Current(n, x)}
    ensures NoneKnown(known', n, |x.answers|)
  {
    if x.phase.waiting {
      assert Current(n, x) in known;
    } else {
      assert Unsent(x.phase.trace);
    }
  }

  lemma TraceGrows(cfg: Config, trace: seq<CallEnd>, end: CallEnd)
    requires (forall i :: 0 <= i < |trace| ==> Fits(cfg, trace[..i], trace[i])) && Fits(cfg, trace, end)
    ensures var more := trace + [end]; forall i :: 0 <= i < |more| ==> Fits(cfg, more[..i], more[i])
  {
    var more := trace + [end];
    forall i | 0 <= i < |more| ensures Fits(cfg, more[..i], more[i]) {
      assert more[..i] == if i < |trace| then trace[..i] else trace;
    }
  }

  lemma StandingPush(trace: seq<CallEnd>, end: CallEnd)
    ensures forall i: nat :: i < |trace| ==> (Standing(trace + [end], i) <==> Standing(trace, i))
    ensures Standing(trace + [end], |trace|) <==> RW.Sends(trace) && !Withdrawn(end)
  {
    var more := trace + [end];
    forall i: nat | i < |trace| ensures Standing(more, i) <==> Standing(trace, i) {
      assert more[..i] == trace[..i];
    }
    assert more[..|trace|] == trace;
  }

  /** After a call, what it sent stands exactly if it was not refused. */
  lemma ComesKnownAsSent(cfg: Config, s: State, n: nat, x: Session, end: CallEnd, known': set<Row>)
    requires x.phase.Handling? && x.received != [] && HandlingInv(cfg, n, x, Known(s), s.rows)
    requires cfg.kind.RedisStore? && CanCome(cfg, s, n, x, end)
    requires forall r :: r in Known(s) && For(r, n, |x.received| - 1) ==> r.data == Last(x).body
    requires known' == if Withdrawn(end) then Known(s) - {Current(n, x)} else Known(s)
    ensures KnownAsSent(n, OnComes(x, end), known')
  {
    StandingPush(x.phase.trace, end);
  }

  lemma ComesKeepsHandling(cfg: Config, s: State, n: nat, x: Session, end: CallEnd, known': set<Row>)
    requires x.phase.Handling? && x.received != [] && HandlingInv(cfg, n, x, Known(s), s.rows)
    requires CanCome(cfg, s, n, x, end)
    requires forall r :: r in Known(s) && For(r, n, |x.received| - 1) ==> r.data == Last(x).body
    requires known' == if Withdrawn(end) then Known(s) - {Current(n, x)} else Known(s)
    ensures HandlingInv(cfg, n, OnComes(x, end), known', s.rows)
  {
    if cfg.kind.RedisStore? { ComesKnownAsSent(cfg, s, n, x, end, known'); }
    TraceGrows(cfg, x.phase.trace, end);
    if Stores(cfg, x.phase.trace + [end]) {
      ComesStored(cfg, s, n, x, end);
      assert For(Current(n, x), n, |x.answers|);
    }
    if cfg.kind.PostgresStore? && end.BrokenConnection? {
      ComesUnsent(cfg, s, n, x, end, Known(s), known');
    }
  }

  lemma ComesKeeps(cfg: Config, s: State, n: nat, x: Session, end: CallEnd, known': set<Row>)
    requires x.phase.Handling? && SessionInv(cfg, n, x, Known(s), s.rows) && CanCome(cfg, s, n, x, end)
    requires forall r :: r in Known(s) && For(r, n, |x.received| - 1) ==> r.data == Last(x).body
    requires known' == if Withdrawn(end) then Known(s) - {Current(n, x)} else Known(s)
    ensures SessionInv(cfg, n, OnComes(x, end), known', s.rows)
  {
    ComesKeepsHandling(cfg, s, n, x, end, known');
    forall k | 0 <= k < |x.answers| ensures AnsweredWell(cfg, n, OnComes(x, end), known', s.rows, k) {
      AnsweredStable(cfg, n, x, OnComes(x, end), Known(s), known', s.rows, s.rows, k);
    }
  }

  // ------------------------------------------------------------------ every step

  /** A step of session `n` that sends nothing, takes nothing back and forgets no request. */
  lemma QuietStepKeepsInv(cfg: Config, s: State, n: nat, x: Session)
    requires Inv(cfg, s) && SessionInv(cfg, n, x, Known(s), s.rows)
    requires n in s.sessions ==> s.sessions[n].received <= x.received
    ensures Inv(cfg, With(s, n, x))
  {
    var t := With(s, n, x);
    assert Known(t) == Known(s);
    RowsStable(cfg, s, t);
  }

  lemma AcceptKeepsInv(cfg: Config, s: State, n: nat)
    requires Inv(cfg, s) && n !in s.sessions
    ensures Inv(cfg, With(s, n, Session(Reading, [], [], 0)))
  {
    forall r | r in Known(s) ensures r.session != n {
      assert RowInv(cfg, s, r);
    }
    QuietStepKeepsInv(cfg, s, n, Session(Reading, [], [], 0));
  }

  lemma ExecuteKeepsInv(cfg: Config, s: State, row: Row)
    requires Inv(cfg, s) && row in s.flight
    ensures Inv(cfg, s.(rows := s.rows + [row], flight := s.flight - {row}))
  {
    var t := s.(rows := s.rows + [row], flight := s.flight - {row});
    assert Known(t) == Known(s);
    forall n | n in t.sessions ensures SessionInv(cfg, n, t.sessions[n], Known(t), t.rows) {
      SessionStable(cfg, n, s.sessions[n], Known(s), Known(t), s.rows, t.rows);
    }
    RowsStable(cfg, s, t);
  }

  /** Redis sends after one call or after three, Postgres before its third attempt is over. */
  lemma SendsInTime(cfg: Config, trace: seq<CallEnd>)
    requires forall i :: 0 <= i < |trace| ==> Fits(cfg, trace[..i], trace[i])
    requires CanSend(cfg, trace)
    ensures SendsAfter(cfg, |trace|)
  {
    if cfg.kind.RedisStore? {
      assert Follows(RW.Fits, trace);
      RW.Shape(trace);
    }
  }

  lemma SendKeepsInv(cfg: Config, s: State, n: nat)
    requires Inv(cfg, s) && Enabled(cfg, s, Send(n))
    ensures Inv(cfg, Step(cfg, s, Send(n)))
  {
    var x, t := s.sessions[n], Step(cfg, s, Send(n));
    var row := Current(n, x);
    assert SessionInv(cfg, n, x, Known(s), s.rows);
    SendKeeps(cfg, n, x, Known(s), s.rows);
    SendsInTime(cfg, x.phase.trace);
    assert Known(t) == Known(s) + {row};
    forall m | m in t.sessions ensures SessionInv(cfg, m, t.sessions[m], Known(t), t.rows) {
      if m != n { SessionStable(cfg, m, s.sessions[m], Known(s), Known(t), s.rows, t.rows); }
    }
    forall r | r in Known(t) ensures RowInv(cfg, t, r) {
      if r != row { assert RowInv(cfg, s, r); }
    }
  }

  lemma ComesKeepsInv(cfg: Config, s: State, n: nat, end: CallEnd)
    requires Inv(cfg, s) && Enabled(cfg, s, Comes(n, end))
    ensures Inv(cfg, Step(cfg, s, Comes(n, end)))
  {
    var x, t := s.sessions[n], Step(cfg, s, Comes(n, end));
    var row := Current(n, x);
    assert SessionInv(cfg, n, x, Known(s), s.rows);
    assert Known(t) == if Withdrawn(end) then Known(s) - {row} else Known(s) by {
      if Withdrawn(end) { WithdrawnIsNoRow(cfg, s, n, end); }
    }
    forall r | r in Known(s) && For(r, n, |x.received| - 1) ensures r.data == Last(x).body {
      assert RowInv(cfg, s, r);
    }
    ComesKeeps(cfg, s, n, x, end, Known(t));
    forall m | m in t.sessions ensures SessionInv(cfg, m, t.sessions[m], Known(t), t.rows) {
      if m != n { SessionStable(cfg, m, s.sessions[m], Known(s), Known(t), s.rows, t.rows); }
    }
    RowsStable(cfg, s, t);
  }

  lemma WithdrawnIsNoRow(cfg: Config, s: State, n: nat, end: CallEnd)
    requires Inv(cfg, s) && Enabled(cfg, s, Comes(n, end)) && Withdrawn(end)
    ensures Current(n, s.sessions[n]) !in s.rows
  {
    var x := s.sessions[n];
    if !x.phase.waiting { assert HandlingInv(cfg, n, x, Known(s), s.rows); }
  }

  lemma StepKeepsInv(cfg: Config, s: State, e: Event)
    requires Inv(cfg, s) && Enabled(cfg, s, e)
    ensures Inv(cfg, Step(cfg, s, e))
  {
    match e
    case Accept(n) => AcceptKeepsInv(cfg, s, n);
    case Read(n, r) =>
      ReadKeeps(cfg, n, s.sessions[n], Known(s), s.rows, r);
      QuietStepKeepsInv(cfg, s, n, OnRead(cfg, s.sessions[n], r));
    case Send(n) => SendKeepsInv(cfg, s, n);
    case Execute(row) => ExecuteKeepsInv(cfg, s, row);
    case Comes(n, end) => ComesKeepsInv(cfg, s, n, end);
    case Respond(n) =>
      RespondKeeps(cfg, n, s.sessions[n], Known(s), s.rows);
      QuietStepKeepsInv(cfg, s, n, OnRespond(cfg, s.sessions[n]));
    case Written(n) =>
      SamePastKeeps(cfg, n, s.sessions[n], OnWritten(s.sessions[n]), Known(s), s.rows);
      QuietStepKeepsInv(cfg, s, n, OnWritten(s.sessions[n]));
    case Lost(n) =>
      SamePastKeeps(cfg, n, s.sessions[n], s.sessions[n].(phase := Closed), Known(s), s.rows);
      QuietStepKeepsInv(cfg, s, n, s.sessions[n].(phase := Closed));
  }

  lemma {:induction false} RunKeepsInv(cfg: Config, es: seq<Event>)
    ensures Inv(cfg, After(cfg, es))
  {
    if es != [] {
      var s, e := After(cfg, es[..|es| - 1]), es[|es| - 1];
      RunKeepsInv(cfg, es[..|es| - 1]);
      if Enabled(cfg, s, e) { StepKeepsInv(cfg, s, e); }
    }
  }

  // ------------------------------------------------------------------- the results

  /** How many copies of request `k` of session `n` are in the store. */
  function Copies(rows: seq<Row>, n: nat, k: nat): nat {
    if rows == [] then 0
    else Copies(rows[..|rows| - 1], n, k) + if For(rows[|rows| - 1], n, k) then 1 else 0
  }

  lemma {:induction false} CopiesBounded(rows: seq<Row>, n: nat, k: nat, all: set<Row>)
    requires forall i, j :: 0 <= i < j < |rows| ==> rows[i] != rows[j]
    requires forall r :: r in rows && For(r, n, k) ==> r in all
    ensures Copies(rows, n, k) <= |all|
  {
    if rows != [] {
      var m, last := |rows| - 1, rows[|rows| - 1];
      assert forall r :: r in rows[..m] ==> r in rows && r != last;
      CopiesBounded(rows[..m], n, k, if For(last, n, k) then all - {last} else all);
      assert last in rows;
    }
  }

  lemma {:induction false} CopiesAreRows(rows: seq<Row>, n: nat, k: nat)
    ensures Copies(rows, n, k) >= 1 <==> InRows(rows, n, k)
  {
    if rows != [] {
      var m := |rows| - 1;
      CopiesAreRows(rows[..m], n, k);
      assert rows == rows[..m] + [rows[m]];
    }
  }

  /** Redis stores at most two copies of a request, Postgres at most one. */
  function MaxCopies(cfg: Config): nat { if cfg.kind.RedisStore? then 2 else 1 }

  lemma RedisCopies(cfg: Config, s: State, n: nat, k: nat)
    requires Inv(cfg, s) && cfg.kind.RedisStore? && n in s.sessions && k < |s.sessions[n].received|
    ensures Copies(s.rows, n, k) <= 2
  {
    var data := s.sessions[n].received[k].body;
    var all := {Row(n, k, 1, data), Row(n, k, 3, data)};
    forall r | r in s.rows && For(r, n, k) ensures r in all {
      assert RowInv(cfg, s, r);
    }
    CopiesBounded(s.rows, n, k, all);
  }

  lemma OneKnownIsOneCopy(s: State, n: nat, k: nat)
    requires OnceEach(s) && OneKnown(Known(s), n, k)
    ensures Copies(s.rows, n, k) <= 1
    ensures NoneKnown(Known(s), n, k) ==> Copies(s.rows, n, k) == 0
  {
    CopiesAreRows(s.rows, n, k);
    if r :| r in s.rows && For(r, n, k) {
      CopiesBounded(s.rows, n, k, {r});
    }
  }

  lemma CopiesInTime(cfg: Config, s: State, n: nat, k: nat)
    requires Inv(cfg, s) && n in s.sessions && k < |s.sessions[n].received|
    ensures Copies(s.rows, n, k) <= MaxCopies(cfg)
  {
    var x := s.sessions[n];
    assert SessionInv(cfg, n, x, Known(s), s.rows);
    if cfg.kind.RedisStore? {
      RedisCopies(cfg, s, n, k);
    } else {
      if k < |x.answers| { assert AnsweredWell(cfg, n, x, Known(s), s.rows, k); }
      OneKnownIsOneCopy(s, n, k);
    }
  }

  /** The answer `k` of session `n` was 202: then it was checked and is stored. */
  ghost predicate Kept(cfg: Config, s: State, n: nat, k: nat)
    requires n in s.sessions && k < |s.sessions[n].received|
  {
    var r := s.sessions[n].received[k];
    && ForHandler(r) && cfg.checker.accepts(r.body)
    && (exists row :: row in s.rows && For(row, n, k) && row.data == r.body)
    && 1 <= Copies(s.rows, n, k) <= MaxCopies(cfg)
  }

  lemma AcceptedIsKept(cfg: Config, s: State, n: nat, k: nat)
    requires Inv(cfg, s) && n in s.sessions && k < |s.sessions[n].answers| <= |s.sessions[n].received|
    requires s.sessions[n].answers[k].status == ACCEPTED
    ensures Kept(cfg, s, n, k)
  {
    assert AnsweredWell(cfg, n, s.sessions[n], Known(s), s.rows, k);
    CopiesAreRows(s.rows, n, k);
    CopiesInTime(cfg, s, n, k);
    var row :| row in s.rows && For(row, n, k);
    assert RowInv(cfg, s, row);
  }

  /** 202 means stored, request by request, in every interleaving: the body was posted to the
      handler, the checker accepted it, and a row inserted for this very request holds it.
      Whatever the answer, Redis stores at most two copies and Postgres at most one, so with
      Postgres a 202 means exactly one, and a 503 none, ever. Sessions answer in order, at most
      one answer is under way, and each answer carries the flag of its request. */
  lemma AcceptedMeansStored(cfg: Config, es: seq<Event>, n: nat, k: nat)
    requires n in After(cfg, es).sessions && k < |After(cfg, es).sessions[n].answers|
    ensures var s, x := After(cfg, es), After(cfg, es).sessions[n];
      && k < |x.received| && x.written <= |x.answers| <= x.written + 1
      && StaysOpen(x.answers[k].version, x.answers[k].connection)
           == StaysOpen(x.received[k].version, x.received[k].connection)
      && (x.answers[k].status == ACCEPTED ==> Kept(cfg, s, n, k))
      && (cfg.kind.PostgresStore? && x.answers[k].status == 503 ==> Copies(s.rows, n, k) == 0)
  {
    RunKeepsInv(cfg, es);
    var s := After(cfg, es);
    assert SessionInv(cfg, n, s.sessions[n], Known(s), s.rows);
    assert AnsweredWell(cfg, n, s.sessions[n], Known(s), s.rows, k);
    if s.sessions[n].answers[k].status == ACCEPTED { AcceptedIsKept(cfg, s, n, k); }
    if cfg.kind.PostgresStore? { OneKnownIsOneCopy(s, n, k); }
  }

  /** At any time, answered or not, a request has at most two copies in a Redis stream and at
      most one in a Postgres table, whatever is still on its way. */
  lemma CopiesAreBounded(cfg: Config, es: seq<Event>, n: nat, k: nat)
    requires n in After(cfg, es).sessions && k < |After(cfg, es).sessions[n].received|
    ensures Copies(After(cfg, es).rows, n, k) <= MaxCopies(cfg)
  {
    RunKeepsInv(cfg, es);
    CopiesInTime(cfg, After(cfg, es), n, k);
  }

  /** Nothing enters the store that the checker did not accept, and every row is the body
      of a request some session received for the handler. */
  lemma StoreHoldsOnlyChecked(cfg: Config, es: seq<Event>, i: nat)
    requires i < |After(cfg, es).rows|
    ensures var s, r := After(cfg, es), After(cfg, es).rows[i];
      && cfg.checker.accepts(r.data) && r.session in s.sessions
      && r.request < |s.sessions[r.session].received|
      && s.sessions[r.session].received[r.request].body == r.data
      && ForHandler(s.sessions[r.session].received[r.request])
  {
    RunKeepsInv(cfg, es);
    assert RowInv(cfg, After(cfg, es), After(cfg, es).rows[i]);
  }

  /** The status of every answer, in every run: 405 for another method, 400 for another path and
      for refused data, and for accepted data 202 with an empty body, 500 or 503. */
  lemma StatusesAreAsDocumented(cfg: Config, es: seq<Event>, n: nat, k: nat)
    requires n in After(cfg, es).sessions && k < |After(cfg, es).sessions[n].answers|
    ensures var x := After(cfg, es).sessions[n];
      && k < |x.received|
      && var (r, a) := (x.received[k], x.answers[k]);
         && a.version == r.version
         && (!r.post ==> a.status == 405 && a.body == "{\"error\": \"wrong HTTP method\"}")
         && (r.post && r.target != "/instrument" ==> a.status == 400 && a.body == "{\"error\": \"wrong path\"}")
         && (r.post && r.target == "/instrument" ==>
               if cfg.checker.accepts(r.body) then a.status in {202, 500, 503} && (a.status == 202 ==> a.body == "")
               else a.status == 400)
  {
    RunKeepsInv(cfg, es);
    var s := After(cfg, es);
    assert SessionInv(cfg, n, s.sessions[n], Known(s), s.rows);
    assert AnsweredWell(cfg, n, s.sessions[n], Known(s), s.rows, k);
  }

  predicate WriterSays(w: WriteResult, a: Response) {
    && (w.error.Stored? ==> a.status == 202 && a.body == "")
    && (w.error.StorageUnavailable? ==> a.status == 503 && a.body == "{\"error\": \"" + w.message + "\"}")
    && (w.error.Generic? ==> a.status == 500 && a.body == "{\"error\": \"" + w.message + "\"}")
  }

  /** Which of the three it is: 202 for a success of the writer, 503 if the storage is unavailable,
      500 for its other error, the last two with the writer's message. */
  lemma WriterDecidesStatus(cfg: Config, es: seq<Event>, n: nat)
    requires Enabled(cfg, After(cfg, es), Respond(n))
    ensures var x, y := After(cfg, es).sessions[n], After(cfg, es + [Respond(n)]).sessions[n];
      var w := Next(cfg, x.phase.trace).result;
      |y.answers| == |x.answers| + 1 && WriterSays(w, y.answers[|x.answers|])
  {
    RunKeepsInv(cfg, es);
    var s := After(cfg, es);
    assert SessionInv(cfg, n, s.sessions[n], Known(s), s.rows);
    RespondSays(cfg, s.sessions[n]);
    assert (es + [Respond(n)])[..|es|] == es;
  }

  lemma RespondSays(cfg: Config, x: Session)
    requires x.phase.Handling? && x.received != [] && Next(cfg, x.phase.trace).Return? && ForHandler(Last(x))
    ensures var y, w := OnRespond(cfg, x), Next(cfg, x.phase.trace).result;
      |y.answers| == |x.answers| + 1 && WriterSays(w, y.answers[|x.answers|])
  {
    AnswerIsDocumented(Last(x), OutcomeOf(Next(cfg, x.phase.trace).result));
  }
}
