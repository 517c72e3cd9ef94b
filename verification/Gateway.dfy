/** Both processes over one store: from the client's request to the file.

    The machines of `FrontEnd` and `Delivery` run side by side. What joins them is one event:
    when the server executes an insert, the row becomes visible to the back end with an id. */
module Gateway {
  import opened Messages
  import opened Writers
  import opened Http
  import B = Delivery
  import F = FrontEnd
  import LF = LossFree
  import Losses
  import R = RedisWire
  import Runs = FrontEndRuns
  import H = Hiredis

  datatype Config = Config(front: F.Config, back: B.Config)

  datatype State = State(front: F.State, back: B.State)

  datatype Event =
    | Front(f: F.Event)                 // a step of a session or of its writer
    | Visible(row: F.Row, id: nat)      // the server executes an insert
    | Back(b: B.Event)                  // a step of the run loop or of a saver, or a late delete

  const INIT := State(F.EMPTY, B.INIT)

  function Inserted(row: F.Row, id: nat): B.Event { B.Insert(Message(id, row.data)) }

  predicate Allowed(cfg: Config, w: B.World, s: State, e: Event) {
    match e
    case Front(f) => !f.Execute? && F.Enabled(cfg.front, s.front, f)
    case Visible(row, id) => row in s.front.flight && B.Allowed(w, s.back, Inserted(row, id))
    case Back(b) => !b.Insert? && B.Allowed(w, s.back, b)
  }

  function Step(cfg: Config, s: State, e: Event): State {
    match e
    case Front(f) => s.(front := F.Step(cfg.front, s.front, f))
    case Visible(row, id) =>
      State(F.Step(cfg.front, s.front, F.Execute(row)), B.Step(cfg.back, s.back, Inserted(row, id)))
    case Back(b) => s.(back := B.Step(cfg.back, s.back, b))
  }

  function After(cfg: Config, es: seq<Event>): State {
    if es == [] then INIT else Step(cfg, After(cfg, es[..|es| - 1]), es[|es| - 1])
  }

  predicate IsRun(cfg: Config, w: B.World, es: seq<Event>) {
    es == [] || (IsRun(cfg, w, es[..|es| - 1]) && Allowed(cfg, w, After(cfg, es[..|es| - 1]), es[|es| - 1]))
  }

  // ------------------------------------------------ what each machine sees of a run

  function Fronts(es: seq<Event>): seq<F.Event> {
    if es == [] then []
    else
      var before := Fronts(es[..|es| - 1]);
      match es[|es| - 1]
      case Front(f) => before + [f]
      case Visible(row, _) => before + [F.Execute(row)]
      case Back(_) => before
  }

  function Backs(es: seq<Event>): seq<B.Event> {
    if es == [] then []
    else
      var before := Backs(es[..|es| - 1]);
      match es[|es| - 1]
      case Front(_) => before
      case Visible(row, id) => before + [Inserted(row, id)]
      case Back(b) => before + [b]
  }

  /** The rows of the front end are the messages of the back end, in the order they became
      visible. */
  ghost predicate Linked(s: State) {
    && |s.front.rows| == |s.back.inserted|
    && forall i :: 0 <= i < |s.front.rows| ==> s.front.rows[i].data == s.back.inserted[i].data
  }

  lemma FrontPush(cfg: F.Config, fs: seq<F.Event>, f: F.Event)
    ensures F.After(cfg, fs + [f]) == F.Step(cfg, F.After(cfg, fs), f)
  {
    assert (fs + [f])[..|fs|] == fs;
  }

  lemma OneBack(cfg: Config, w: B.World, bs: seq<B.Event>, s: B.State, b: B.Event)
    requires B.IsRun(cfg.back, w, bs) && B.After(cfg.back, bs) == s && B.Allowed(w, s, b)
    ensures B.IsRun(cfg.back, w, bs + [b]) && B.After(cfg.back, bs + [b]) == B.Step(cfg.back, s, b)
  {
    B.RunStep(cfg.back, w, bs, b);
  }

  lemma {:induction false} RunIsBoth(cfg: Config, w: B.World, es: seq<Event>)
    requires IsRun(cfg, w, es)
    ensures After(cfg, es).front == F.After(cfg.front, Fronts(es))
    ensures B.IsRun(cfg.back, w, Backs(es)) && After(cfg, es).back == B.After(cfg.back, Backs(es))
  {
    if es != [] {
      var before, e := es[..|es| - 1], es[|es| - 1];
      var s := After(cfg, before);
      RunIsBoth(cfg, w, before);
      match e
      case Front(f) => FrontPush(cfg.front, Fronts(before), f);
      case Visible(row, id) =>
        FrontPush(cfg.front, Fronts(before), F.Execute(row));
        OneBack(cfg, w, Backs(before), s.back, Inserted(row, id));
      case Back(b) => OneBack(cfg, w, Backs(before), s.back, b);
    }
  }

  lemma FrontKeepsRows(cfg: F.Config, s: F.State, f: F.Event)
    requires !f.Execute?
    ensures F.Step(cfg, s, f).rows == s.rows
  {}

  lemma BackKeepsInserted(cfg: B.Config, s: B.State, b: B.Event)
    requires !b.Insert?
    ensures B.Step(cfg, s, b).inserted == s.inserted
  {}

  lemma {:induction false} RunKeepsLinked(cfg: Config, w: B.World, es: seq<Event>)
    requires IsRun(cfg, w, es)
    ensures Linked(After(cfg, es))
  {
    if es != [] {
      var before, e := es[..|es| - 1], es[|es| - 1];
      RunKeepsLinked(cfg, w, before);
      match e
      case Front(f) => FrontKeepsRows(cfg.front, After(cfg, before).front, f);
      case Visible(row, id) =>
      case Back(b) => BackKeepsInserted(cfg.back, After(cfg, before).back, b);
    }
  }

  // ------------------------------------------------------------------ end to end

  /** Row `i` is in the store, on its way through the consumer, or on disk at its place. */
  ghost predicate InCustody(s: State, i: nat)
    requires i < |s.back.inserted|
  {
    s.back.inserted[i] in s.back.store || LF.Safe(s.back, s.back.inserted[i])
  }

  /** A row inserted for request `k` of session `n` holds its body and is in custody. */
  ghost predicate Kept(s: State, n: nat, k: nat) {
    && n in s.front.sessions && k < |s.front.sessions[n].received|
    && exists i: nat :: i < |s.front.rows| && i < |s.back.inserted| && F.For(s.front.rows[i], n, k)
         && s.back.inserted[i].data == s.front.sessions[n].received[k].body && InCustody(s, i)
  }

  ghost predicate AllAcceptedKept(s: State) {
    forall n: nat, k: nat :: Runs.AnsweredWith(s.front, n, k, ACCEPTED) ==> Kept(s, n, k)
  }

  predicate LossFree(cfg: B.Config, w: B.World) {
    w.settled || cfg.chunkSize == 1 || (w.ascending && (w.exclusive || cfg.fetchSize == 1))
  }

  lemma AcceptedIsKept(cfg: Config, w: B.World, es: seq<Event>, n: nat, k: nat)
    requires cfg.back.Valid() && IsRun(cfg, w, es) && LossFree(cfg.back, w)
    requires Runs.AnsweredWith(After(cfg, es).front, n, k, ACCEPTED)
    ensures Kept(After(cfg, es), n, k)
  {
    var s := After(cfg, es);
    RunIsBoth(cfg, w, es);
    RunKeepsLinked(cfg, w, es);
    F.AcceptedMeansStored(cfg.front, Fronts(es), n, k);
    var row :| row in s.front.rows && F.For(row, n, k) && row.data == s.front.sessions[n].received[k].body;
    var i :| 0 <= i < |s.front.rows| && s.front.rows[i] == row;
    Losses.LossFreeRun(cfg.back, w, Backs(es));
    assert s.back.inserted[i] in s.back.inserted;
    assert InCustody(s, i);
  }

  /** After the shutdown of the back end, what was accepted is in the store or on disk. */
  lemma AcceptedEndsOnDisk(cfg: Config, w: B.World, es: seq<Event>, n: nat, k: nat)
    requires cfg.back.Valid() && IsRun(cfg, w, es) && LossFree(cfg.back, w)
    requires After(cfg, es).back.phase.Stopped? && B.AllSaved(After(cfg, es).back)
    requires Runs.AnsweredWith(After(cfg, es).front, n, k, ACCEPTED)
    ensures var s := After(cfg, es);
      exists m :: (m in s.back.store || LF.OnDisk(s.back.flushed, s.back.disk, m))
        && k < |s.front.sessions[n].received| && m.data == s.front.sessions[n].received[k].body
  {
    var s := After(cfg, es);
    AcceptedIsKept(cfg, w, es, n, k);
    var i: nat :| i < |s.front.rows| && i < |s.back.inserted| && F.For(s.front.rows[i], n, k)
      && s.back.inserted[i].data == s.front.sessions[n].received[k].body && InCustody(s, i);
    RunIsBoth(cfg, w, es);
    Losses.StoppedMeansOnDisk(cfg.back, w, Backs(es));
    assert s.back.inserted[i] in s.back.inserted;
  }

  /** What the consumer is given, and so what is on disk, some client posted and the checker
      accepted. */
  lemma DeliveredWasPosted(cfg: Config, w: B.World, es: seq<Event>, m: Message)
    requires cfg.back.Valid() && IsRun(cfg, w, es) && m in After(cfg, es).back.log
    ensures cfg.front.checker.accepts(m.data)
    ensures var s := After(cfg, es);
      exists n, k: nat :: n in s.front.sessions && k < |s.front.sessions[n].received|
        && s.front.sessions[n].received[k].body == m.data && ForHandler(s.front.sessions[n].received[k])
  {
    var s := After(cfg, es);
    RunIsBoth(cfg, w, es);
    RunKeepsLinked(cfg, w, es);
    B.DeletedWasDelivered(cfg.back, w, Backs(es));
    var i :| 0 <= i < |s.back.inserted| && s.back.inserted[i] == m;
    F.StoreHoldsOnlyChecked(cfg.front, Fronts(es), i);
    var row := s.front.rows[i];
    assert s.front.sessions[row.session].received[row.request].body == m.data;
  }

  // ----------------------------------------------------------------- exactly when

  lemma Go(cfg: Config, w: B.World, es: seq<Event>, s: State, e: Event) returns (es': seq<Event>, s': State)
    requires IsRun(cfg, w, es) && After(cfg, es) == s && Allowed(cfg, w, s, e)
    ensures es' == es + [e] && s' == Step(cfg, s, e)
    ensures IsRun(cfg, w, es') && After(cfg, es') == s'
  {
    es', s' := es + [e], Step(cfg, s, e);
    assert es'[..|es|] == es;
  }

  /** One session for each row, which posted its body and was told that it is accepted. */
  ghost predicate OnePostEach(s: F.State) {
    && (forall i: nat :: i in s.sessions <==> i < |s.rows|) && s.flight == {}
    && forall i: nat :: i < |s.rows| ==>
         && s.rows[i].session == i && s.rows[i].request == 0 && |s.sessions[i].received| == 1
         && Runs.AnsweredWith(s, i, 0, ACCEPTED)
  }

  /** The session after the ones there are, `calls` into handling its post. */
  function Handling(body: string, calls: seq<CallEnd>, waiting: bool): F.Session {
    F.Session(F.Handling(calls, waiting), [Runs.Post(body)], [], 0)
  }

  lemma ReadPost(cfg: F.Config, body: string)
    requires cfg.checker.accepts(body)
    ensures F.OnRead(cfg, F.Session(F.Reading, [], [], 0), Runs.Post(body)) == Handling(body, [], false)
  {
    assert ForHandler(Runs.Post(body));
    assert [] + [Runs.Post(body)] == [Runs.Post(body)];
  }

  lemma Posted(cfg: Config, w: B.World, es: seq<Event>, s: State, n: nat, body: string)
    returns (es': seq<Event>, s': State)
    requires IsRun(cfg, w, es) && After(cfg, es) == s && n !in s.front.sessions && cfg.front.checker.accepts(body)
    ensures IsRun(cfg, w, es') && After(cfg, es') == s'
    ensures s' == s.(front := F.With(s.front, n, Handling(body, [], false)))
  {
    var opening := F.Session(F.Reading, [], [], 0);
    es', s' := Go(cfg, w, es, s, Front(F.Accept(n)));
    assert s' == s.(front := F.With(s.front, n, opening));
    ReadPost(cfg.front, body);
    es', s' := Go(cfg, w, es', s', Front(F.Read(n, Runs.Post(body))));
    assert s.front.sessions[n := opening][n := Handling(body, [], false)]
        == s.front.sessions[n := Handling(body, [], false)];
  }

  /** The calls after which the writer sends, and how a confirmed insert ends. */
  function Ready(kind: F.Kind): seq<CallEnd> { if kind.RedisStore? then [Found(H.OK)] else [] }

  function Confirmation(kind: F.Kind): CallEnd {
    if kind.RedisStore? then Replied(R.Str("0-1")) else Committed
  }

  lemma Connected(cfg: Config, w: B.World, es: seq<Event>, s: State, n: nat, body: string)
    returns (es': seq<Event>, s': State)
    requires IsRun(cfg, w, es) && After(cfg, es) == s
    requires n in s.front.sessions && s.front.sessions[n] == Handling(body, [], false)
    ensures IsRun(cfg, w, es') && After(cfg, es') == s'
    ensures s' == s.(front := F.With(s.front, n, Handling(body, Ready(cfg.front.kind), false)))
  {
    es', s' := es, s;
    if cfg.front.kind.RedisStore? {
      es', s' := Go(cfg, w, es, s, Front(F.Comes(n, Found(H.OK))));
      assert [] + [Found(H.OK)] == [Found(H.OK)];
    }
    assert s'.front.sessions == s.front.sessions[n := Handling(body, Ready(cfg.front.kind), false)];
  }

  lemma SentAndVisible(cfg: Config, w: B.World, es: seq<Event>, s: State, n: nat, m: Message)
    returns (es': seq<Event>, s': State)
    requires IsRun(cfg, w, es) && After(cfg, es) == s && s.front.flight == {}
    requires n in s.front.sessions && s.front.sessions[n] == Handling(m.data, Ready(cfg.front.kind), false)
    requires B.Allowed(w, s.back, B.Insert(m))
    ensures IsRun(cfg, w, es') && After(cfg, es') == s'
    ensures var row := F.Row(n, 0, |Ready(cfg.front.kind)|, m.data);
      && s'.front == F.State(s.front.sessions[n := Handling(m.data, Ready(cfg.front.kind), true)],
                             s.front.rows + [row], {})
      && s'.back == B.Step(cfg.back, s.back, B.Insert(m))
  {
    var row := F.Row(n, 0, |Ready(cfg.front.kind)|, m.data);
    es', s' := Go(cfg, w, es, s, Front(F.Send(n)));
    assert s'.front.flight == {row};
    assert Inserted(row, m.id) == B.Insert(m);
    es', s' := Go(cfg, w, es', s', Visible(row, m.id));
    assert {row} - {row} == {};
  }

  lemma Told(cfg: Config, w: B.World, es: seq<Event>, s: State, n: nat, body: string)
    returns (es': seq<Event>, s': State)
    requires IsRun(cfg, w, es) && After(cfg, es) == s
    requires n in s.front.sessions && s.front.sessions[n] == Handling(body, Ready(cfg.front.kind), true)
    requires F.Row(n, 0, |Ready(cfg.front.kind)|, body) in s.front.rows
    ensures IsRun(cfg, w, es') && After(cfg, es') == s'
    ensures s'.back == s.back && s'.front.rows == s.front.rows && s'.front.flight == s.front.flight
    ensures n in s'.front.sessions && s'.front.sessions == s.front.sessions[n := s'.front.sessions[n]]
    ensures |s'.front.sessions[n].received| == 1 && Runs.AnsweredWith(s'.front, n, 0, ACCEPTED)
  {
    es', s' := Go(cfg, w, es, s, Front(F.Comes(n, Confirmation(cfg.front.kind))));
    es', s' := Go(cfg, w, es', s', Front(F.Respond(n)));
  }

  lemma OneMorePost(s: F.State, t: F.State, row: F.Row)
    requires OnePostEach(s) && t.rows == s.rows + [row] && t.flight == {}
    requires row.session == |s.rows| && row.request == 0 && |s.rows| in t.sessions
    requires t.sessions == s.sessions[|s.rows| := t.sessions[|s.rows|]]
    requires |t.sessions[|s.rows|].received| == 1 && Runs.AnsweredWith(t, |s.rows|, 0, ACCEPTED)
    ensures OnePostEach(t)
  {
    forall i: nat | i < |t.rows|
      ensures t.rows[i].session == i && t.rows[i].request == 0 && |t.sessions[i].received| == 1
      ensures Runs.AnsweredWith(t, i, 0, ACCEPTED)
    {
      if i < |s.rows| { assert Runs.AnsweredWith(s, i, 0, ACCEPTED); }
    }
  }

  /** From the post to the row: the session after the ones there are handles it. */
  lemma PostVisible(cfg: Config, w: B.World, es: seq<Event>, s: State, n: nat, m: Message)
    returns (es': seq<Event>, s': State)
    requires IsRun(cfg, w, es) && After(cfg, es) == s && n !in s.front.sessions && s.front.flight == {}
    requires B.Allowed(w, s.back, B.Insert(m)) && cfg.front.checker.accepts(m.data)
    ensures IsRun(cfg, w, es') && After(cfg, es') == s'
    ensures s'.back == B.Step(cfg.back, s.back, B.Insert(m))
    ensures s'.front == F.State(s.front.sessions[n := Handling(m.data, Ready(cfg.front.kind), true)],
                                s.front.rows + [F.Row(n, 0, |Ready(cfg.front.kind)|, m.data)], {})
  {
    es', s' := Posted(cfg, w, es, s, n, m.data);
    es', s' := Connected(cfg, w, es', s', n, m.data);
    var connected := s'.front.sessions;
    es', s' := SentAndVisible(cfg, w, es', s', n, m);
    assert connected[n := Handling(m.data, Ready(cfg.front.kind), true)]
        == s.front.sessions[n := Handling(m.data, Ready(cfg.front.kind), true)];
  }

  /** A client posts what becomes visible next, and is told that it is accepted. */
  lemma PostOne(cfg: Config, w: B.World, es: seq<Event>, s: State, m: Message) returns (es': seq<Event>, s': State)
    requires IsRun(cfg, w, es) && After(cfg, es) == s && OnePostEach(s.front)
    requires B.Allowed(w, s.back, B.Insert(m)) && cfg.front.checker.accepts(m.data)
    ensures IsRun(cfg, w, es') && After(cfg, es') == s'
    ensures s'.back == B.Step(cfg.back, s.back, B.Insert(m)) && OnePostEach(s'.front)
  {
    var n, row := |s.front.rows|, F.Row(|s.front.rows|, 0, |Ready(cfg.front.kind)|, m.data);
    es', s' := PostVisible(cfg, w, es, s, n, m);
    assert (s.front.rows + [row])[n] == row;
    var handling := s'.front.sessions;
    es', s' := Told(cfg, w, es', s', n, m.data);
    assert handling[n := s'.front.sessions[n]] == s.front.sessions[n := s'.front.sessions[n]];
    OneMorePost(s.front, s'.front, row);
  }

  /** Every run of the back end is the back end's part of a run in which clients posted all its
      messages, each once. */
  lemma {:induction false} Lift(cfg: Config, w: B.World, bs: seq<B.Event>) returns (es: seq<Event>, s: State)
    requires B.IsRun(cfg.back, w, bs) && forall body :: cfg.front.checker.accepts(body)
    ensures IsRun(cfg, w, es) && After(cfg, es) == s
    ensures s.back == B.After(cfg.back, bs) && OnePostEach(s.front)
  {
    if bs == [] {
      es, s := [], INIT;
    } else {
      var b := bs[|bs| - 1];
      es, s := Lift(cfg, w, bs[..|bs| - 1]);
      if b.Insert? {
        es, s := PostOne(cfg, w, es, s, b.m);
      } else {
        es, s := Go(cfg, w, es, s, Back(b));
      }
    }
  }

  lemma LostInBack(s: State)
    requires Linked(s) && OnePostEach(s.front) && !LF.NoLoss(s.back)
    ensures !AllAcceptedKept(s)
  {
    var m :| m in s.back.inserted && m !in s.back.store && !LF.Safe(s.back, m);
    var i: nat :| i < |s.back.inserted| && s.back.inserted[i] == m;
    assert Runs.AnsweredWith(s.front, i, 0, ACCEPTED);
    assert !Kept(s, i, 0);
  }

  /** The whole gateway keeps every message it ever accepted, at all times and in all runs, if
      and only if the back end's configuration and environment are loss-free. (The checker
      accepts everything here, so that clients can post what the losing runs need.) */
  lemma AcceptedIsKeptExactlyWhen(cfg: Config, w: B.World)
    requires cfg.back.Valid() && forall body :: cfg.front.checker.accepts(body)
    ensures (forall es :: IsRun(cfg, w, es) ==> AllAcceptedKept(After(cfg, es))) <==> LossFree(cfg.back, w)
  {
    if LossFree(cfg.back, w) {
      forall es | IsRun(cfg, w, es) ensures AllAcceptedKept(After(cfg, es)) {
        forall n: nat, k: nat | Runs.AnsweredWith(After(cfg, es).front, n, k, ACCEPTED)
          ensures Kept(After(cfg, es), n, k)
        {
          AcceptedIsKept(cfg, w, es, n, k);
        }
      }
    } else {
      var bs := Losses.LosingRun(cfg.back, w);
      var es, s := Lift(cfg, w, bs);
      RunKeepsLinked(cfg, w, es);
      LostInBack(s);
    }
  }
}
