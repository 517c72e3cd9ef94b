/** `RedisProducer`: one connection, opened lazily, reconnected on some errors.

    Before every command other clients may act and late commands may arrive, so each contract
    says what the stream was when the producer's own command met it. `made` are the library
    calls a method makes. */
module RedisProducer {
  import opened Text
  import opened Messages
  import opened RedisCommands
  import opened RedisWire
  import opened Hiredis
  import J = Journal

  /** What became of one sending of a command. */
  datatype Sending = Unsent | Refused | Confirmed | Dropped(executed: bool)

  /** What it did to the stream, and to the commands of unknown fate. */
  function Effect(s: Stream, command: string, how: Sending): Stream {
    if how.Confirmed? || (how.Dropped? && how.executed)
    then s.(entries := DeleteNamed(s.entries, CommandIds(command))) else s
  }

  function LateAfter(late: set<string>, command: string, how: Sending): set<string> {
    if how.Dropped? then late + {command} else late
  }

  /** The course of an acknowledgement: the stream when the first and when the second sending
      met it, and what became of both. */
  datatype Course = Course(before: Stream, first: Sending, between: Stream, second: Sending)

  /** Others act before each sending; the second comes only if the first was not answered. */
  ghost predicate Possible(c: Course, command: string, s: Stream, late: set<string>, inRange: bool) {
    && Drifts(s, late, inRange, c.before)
    && Drifts(Effect(c.before, command, c.first), LateAfter(late, command, c.first), inRange, c.between)
    && (c.first.Confirmed? || c.first.Refused? ==> c.second.Unsent? && c.between == Effect(c.before, command, c.first))
  }

  function Final(c: Course, command: string): Stream { Effect(c.between, command, c.second) }

  function FinalLate(c: Course, command: string, late: set<string>): set<string> {
    LateAfter(LateAfter(late, command, c.first), command, c.second)
  }

  // ------------------------------------------------------------------ library calls

  /** A connection is opened first if there is none; `cmd` is sent if there is one then. */
  predicate Asks(made: seq<Call>, before: Option<nat>, after: Option<nat>, login: Login, cmd: Command, retry: set<Err>)
  {
    if before.Some? then after == before && WithRetry(made, before.value, cmd, login, retry)
    else if |made| >= 2 && after.Some? && ConnectsWell(made[..2], after.value, login)
    then WithRetry(made[2..], after.value, cmd, login, retry)
    else ConnectFails(made, login, true)
  }

  /** What became of a sending, by the call that made it. */
  predicate FateOf(how: Sending, call: Call) {
    && call.Runs?
    && (how.Unsent? <==> !call.met.OK?)
    && (how.Dropped? <==> call.met.OK? && !call.err.OK?)
    && (how.Confirmed? <==> Went(call))
  }

  /** The sendings of an acknowledgement are the XDELs that were run; after a reconnect there
      is a second one. */
  predicate FatesOf(course: Course, made: seq<Call>) {
    && made != [] && FateOf(course.first, made[0])
    && if |made| == 4 then FateOf(course.second, made[3]) && !course.second.Unsent? else course.second.Unsent?
  }

  /** How context and reply are judged after the last sending. */
  function Judged(err: Err, reply: Option<Reply>): Result<()> {
    if !err.OK? then Throw("Failed to read from Redis: ")
    else if reply.Some? && reply.value.Error? then Throw("Failed to read from Redis: " + reply.value.text)
    else Ok(())
  }

  lemma AfterOpening(before: seq<Call>, opening: seq<Call>, sent: seq<Call>, cmd: Command)
    requires sent != []
    ensures before + opening + sent == before + (opening + sent)
    ensures Succeeds(opening + sent, cmd) <==> Succeeds(sent, cmd)
    ensures |opening| == 2 ==> (opening + sent)[..2] == opening && (opening + sent)[2..] == sent
    ensures opening == [] ==> opening + sent == sent
  {}

  class Producer {
    const redis: Redis
    const login: Login
    const chunkSize: nat
    ghost const journal: J.Journal
    var connection: Option<nat>

    ghost predicate Valid()
      reads this, redis
    {
      redis.Valid() && (connection.Some? ==> connection.value in redis.contexts)
    }

    /** The error the connection carries; a connection that is not open carries none. */
    ghost function State(): Err
      requires Valid()
      reads this, redis
    {
      if connection.Some? then redis.contexts[connection.value] else OK
    }

    constructor (redis: Redis, login: Login, chunkSize: nat, ghost journal: J.Journal)
      requires redis.Valid()
      ensures Valid() && this.redis == redis && this.login == login && this.chunkSize == chunkSize
      ensures this.journal == journal && connection.None?
    {
      this.redis := redis;
      this.login := login;
      this.chunkSize := chunkSize;
      this.journal := journal;
      connection := None;
    }

    /** `runCommand`: the reply belongs to a `unique_ptr`, so callers see only its value. `at`
        is the stream when the command meets it. */
    method RunCommand(c: nat, format: string, args: seq<string>, ghost cmd: Command)
      returns (reply: Option<Reply>, ghost at: Stream)
      requires Valid() && connection == Some(c) && cmd == Reading(format, args) && !cmd.Xadd?
      modifies redis
      ensures Valid() && redis.replies == old(redis.replies) && redis.reconnects == old(redis.reconnects)
      ensures Drifts(old(redis.Now()), old(redis.late), redis.inRange, at) && redis.top == at.top
      ensures redis.contexts == old(redis.contexts)[c := redis.contexts[c]]
      ensures redis.calls == old(redis.calls) + [Runs(c, cmd, old(redis.contexts[c]), reply, redis.contexts[c])]
      ensures reply.None? <==> !State().OK?
      ensures !old(State()).OK? ==>
        redis.contexts == old(redis.contexts) && redis.Now() == at && redis.late == old(redis.late)
      ensures redis.entries == at.entries || Executed(cmd, at.entries, redis.entries)
      ensures reply.Some? && !reply.value.Error? ==>
        Executed(cmd, at.entries, redis.entries) && Replied(cmd, at.entries, reply.value)
      ensures reply.Some? && reply.value.Error? ==> redis.Now() == at
      ensures redis.late == if reply.None? && old(State()).OK? && cmd.Xdel? then old(redis.late) + {cmd.text}
                            else old(redis.late)
    {
      redis.Interfere();
      at := redis.Now();
      var p := redis.Run(c, format, args, cmd);
      redis.FreeReply(p);
      reply := if p.Ptr? then Some(p.value) else None;
    }

    /** `connection_` is set before authenticating, so the recursion through
        `Authenticate` is one level deep; a failed authentication leaves it set. */
    method GetConnection() returns (c: Result<nat>, ghost made: seq<Call>)
      requires Valid()
      modifies this`connection, redis
      ensures Valid() && redis.replies == old(redis.replies) && redis.late == old(redis.late)
      ensures Drifts(old(redis.Now()), redis.late, redis.inRange, redis.Now())
      ensures redis.reconnects == old(redis.reconnects)
      ensures c.Ok? ==> connection == Some(c.value)
      ensures old(connection).Some? ==>
        && c == Ok(old(connection).value) && connection == old(connection)
        && redis.contexts == old(redis.contexts) && redis.Now() == old(redis.Now())
      ensures c.Ok? && old(connection).None? ==> redis.contexts[c.value].OK?
      ensures connection.None? ==> redis.contexts == old(redis.contexts)
      ensures old(connection).None? && connection.Some? ==>
        && connection.value !in old(redis.contexts)
        && redis.contexts == old(redis.contexts)[connection.value := redis.contexts[connection.value]]
      ensures redis.calls == old(redis.calls) + made && (old(connection).Some? ==> made == [])
      ensures old(connection).None? ==>
        if c.Ok? then ConnectsWell(made, c.value, login) else ConnectFails(made, login, true)
      decreases if connection.None? then 2 else 0
    {
      NothingDone(redis.Now(), redis.late, redis.inRange);
      made := [];
      if connection.None? {
        var connected, context := redis.Connect();
        made := [Connects(context, connected, if connected then redis.contexts[context] else OTHER)];
        if !connected {
          return Throw("Failed to connect to Redis"), made;
        }
        if !redis.contexts[context].OK? {
          redis.Free(context);
          return Throw("Failed to connect to Redis: "), made + [Frees(context)];
        }
        connection := Some(context);
        var auth;
        ghost var last;
        auth, last := Authenticate();
        made := made + [last];
        if auth.Throw? {
          return Throw(auth.reason), made;
        }
      }
      c := Ok(connection.value);
    }

    method Authenticate() returns (done: Result<()>, ghost last: Call)
      requires Valid() && connection.Some?
      modifies this`connection, redis
      ensures Valid() && redis.replies == old(redis.replies) && connection == old(connection)
      ensures redis.late == old(redis.late) && Drifts(old(redis.Now()), redis.late, redis.inRange, redis.Now())
      ensures redis.reconnects == old(redis.reconnects)
      ensures redis.contexts == old(redis.contexts)[connection.value := redis.contexts[connection.value]]
      ensures done.Ok? ==> State().OK?
      ensures redis.calls == old(redis.calls) + [last] && Says(last, connection.value, Auth(login))
      ensures done.Ok? <==> Went(last)
      decreases 1
    {
      var c, reply;
      ghost var none, at;
      c, none := GetConnection();
      AuthReading(login);
      reply, at := RunCommand(c.value, AUTH_FORMAT, [login.user, login.password], Auth(login));
      last := redis.calls[|redis.calls| - 1];
      if !redis.contexts[c.value].OK? {
        return Throw("Failed to authenticate in Redis: "), last;
      }
      if reply.Some? && reply.value.Error? {
        return Throw("Failed to authenticate in Redis: " + reply.value.text), last;
      }
      done := Ok(());
    }

    method Reconnect() returns (done: Result<()>, ghost made: seq<Call>)
      requires Valid() && connection.Some?
      modifies this`connection, redis
      ensures Valid() && redis.replies == old(redis.replies) && connection == old(connection)
      ensures redis.late == old(redis.late) && Drifts(old(redis.Now()), redis.late, redis.inRange, redis.Now())
      ensures redis.reconnects == old(redis.reconnects) + 1
      ensures redis.contexts == old(redis.contexts)[connection.value := redis.contexts[connection.value]]
      ensures done.Ok? ==> State().OK?
      ensures redis.calls == old(redis.calls) + made
      ensures if done.Ok? then ReconnectsWell(made, connection.value, login)
              else ReconnectFails(made, connection.value, login)
    {
      var c;
      c, made := GetConnection();
      var ok := redis.Reconnect(c.value);
      made := [Reconnects(c.value, redis.contexts[c.value])];
      if !ok {
        NothingDone(redis.Now(), redis.late, redis.inRange);
        return Throw("Failed to reconnect to Redis"), made;
      }
      ghost var last;
      done, last := Authenticate();
      made := made + [last];
    }

    /** What the reply to an XRANGE says. */
    ghost predicate Ranged(reply: Option<Reply>)
      requires Valid()
      reads this, redis
    {
      && (reply.None? <==> !State().OK?)
      && (reply.Some? && !reply.value.Error? ==> reply.value == XrangeReply(Front(redis.entries, chunkSize)))
    }

    /** One XRANGE, some time after the stream was `start`. */
    method SendRange(c: nat, ghost start: Stream) returns (reply: Option<Reply>, ghost call: Call)
      requires Valid() && connection == Some(c) && Drifts(start, redis.late, redis.inRange, redis.Now())
      modifies redis
      ensures Valid() && redis.replies == old(redis.replies) && redis.reconnects == old(redis.reconnects)
      ensures redis.contexts.Keys == old(redis.contexts.Keys)
      ensures redis.late == old(redis.late) && Drifts(start, redis.late, redis.inRange, redis.Now())
      ensures Ranged(reply) && (!old(State()).OK? ==> State() == old(State()))
      ensures redis.calls == old(redis.calls) + [call]
      ensures call == Runs(c, Xrange(chunkSize), old(State()), reply, State())
    {
      ghost var before, at := redis.Now(), redis.Now();
      XrangeReading(chunkSize);
      reply, at := RunCommand(c, XRANGE_FORMAT, [MESSAGES_STREAM, Print(chunkSize)], Xrange(chunkSize));
      call := redis.calls[|redis.calls| - 1];
      DriftsOn(start, redis.late, redis.inRange, before, at);
    }

    /** Reconnect, and the XRANGE once more. */
    method RangeAgain(c: nat, ghost start: Stream)
      returns (reply: Result<Option<Reply>>, ghost more: seq<Call>, ghost last: Option<Call>)
      requires Valid() && connection == Some(c) && Drifts(start, redis.late, redis.inRange, redis.Now())
      modifies this`connection, redis
      ensures Valid() && redis.replies == old(redis.replies) && connection == old(connection)
      ensures redis.reconnects == old(redis.reconnects) + 1 && redis.contexts.Keys == old(redis.contexts.Keys)
      ensures redis.late == old(redis.late) && Drifts(start, redis.late, redis.inRange, redis.Now())
      ensures redis.calls == old(redis.calls) + more + if last.Some? then [last.value] else []
      ensures reply.Throw? ==> last.None? && ReconnectFails(more, c, login)
      ensures reply.Ok? ==>
        && last.Some? && ReconnectsWell(more, c, login)
        && last.value == Runs(c, Xrange(chunkSize), OK, reply.value, State())
      ensures reply.Ok? ==> Ranged(reply.value)
    {
      ghost var before, call := redis.Now(), Frees(c);
      var again;
      again, more := Reconnect();
      last := None;
      DriftsOn(start, redis.late, redis.inRange, before, redis.Now());
      if again.Throw? {
        reply := Throw(again.reason);
      } else {
        var got;
        got, call := SendRange(c, start);
        reply, last := Ok(got), Some(call);
      }
    }

    /** The XRANGE, and once more after a reconnect. */
    method RangeWithRetry(c: nat, ghost start: Stream) returns (reply: Result<Option<Reply>>, ghost made: seq<Call>)
      requires Valid() && connection == Some(c) && Drifts(start, redis.late, redis.inRange, redis.Now())
      modifies this`connection, redis
      ensures Valid() && redis.replies == old(redis.replies) && connection == old(connection)
      ensures redis.contexts.Keys == old(redis.contexts.Keys)
      ensures redis.late == old(redis.late) && Drifts(start, redis.late, redis.inRange, redis.Now())
      ensures reply.Ok? ==> Ranged(reply.value)
      ensures old(State()).EOF? || old(State()).IO? ==> redis.reconnects == old(redis.reconnects) + 1
      ensures old(State()).OTHER? ==>
        reply == Ok(None) && State().OTHER? && redis.reconnects == old(redis.reconnects)
      ensures redis.calls == old(redis.calls) + made && WithRetry(made, c, Xrange(chunkSize), login, {EOF, IO})
      ensures Succeeds(made, Xrange(chunkSize)) <==> reply.Ok? && Judged(State(), reply.value).Ok?
    {
      ghost var call, more, last := Frees(c), [], None;
      var got;
      got, call := SendRange(c, start);
      reply := Ok(got);
      if redis.contexts[c].EOF? || redis.contexts[c].IO? {
        reply, more, last := RangeAgain(c, start);
      }
      made := Attempts(call, more, last);
      AttemptsAdd(old(redis.calls), call, more, last);
      RetryDone(call, more, last, c, Xrange(chunkSize), login, {EOF, IO});
    }

    /** Context and reply are judged, and the reply is decoded. */
    method ReadWithRetry(c: nat, ghost start: Stream) returns (result: Result<seq<Message>>, ghost made: seq<Call>)
      requires Valid() && connection == Some(c) && Drifts(start, redis.late, redis.inRange, redis.Now())
      modifies this`connection, redis
      ensures Valid() && redis.replies == old(redis.replies) && connection == old(connection)
      ensures redis.contexts.Keys == old(redis.contexts.Keys)
      ensures redis.late == old(redis.late) && Drifts(start, redis.late, redis.inRange, redis.Now())
      ensures result.Ok? ==> result.value == DecodedAll(Front(redis.entries, chunkSize)) && State().OK?
      ensures old(State()).EOF? || old(State()).IO? ==> redis.reconnects == old(redis.reconnects) + 1
      ensures old(State()).OTHER? ==>
        result.Throw? && State().OTHER? && redis.reconnects == old(redis.reconnects)
      ensures redis.calls == old(redis.calls) + made && WithRetry(made, c, Xrange(chunkSize), login, {EOF, IO})
      ensures result.Ok? <==> Succeeds(made, Xrange(chunkSize))
    {
      var reply;
      reply, made := RangeWithRetry(c, start);
      if reply.Throw? {
        return Throw(reply.reason), made;
      }
      var judged := Judged(redis.contexts[c], reply.value);
      if judged.Throw? {
        return Throw(judged.reason), made;
      }
      XrangeReadable(Front(redis.entries, chunkSize));
      XrangeRoundTrip(Front(redis.entries, chunkSize));
      result := MessagesFromReply(reply.value.value);
    }

    /** Either throws, or returns the lowest `chunkSize` entries of the stream at that moment;
        only others change the stream. An EOF or IO error left by any earlier call is answered
        with a reconnect, any other error with a throw, now and on every later call. It returns
        normally exactly if the last XRANGE was answered. */
    method GetNext() returns (result: Result<seq<Message>>, ghost made: seq<Call>)
      requires Valid()
      modifies this`connection, redis, journal
      ensures redis.calls == old(redis.calls) + made
      ensures Asks(made, old(connection), connection, login, Xrange(chunkSize), {EOF, IO})
      ensures result.Ok? <==> Succeeds(made, Xrange(chunkSize))
      ensures journal.calls == old(journal.calls) + [J.GetNext(if result.Ok? then Some(result.value) else None)]
      ensures Valid() && redis.replies == old(redis.replies)
      ensures old(connection).Some? ==> connection == old(connection)
      ensures redis.contexts.Keys == old(redis.contexts.Keys) + if connection.Some? then {connection.value} else {}
      ensures redis.late == old(redis.late) && Drifts(old(redis.Now()), redis.late, redis.inRange, redis.Now())
      ensures result.Ok? ==> result.value == DecodedAll(Front(redis.entries, chunkSize)) && State().OK?
      ensures old(State()).EOF? || old(State()).IO? ==> redis.reconnects == old(redis.reconnects) + 1
      ensures old(State()).OTHER? ==>
        result.Throw? && State().OTHER? && redis.reconnects == old(redis.reconnects)
    {
      ghost var start, opening := redis.Now(), [];
      var c;
      c, opening := GetConnection();
      if c.Throw? {
        result, made := Throw(c.reason), opening;
      } else {
        result, made := ReadWithRetry(c.value, start);
        AfterOpening(old(redis.calls), opening, made, Xrange(chunkSize));
        made := opening + made;
      }
      journal.calls := journal.calls + [J.GetNext(if result.Ok? then Some(result.value) else None)];
    }

    /** One sending of the XDEL. */
    method SendDelete(c: nat, command: string)
      returns (reply: Option<Reply>, ghost at: Stream, ghost how: Sending, ghost call: Call)
      requires Valid() && connection == Some(c) && Reading(command, []) == Xdel(command)
      modifies redis
      ensures Valid() && redis.replies == old(redis.replies) && redis.reconnects == old(redis.reconnects)
      ensures redis.contexts.Keys == old(redis.contexts.Keys)
      ensures Drifts(old(redis.Now()), old(redis.late), redis.inRange, at)
      ensures redis.Now() == Effect(at, command, how) && redis.late == LateAfter(old(redis.late), command, how)
      ensures !old(State()).OK? ==> how.Unsent? && State() == old(State()) && reply.None?
      ensures reply.None? <==> !State().OK?
      ensures redis.calls == old(redis.calls) + [call] && Says(call, c, Xdel(command)) && FateOf(how, call)
      ensures call == Runs(c, Xdel(command), old(State()), reply, State())
    {
      ghost var state := State();
      reply, at := RunCommand(c, command, [], Xdel(command));
      call := redis.calls[|redis.calls| - 1];
      how := if !state.OK? then Unsent
             else if reply.None? then Dropped(redis.entries != at.entries)
             else if reply.value.Error? then Refused
             else Confirmed;
    }

    /** Reconnect, and the XDEL once more. */
    method DeleteAgain(c: nat, command: string)
      returns (reply: Result<Option<Reply>>, ghost at: Stream, ghost how: Sending, ghost more: seq<Call>,
               ghost last: Option<Call>)
      requires Valid() && connection == Some(c) && Reading(command, []) == Xdel(command)
      modifies this`connection, redis
      ensures Valid() && redis.replies == old(redis.replies) && connection == old(connection)
      ensures redis.reconnects == old(redis.reconnects) + 1 && redis.contexts.Keys == old(redis.contexts.Keys)
      ensures Drifts(old(redis.Now()), old(redis.late), redis.inRange, at)
      ensures redis.Now() == Effect(at, command, how) && redis.late == LateAfter(old(redis.late), command, how)
      ensures redis.calls == old(redis.calls) + more + if last.Some? then [last.value] else []
      ensures reply.Throw? ==> last.None? && how.Unsent? && ReconnectFails(more, c, login)
      ensures reply.Ok? ==>
        && last.Some? && FateOf(how, last.value) && !how.Unsent? && ReconnectsWell(more, c, login)
        && last.value == Runs(c, Xdel(command), OK, reply.value, State()) && (reply.value.None? <==> !State().OK?)
    {
      ghost var start, late := redis.Now(), redis.late;
      var again;
      again, more := Reconnect();
      at, how, last := redis.Now(), Unsent, None;
      if again.Throw? {
        return Throw(again.reason), at, how, more, last;
      }
      ghost var before, call := redis.Now(), Frees(c);
      var got;
      got, at, how, call := SendDelete(c, command);
      DriftsOn(start, late, redis.inRange, before, at);
      reply, last := Ok(got), Some(call);
    }

    /** The XDEL, and once more after a reconnect, some time after the stream was `start`. */
    method DeleteWithRetry(c: nat, command: string, ghost start: Stream)
      returns (done: Result<()>, ghost course: Course, ghost made: seq<Call>)
      requires Valid() && connection == Some(c) && Drifts(start, redis.late, redis.inRange, redis.Now())
      requires Reading(command, []) == Xdel(command)
      modifies this`connection, redis
      ensures Valid() && redis.replies == old(redis.replies) && connection == old(connection)
      ensures redis.contexts.Keys == old(redis.contexts.Keys)
      ensures Possible(course, command, start, old(redis.late), redis.inRange)
      ensures redis.Now() == Final(course, command) && redis.late == FinalLate(course, command, old(redis.late))
      ensures redis.calls == old(redis.calls) + made && WithRetry(made, c, Xdel(command), login, {EOF})
      ensures FatesOf(course, made) && (done.Ok? <==> Succeeds(made, Xdel(command)))
      ensures done.Ok? <==> course.first.Confirmed? || course.second.Confirmed?
      ensures done.Ok? ==> State().OK?
      ensures old(State()).OK? <==> !course.first.Unsent?
      ensures old(State()).EOF? ==> redis.reconnects == old(redis.reconnects) + 1
      ensures old(State()).IO? || old(State()).OTHER? ==>
        && done.Throw? && redis.reconnects == old(redis.reconnects)
        && course.first.Unsent? && course.second.Unsent? && State() == old(State())
    {
      ghost var before, late := redis.Now(), redis.late;
      var got, reply;
      ghost var at, how, call, more, last := before, Unsent, Frees(c), [], None;
      got, at, how, call := SendDelete(c, command);
      DriftsOn(start, late, redis.inRange, before, at);
      NothingDone(redis.Now(), redis.late, redis.inRange);
      reply, course := Ok(got), Course(at, how, redis.Now(), Unsent);
      if redis.contexts[c].EOF? {
        ghost var at2, how2;
        reply, at2, how2, more, last := DeleteAgain(c, command);
        course := Course(at, how, at2, how2);
      }
      made := Attempts(call, more, last);
      AttemptsAdd(old(redis.calls), call, more, last);
      RetryDone(call, more, last, c, Xdel(command), login, {EOF});
      done := if reply.Ok? then Judged(redis.contexts[c], reply.value) else Throw(reply.reason);
    }

    /** What the acknowledgement did, however it ended and whatever others did in between:
        each sending deleted the batch as a whole or nothing, a normal return means the last
        one is confirmed, and a sending whose answer was lost leaves the command among those
        of unknown fate. Only EOF is retried here. On a sound connection the command is sent,
        and after an EOF it is sent again if the reconnect succeeds; it throws exactly if the
        last library call failed. */
    method MarkConsumed(messages: seq<Message>)
      returns (done: Result<()>, ghost course: Course, ghost made: seq<Call>)
      requires Valid()
      modifies this`connection, redis, journal
      ensures redis.calls == old(redis.calls) + made
      ensures Asks(made, old(connection), connection, login, Xdel(XdelCommand(Ids(messages))), {EOF})
      ensures done.Ok? <==> Succeeds(made, Xdel(XdelCommand(Ids(messages))))
      ensures old(connection).Some? ==> FatesOf(course, made)
      ensures old(connection).None? && |made| > 2 ==> FatesOf(course, made[2..]) && !course.first.Unsent?
      ensures old(connection).None? && |made| <= 2 ==> course.first.Unsent? && course.second.Unsent?
      ensures old(connection).Some? && old(State()).OK? ==> !course.first.Unsent?
      ensures journal.calls == old(journal.calls) + [J.MarkConsumed(Ids(messages), done.Ok?)]
      ensures Valid() && redis.replies == old(redis.replies)
      ensures old(connection).Some? ==> connection == old(connection)
      ensures redis.contexts.Keys == old(redis.contexts.Keys) + if connection.Some? then {connection.value} else {}
      ensures var command := XdelCommand(Ids(messages));
        && Possible(course, command, old(redis.Now()), old(redis.late), redis.inRange)
        && redis.Now() == Final(course, command)
        && redis.late == FinalLate(course, command, old(redis.late))
      ensures done.Ok? <==> course.first.Confirmed? || course.second.Confirmed?
      ensures done.Ok? ==> State().OK?
      ensures old(State()).EOF? ==> redis.reconnects == old(redis.reconnects) + 1
      ensures old(State()).IO? || old(State()).OTHER? ==>
        && done.Throw? && redis.reconnects == old(redis.reconnects)
        && course.first.Unsent? && course.second.Unsent? && State() == old(State())
    {
      ghost var start, opening := redis.Now(), [];
      var c;
      c, opening := GetConnection();
      course := Course(redis.Now(), Unsent, redis.Now(), Unsent);
      NothingDone(redis.Now(), redis.late, redis.inRange);
      if c.Throw? {
        done, made := Throw(c.reason), opening;
      } else {
        var command := MakeXdelCommand(messages);
        XdelReading(Ids(messages));
        done, course, made := DeleteWithRetry(c.value, command, start);
        AfterOpening(old(redis.calls), opening, made, Xdel(command));
        made := opening + made;
      }
      journal.calls := journal.calls + [J.MarkConsumed(Ids(messages), done.Ok?)];
    }
  }
}
