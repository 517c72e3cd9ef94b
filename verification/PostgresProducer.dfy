/** `PostgresProducer`: lowest ids first, deleted by an explicit list. */
module PostgresProducer {
  import opened Text
  import opened Messages
  import opened Libpqxx
  import J = Journal

  const DELETE_HEAD := "DELETE FROM messages WHERE id IN ("

  function Texts(ids: seq<nat>): (ts: seq<string>)
    ensures |ts| == |ids| && forall i :: 0 <= i < |ids| ==> ts[i] == Print(ids[i])
  {
    seq(|ids|, i requires 0 <= i < |ids| => Print(ids[i]))
  }

  function DeleteQuery(ids: seq<nat>): string { DELETE_HEAD + Join(Texts(ids), ',') + ")" }

  /** The statement is the one the server acts on, and lists exactly the given ids, in order. */
  lemma QueryNamesIds(ids: seq<nat>)
    requires ids != []
    ensures DeleteIds(DeleteQuery(ids)) == Some(Texts(ids))
    ensures Meant(Statement(DeleteQuery(ids), Nothing)) == Delete(Texts(ids))
    ensures forall i :: 0 <= i < |ids| ==> AllDigits(Texts(ids)[i]) && Value(Texts(ids)[i]) == ids[i]
  {
    forall i | 0 <= i < |ids|
      ensures Texts(ids)[i] != "" && AllDigits(Texts(ids)[i]) && Value(Texts(ids)[i]) == ids[i]
    {
      PrintValue(ids[i]);
    }
    SplitJoin(Texts(ids), ',');
    var query := DeleteQuery(ids);
    assert query[|DELETE_HEAD|..|query| - 1] == Join(Texts(ids), ',');
  }

  /** What the statement does to the table. */
  lemma DeleteDoes(rows: seq<Message>, ids: seq<nat>)
    requires ids != []
    ensures var m := Meant(Statement(DeleteQuery(ids), Nothing)); m.Delete? && Listed(rows, m.ids) == Remove(rows, ids)
  {
    QueryNamesIds(ids);
    ListedIsRemove(rows, ids);
  }

  lemma ListPush(ids: seq<nat>, i: nat)
    requires i < |ids|
    ensures Texts(ids[..i + 1]) == Texts(ids[..i]) + [Print(ids[i])]
    ensures i > 0 ==> Join(Texts(ids[..i + 1]), ',') == Join(Texts(ids[..i]), ',') + [','] + Print(ids[i])
    ensures i == 0 ==> Join(Texts(ids[..1]), ',') == Print(ids[0])
  {
    assert Texts(ids[..i + 1]) == Texts(ids[..i]) + [Print(ids[i])];
    if i > 0 { JoinPush(Texts(ids[..i]), ',', Print(ids[i])); }
  }

  /** The loop writes every id but the last with a comma behind it. The source computes
      `size() - 1` unsigned, so an empty batch is the caller's to avoid. */
  method MakeDeleteQuery(messages: seq<Message>) returns (query: string)
    requires messages != []
    ensures query == DeleteQuery(Ids(messages))
  {
    ghost var ids := Ids(messages);
    var list := "";
    for i := 0 to |messages| - 1
      invariant i == 0 ==> list == ""
      invariant i > 0 ==> list == Join(Texts(ids[..i]), ',') + [',']
    {
      ListPush(ids, i);
      list := list + Print(messages[i].id) + [','];
    }
    ListPush(ids, |ids| - 1);
    assert ids[..|ids|] == ids;
    list := list + Print(messages[|messages| - 1].id);
    query := DELETE_HEAD + list + ")";
  }

  lemma {:induction false} ListedIsRemove(rows: seq<Message>, ids: seq<nat>)
    ensures Listed(rows, Texts(ids)) == Remove(rows, ids)
  {
    if rows != [] {
      ListedIsRemove(rows[1..], ids);
      if Print(rows[0].id) in Texts(ids) {
        var i :| 0 <= i < |ids| && Texts(ids)[i] == Print(rows[0].id);
        PrintInjective(ids[i], rows[0].id);
      }
      if rows[0].id in ids {
        var i :| 0 <= i < |ids| && ids[i] == rows[0].id;
        assert Texts(ids)[i] == Print(rows[0].id);
      }
    }
  }

  const SELECT_TEXT := "SELECT id, data FROM messages ORDER BY id ASC LIMIT ($1)"

  lemma SelectMeans(n: nat)
    ensures Meant(Statement(SELECT_TEXT, Number(n))) == Select(n)
  {}

  /** A connection is opened first if there is none, and then used. */
  function Plan(before: Option<nat>, c: nat, deeds: seq<Deed>): seq<Deed> {
    if before.Some? then deeds else [Deed.Connect] + deeds
  }

  function SelectPlan(c: nat, n: nat): seq<Deed> { [Begin(c), Exec(c, Statement(SELECT_TEXT, Number(n)))] }

  function DeletePlan(c: nat, ids: seq<nat>): seq<Deed> {
    [Begin(c), Exec(c, Statement(DeleteQuery(ids), Nothing)), Commit(c)]
  }

  lemma Opening(before: seq<Call>, opening: seq<Call>, calls: seq<Call>, deeds: seq<Deed>)
    requires opening == [] || opening == [Call(Deed.Connect, Returned)]
    requires Carried(calls, deeds)
    ensures before + opening + calls == before + (opening + calls) && EndOf(opening + calls) == EndOf(calls)
    ensures if opening == [] then opening + calls == calls else Carried(opening + calls, [Deed.Connect] + deeds)
  {}

  class Producer {
    const db: Database
    const chunkSize: nat
    ghost const journal: J.Journal
    var connection: Option<nat>

    ghost predicate Valid()
      reads this, db
    {
      db.Valid() && (connection.Some? ==> connection.value in db.links)
    }

    /** A connection was opened and broke. */
    ghost predicate Broken()
      requires Valid()
      reads this, db
    {
      connection.Some? && !db.links[connection.value]
    }

    constructor (db: Database, chunkSize: nat, ghost journal: J.Journal)
      requires db.Valid()
      ensures Valid() && this.db == db && this.chunkSize == chunkSize && this.journal == journal && connection.None?
    {
      this.db := db;
      this.chunkSize := chunkSize;
      this.journal := journal;
      connection := None;
    }

    method GetConnection() returns (c: Result<nat>, ghost made: seq<Call>)
      requires Valid()
      modifies this`connection, db`links, db`works, db`nextLink, db`calls
      ensures Valid() && db.calls == old(db.calls) + made
      ensures c.Ok? ==> connection == Some(c.value)
      ensures old(connection).Some? ==>
        made == [] && c == Ok(old(connection).value) && connection == old(connection) && db.links == old(db.links)
      ensures old(connection).None? && c.Ok? ==> made == [Call(Deed.Connect, Returned)] && !Broken()
      ensures old(connection).None? && c.Throw? ==>
        connection.None? && exists end: End :: !end.Returned? && made == [Call(Deed.Connect, end)]
    {
      made := [];
      if connection.None? {
        var end, context := db.Connect();
        made := [Call(Deed.Connect, end)];
        if !end.Returned? {
          return Throw("connect"), made;
        }
        connection := Some(context);
      }
      c := Ok(connection.value);
    }

    /** The rows of the SELECT, in a transaction that is never committed. */
    method SelectRows(c: nat) returns (result: Result<seq<Message>>, ghost made: seq<Call>)
      requires Valid() && connection == Some(c)
      modifies db`links, db`works, db`calls
      ensures Valid() && db.calls == old(db.calls) + made && Carried(made, SelectPlan(c, chunkSize))
      ensures result.Ok? <==> EndOf(made).Returned?
      ensures result.Ok? ==> result.value == Front(db.rows, chunkSize)
      ensures old(Broken()) ==> result.Throw? && Broken()
    {
      ghost var plan := SelectPlan(c, chunkSize);
      var end := db.Begin(c);
      made := [Call(Deed.Begin(c), end)];
      if !end.Returned? {
        return Throw("begin"), made;
      }
      var selected;
      end, selected := db.Exec(c, Statement(SELECT_TEXT, Number(chunkSize)));
      made := made + [Call(plan[1], end)];
      if !end.Returned? {
        return Throw("select"), made;
      }
      var messages := [];
      for i := 0 to |selected|
        invariant messages == selected[..i]
      {
        messages := messages + [Message(selected[i].id, selected[i].data)];
      }
      result := Ok(messages);
    }

    /** Throws, or returns the lowest visible rows; there is no way back from a broken
        connection. It throws exactly if connecting, the transaction or the SELECT does. */
    method GetNext() returns (result: Result<seq<Message>>, ghost made: seq<Call>, ghost c: nat)
      requires Valid()
      modifies this`connection, db`links, db`works, db`nextLink, db`calls, journal
      ensures Valid() && db.calls == old(db.calls) + made && (connection.Some? ==> connection.value == c)
      ensures Carried(made, Plan(old(connection), c, SelectPlan(c, chunkSize)))
      ensures result.Ok? <==> EndOf(made).Returned?
      ensures result.Ok? ==> result.value == Front(db.rows, chunkSize)
      ensures old(Broken()) ==> result.Throw? && Broken()
      ensures journal.calls == old(journal.calls) + [J.GetNext(if result.Ok? then Some(result.value) else None)]
    {
      var link;
      link, made := GetConnection();
      c := if link.Ok? then link.value else 0;
      if link.Throw? {
        result := Throw(link.reason);
      } else {
        ghost var more;
        result, more := SelectRows(link.value);
        Opening(old(db.calls), made, more, SelectPlan(c, chunkSize));
        made := made + more;
      }
      journal.calls := journal.calls + [J.GetNext(if result.Ok? then Some(result.value) else None)];
    }

    /** The DELETE in a transaction of its own. */
    method DeleteRows(c: nat, query: string, ghost ids: seq<nat>) returns (done: Result<()>, ghost made: seq<Call>)
      requires Valid() && connection == Some(c) && ids != [] && query == DeleteQuery(ids)
      modifies db
      ensures Valid() && db.calls == old(db.calls) + made && Carried(made, DeletePlan(c, ids))
      ensures done.Ok? <==> EndOf(made).Returned?
      ensures db.used == old(db.used) && (db.rows == old(db.rows) || db.rows == Remove(old(db.rows), ids))
      ensures done.Ok? ==> db.rows == Remove(old(db.rows), ids) && db.late == old(db.late)
      ensures db.late == old(db.late) || db.late == old(db.late) + {query}
      ensures done.Throw? && db.rows != old(db.rows) ==> query in db.late
      ensures old(Broken()) ==> done.Throw? && Broken() && db.rows == old(db.rows) && db.late == old(db.late)
    {
      var end := db.Begin(c);
      ghost var more := [];
      if end.Returned? {
        end, more := ExecAndCommit(c, query, ids);
      }
      made := [Call(Deed.Begin(c), if more == [] then end else Returned)] + more;
      done := if end.Returned? then Ok(()) else Throw("transaction failed");
    }

    method ExecAndCommit(c: nat, query: string, ghost ids: seq<nat>) returns (end: End, ghost made: seq<Call>)
      requires db.Valid() && c in db.links && db.links[c] && ids != [] && query == DeleteQuery(ids)
      modifies db
      ensures db.Valid() && c in db.links && db.links == old(db.links)[c := db.links[c]]
      ensures db.calls == old(db.calls) + made && Carried(made, DeletePlan(c, ids)[1..]) && end == EndOf(made)
      ensures db.used == old(db.used) && (db.rows == old(db.rows) || db.rows == Remove(old(db.rows), ids))
      ensures end.Returned? ==> db.rows == Remove(old(db.rows), ids) && db.late == old(db.late)
      ensures db.late == old(db.late) || db.late == old(db.late) + {query}
      ensures !end.Returned? && db.rows != old(db.rows) ==> query in db.late
    {
      var st, none := Statement(query, Nothing), [];
      DeleteDoes(db.rows, ids);
      end, none := db.Exec(c, st);
      made := [Call(Deed.Exec(c, st), end)];
      if end.Returned? {
        ghost var applied;
        end, applied := db.Commit(c);
        made := made + [Call(Deed.Commit(c), end)];
      }
    }

    /** Deletes exactly the listed ids or nothing, and says so when it returns normally, which it
        does exactly if the transaction, the statement and the commit do; a row that became
        visible meanwhile, with whatever id, stays. A throw that hides a deletion leaves the
        statement among those in doubt. */
    method MarkConsumed(messages: seq<Message>) returns (done: Result<()>, ghost made: seq<Call>, ghost c: nat)
      requires Valid() && messages != []
      modifies this`connection, db, journal
      ensures Valid() && db.calls == old(db.calls) + made && (connection.Some? ==> connection.value == c)
      ensures Carried(made, Plan(old(connection), c, DeletePlan(c, Ids(messages))))
      ensures done.Ok? <==> EndOf(made).Returned?
      ensures db.used == old(db.used) && (db.rows == old(db.rows) || db.rows == Remove(old(db.rows), Ids(messages)))
      ensures done.Ok? ==> db.rows == Remove(old(db.rows), Ids(messages)) && db.late == old(db.late)
      ensures db.late == old(db.late) || db.late == old(db.late) + {DeleteQuery(Ids(messages))}
      ensures done.Throw? && db.rows != old(db.rows) ==> DeleteQuery(Ids(messages)) in db.late
      ensures old(Broken()) ==> done.Throw? && Broken() && db.rows == old(db.rows) && db.late == old(db.late)
      ensures journal.calls == old(journal.calls) + [J.MarkConsumed(Ids(messages), done.Ok?)]
    {
      var link;
      link, made := GetConnection();
      c := if link.Ok? then link.value else 0;
      if link.Throw? {
        done := Throw(link.reason);
      } else {
        ghost var more;
        var query := MakeDeleteQuery(messages);
        done, more := DeleteRows(link.value, query, Ids(messages));
        Opening(old(db.calls), made, more, DeletePlan(c, Ids(messages)));
        made := made + more;
      }
      journal.calls := journal.calls + [J.MarkConsumed(Ids(messages), done.Ok?)];
    }
  }
}
