/** The PostgreSQL client library and the table behind it, as the gateway relies on them.

    A broken connection stays broken. A transaction takes effect when it is committed;
    `broken_connection` is only thrown when it was not. If a commit throws anything else its
    fate is open: it took effect, will later, or never. Of those that may still come, `late`
    holds the DELETEs; late INSERTs are the business of `FrontEnd`. The library keeps an account
    of all calls; callers cannot add to it but by calling. */
module Libpqxx {
  import opened Text
  import opened Messages

  /** A call returned, threw `broken_connection`, or threw something else. */
  datatype End = Returned | Broke | Threw

  // ------------------------------------------------------------------ statements

  datatype Param = Nothing | Number(n: nat) | Binary(data: string)

  datatype Statement = Statement(text: string, param: Param)

  datatype Meaning = Select(limit: nat) | Insert(data: string) | Delete(ids: seq<string>) | Nonsense

  /** What the server makes of a text: a list of numbers between the parentheses of exactly this
      statement, or nothing. */
  function DeleteIds(text: string): Option<seq<string>> {
    var start := "DELETE FROM messages WHERE id IN (";
    if start < text && text[|text| - 1] == ')' then
      var words := Split(text[|start|..|text| - 1], ',');
      if forall i :: 0 <= i < |words| ==> words[i] != "" && AllDigits(words[i]) then Some(words) else None
    else
      None
  }

  function Meant(st: Statement): Meaning {
    match st.param
    case Number(n) =>
      if st.text == "SELECT id, data FROM messages ORDER BY id ASC LIMIT ($1)" then Select(n) else Nonsense
    case Binary(data) => if st.text == "INSERT INTO messages (data) VALUES ($1)" then Insert(data) else Nonsense
    case Nothing => if DeleteIds(st.text).Some? then Delete(DeleteIds(st.text).value) else Nonsense
  }

  /** Rows go if their id, as a number is written, is in the list. */
  function Listed(rows: seq<Message>, ids: seq<string>): seq<Message> {
    if rows == [] then []
    else if Print(rows[0].id) in ids then Listed(rows[1..], ids)
    else [rows[0]] + Listed(rows[1..], ids)
  }

  /** What a text does to the table as a DELETE. */
  function Deleted(rows: seq<Message>, text: string): seq<Message> {
    if DeleteIds(text).Some? then Listed(rows, DeleteIds(text).value) else rows
  }

  // ------------------------------------------------------------- the account of calls

  datatype Deed = Connect | Begin(c: nat) | Exec(c: nat, st: Statement) | Commit(c: nat)

  datatype Call = Call(what: Deed, end: End)

  /** The calls are those of the plan, in order, up to the first one that throws. */
  predicate Carried(calls: seq<Call>, plan: seq<Deed>) {
    && 0 < |calls| <= |plan|
    && (forall i :: 0 <= i < |calls| ==> calls[i].what == plan[i])
    && (forall i :: 0 <= i < |calls| - 1 ==> calls[i].end.Returned?)
    && (|calls| < |plan| ==> !calls[|calls| - 1].end.Returned?)
  }

  /** How they ended: all returned, or the last one threw. */
  function EndOf(calls: seq<Call>): End
    requires calls != []
  {
    calls[|calls| - 1].end
  }

  lemma CarryOn(calls: seq<Call>, plan: seq<Deed>, end: End)
    requires |calls| < |plan| && (forall i :: 0 <= i < |calls| ==> calls[i] == Call(plan[i], Returned))
    ensures |calls| + 1 == |plan| || !end.Returned? ==> Carried(calls + [Call(plan[|calls|], end)], plan)
    ensures EndOf(calls + [Call(plan[|calls|], end)]) == end
    ensures end.Returned? ==>
      forall i :: 0 <= i <= |calls| ==> (calls + [Call(plan[|calls|], end)])[i] == Call(plan[i], Returned)
  {}

  /** What a committed statement does to the table, the ids given out and the payloads stored. */
  ghost predicate TakesEffect(st: Option<Statement>, rows: seq<Message>, used: set<nat>, payloads: seq<string>,
                              rows': seq<Message>, used': set<nat>, payloads': seq<string>) {
    match if st.Some? then Meant(st.value) else Nonsense
    case Delete(ids) => rows' == Listed(rows, ids) && used' == used && payloads' == payloads
    case Insert(data) =>
      && payloads' == payloads + [data]
      && exists id: nat :: id !in used && rows' == InsertById(rows, Message(id, data)) && used' == used + {id}
    case _ => rows' == rows && used' == used && payloads' == payloads
  }

  predicate Deletes(st: Option<Statement>) { st.Some? && Meant(st.value).Delete? }

  /** The table in id order, and the connections to it. */
  class Database {
    var rows: seq<Message>
    var used: set<nat>             // ids given out, visible or not any more
    var payloads: seq<string>      // of all rows inserted over these connections, in order
    var late: set<string>          // DELETE statements whose commit is in doubt
    var links: map<nat, bool>      // connections, and whether they are sound
    var works: map<nat, Statement> // what was executed in the open transaction of a connection
    var nextLink: nat
    ghost var calls: seq<Call>

    ghost predicate Valid()
      reads this
    {
      forall c :: c in links ==> c < nextLink
    }

    constructor ()
      ensures Valid() && rows == [] && used == {} && payloads == [] && late == {} && links == map[] && calls == []
    {
      rows, used, payloads, late, links, works, nextLink, calls := [], {}, [], {}, map[], map[], 0, [];
    }

    /** Another transaction commits a row, with whatever id its sequence gave it. */
    method OtherInsert(m: Message)
      requires m.id !in used
      modifies this`rows, this`used
      ensures rows == InsertById(old(rows), m) && used == old(used) + {m.id}
    {
      rows, used := InsertById(rows, m), used + {m.id};
    }

    /** A commit that was in doubt takes effect. */
    method Arrive(text: string)
      requires text in late
      modifies this`rows
      ensures rows == Deleted(old(rows), text)
    {
      rows := Deleted(rows, text);
    }

    method Connect() returns (end: End, c: nat)
      requires Valid()
      modifies this`links, this`works, this`nextLink, this`calls
      ensures Valid() && calls == old(calls) + [Call(Deed.Connect, end)]
      ensures end.Returned? ==> c !in old(links) && links == old(links)[c := true]
      ensures !end.Returned? ==> links == old(links)
    {
      c, end := nextLink, *;
      if end.Returned? {
        links, works, nextLink := links[c := true], works - {c}, nextLink + 1;
      }
      calls := calls + [Call(Deed.Connect, end)];
    }

    /** `pqxx::work` is constructed. */
    method Begin(c: nat) returns (end: End)
      requires Valid() && c in links
      modifies this`links, this`works, this`calls
      ensures Valid() && calls == old(calls) + [Call(Deed.Begin(c), end)]
      ensures c in links && links == old(links)[c := links[c]]
      ensures !old(links)[c] ==> end.Broke? && !links[c]
      ensures end.Broke? ==> !links[c]
      ensures end.Returned? ==> links[c] && works == old(works) - {c}
    {
      end := Fate(c);
      works := works - {c};
      calls := calls + [Call(Deed.Begin(c), end)];
    }

    /** A call over connection `c` returns, throws, or finds the connection broken. */
    method Fate(c: nat) returns (end: End)
      requires Valid() && c in links
      modifies this`links
      ensures Valid() && c in links && links == old(links)[c := links[c]]
      ensures !old(links)[c] ==> end.Broke? && !links[c]
      ensures end.Broke? <==> !links[c]
    {
      end := *;
      if end.Broke? || !links[c] {
        end, links := Broke, links[c := false];
      }
    }

    method Exec(c: nat, st: Statement) returns (end: End, result: seq<Message>)
      requires Valid() && c in links
      modifies this`links, this`works, this`calls
      ensures Valid() && calls == old(calls) + [Call(Deed.Exec(c, st), end)]
      ensures c in links && links == old(links)[c := links[c]]
      ensures !old(links)[c] ==> end.Broke? && !links[c]
      ensures end.Broke? ==> !links[c]
      ensures end.Returned? ==> links[c] && !Meant(st).Nonsense? && works == old(works)[c := st]
      ensures end.Returned? && Meant(st).Select? ==> result == Front(rows, Meant(st).limit)
    {
      end := Fate(c);
      result := [];
      if end.Returned? && Meant(st).Nonsense? {
        end := Threw;
      }
      if end.Returned? {
        works := works[c := st];
        if Meant(st).Select? { result := Front(rows, Meant(st).limit); }
      }
      calls := calls + [Call(Deed.Exec(c, st), end)];
    }

    ghost function Work(c: nat): Option<Statement>
      reads this
    {
      if c in works then Some(works[c]) else None
    }

    /** `applied`: did the transaction take effect by now? */
    method Commit(c: nat) returns (end: End, ghost applied: bool)
      requires Valid() && c in links
      modifies this`rows, this`used, this`payloads, this`late, this`links, this`calls
      ensures Valid() && calls == old(calls) + [Call(Deed.Commit(c), end)]
      ensures c in links && links == old(links)[c := links[c]]
      ensures !old(links)[c] ==> end.Broke? && !links[c]
      ensures if applied then TakesEffect(Work(c), old(rows), old(used), old(payloads), rows, used, payloads)
              else rows == old(rows) && used == old(used) && payloads == old(payloads)
      ensures end.Returned? ==> applied
      ensures end.Broke? ==> !applied
      ensures late != old(late) ==> Deletes(Work(c)) && end.Threw? && late == old(late) + {Work(c).value.text}
      ensures end.Threw? && applied && Deletes(Work(c)) ==> Work(c).value.text in late
    {
      var st := if c in works then Some(works[c]) else None;
      var executed: bool := *;
      end := Fate(c);
      applied := false;
      if end.Returned? || (end.Threw? && executed) {
        var ok := Apply(st);
        applied := ok;
        end := if ok then end else Threw;
      }
      if end.Threw? {
        Doubt(c, st, executed);
      }
      calls := calls + [Call(Deed.Commit(c), end)];
    }

    /** The answer to a commit is lost. */
    method Doubt(c: nat, st: Option<Statement>, executed: bool)
      requires Valid() && c in links
      modifies this`late, this`links
      ensures Valid() && c in links && links == old(links)[c := links[c]] && (!old(links)[c] ==> !links[c])
      ensures late != old(late) ==> Deletes(st) && late == old(late) + {st.value.text}
      ensures executed && Deletes(st) ==> st.value.text in late
    {
      var sent: bool, breaks: bool := *, *;
      if (sent || executed) && Deletes(st) {
        late := late + {st.value.text};
      }
      if breaks {
        links := links[c := false];
      }
    }

    /** The id of a new row is up to the sequence; one that is taken makes the insert fail. */
    method Apply(st: Option<Statement>) returns (ok: bool)
      modifies this`rows, this`used, this`payloads
      ensures ok ==> TakesEffect(st, old(rows), old(used), old(payloads), rows, used, payloads)
      ensures !ok ==> rows == old(rows) && used == old(used) && payloads == old(payloads)
    {
      ok := true;
      match if st.Some? then Meant(st.value) else Nonsense {
        case Delete(ids) => rows := Listed(rows, ids);
        case Insert(data) =>
          var id: int := *;
          ok := id >= 0 && id !in used;
          if ok {
            rows, used, payloads := InsertById(rows, Message(id, data)), used + {id}, payloads + [data];
          }
        case _ =>
      }
    }
  }
}
