/** What travels between the producer and Redis: XRANGE replies and XDEL commands. */
module RedisWire {
  import opened Text
  import opened Messages
  import opened StreamIds
  import opened RedisCommands

  /** One entry of the `messages` stream, with the fields of its id. */
  datatype Entry = Entry(ts: nat, sq: nat, data: string)

  datatype Reply = Str(text: string) | Arr(elems: seq<Reply>) | Error(text: string) | Other(code: nat)

  /** The `REDIS_REPLY_*` numbers. */
  function TypeCode(r: Reply): nat {
    match r
    case Str(_) => 1
    case Arr(_) => 2
    case Other(code) => code
    case Error(_) => 6
  }

  predicate EntryInRange(e: Entry) { InRange(e.ts, e.sq) }

  /** An entry as the producer sees it. */
  function Decoded(e: Entry): Message { Message(Pack(e.ts, e.sq), e.data) }

  function DecodedAll(es: seq<Entry>): (ms: seq<Message>)
    ensures |ms| == |es| && forall i :: 0 <= i < |es| ==> ms[i] == Decoded(es[i])
  {
    seq(|es|, i requires 0 <= i < |es| => Decoded(es[i]))
  }

  predicate IdBefore(a: Entry, b: Entry) { a.ts < b.ts || (a.ts == b.ts && a.sq < b.sq) }

  /** Stream order is id order. */
  predicate StreamOrder(es: seq<Entry>) { forall i, j :: 0 <= i < j < |es| ==> IdBefore(es[i], es[j]) }

  /** In range, a stream in Redis order decodes to strictly ascending messages. */
  lemma StreamDecodesAscending(es: seq<Entry>)
    requires StreamOrder(es) && forall i :: 0 <= i < |es| ==> EntryInRange(es[i])
    ensures Ascending(DecodedAll(es))
  {
    forall i, j | 0 <= i < j < |es| ensures DecodedAll(es)[i].id < DecodedAll(es)[j].id {
      PackOrder(es[i].ts, es[i].sq, es[j].ts, es[j].sq);
    }
  }

  // ------------------------------------------------------------------ XRANGE

  function EntryReply(e: Entry): Reply {
    Arr([Str(IdText(e.ts, e.sq)), Arr([Str("data"), Str(e.data)])])
  }

  function XrangeReply(es: seq<Entry>): Reply {
    Arr(seq(|es|, i requires 0 <= i < |es| => EntryReply(es[i])))
  }

  function UnexpectedType(what: string, r: Reply): string {
    "Unexpected type of " + what + ": " + Print(TypeCode(r))
  }

  function DecodeId(r: Reply): Result<nat> {
    if !r.Str? then Throw(UnexpectedType("id reply", r)) else Ok(ParseId(r.text))
  }

  /** Field names and values alternate; the source reads them in pairs. */
  predicate PairedFields(r: Reply) { r.Arr? ==> |r.elems| % 2 == 0 }

  predicate IsDataField(fields: seq<Reply>, i: nat)
    requires i + 1 < |fields|
  {
    fields[i] == Str("data") && fields[i + 1].Str?
  }

  function FindData(fields: seq<Reply>, i: nat): string
    requires |fields| % 2 == 0 && i % 2 == 0 && i <= |fields|
    decreases |fields| - i
  {
    if i == |fields| then ""
    else if IsDataField(fields, i) then fields[i + 1].text
    else FindData(fields, i + 2)
  }

  function DecodeData(r: Reply): Result<string>
    requires PairedFields(r)
  {
    if !r.Arr? then Throw(UnexpectedType("data reply", r)) else Ok(FindData(r.elems, 0))
  }

  predicate ReadableEntry(r: Reply) { r.Arr? && |r.elems| == 2 ==> PairedFields(r.elems[1]) }

  predicate Readable(r: Reply) {
    r.Arr? ==> forall i :: 0 <= i < |r.elems| ==> ReadableEntry(r.elems[i])
  }

  function DecodeEntry(r: Reply): Result<Message>
    requires ReadableEntry(r)
  {
    if !r.Arr? then Throw(UnexpectedType("Redis stream entry", r))
    else if |r.elems| != 2 then Throw("Unexpected size of Redis stream entry: " + Print(|r.elems|))
    else
      match DecodeId(r.elems[0])
      case Throw(e) => Throw(e)
      case Ok(id) =>
        match DecodeData(r.elems[1])
        case Throw(e) => Throw(e)
        case Ok(data) => Ok(Message(id, data))
  }

  /** All entries, or the first exception. */
  function DecodeEntries(elems: seq<Reply>): Result<seq<Message>>
    requires forall i :: 0 <= i < |elems| ==> ReadableEntry(elems[i])
  {
    if elems == [] then Ok([])
    else
      match DecodeEntries(elems[..|elems| - 1])
      case Throw(e) => Throw(e)
      case Ok(ms) =>
        match DecodeEntry(elems[|elems| - 1])
        case Throw(e) => Throw(e)
        case Ok(m) => Ok(ms + [m])
  }

  function DecodeReply(r: Reply): Result<seq<Message>>
    requires Readable(r)
  {
    if !r.Arr? then Throw(UnexpectedType("Redis reply", r)) else DecodeEntries(r.elems)
  }

  lemma {:induction false} PrefixThrows(elems: seq<Reply>, i: nat)
    requires i <= |elems| && forall k :: 0 <= k < |elems| ==> ReadableEntry(elems[k])
    requires DecodeEntries(elems[..i]).Throw?
    ensures DecodeEntries(elems) == DecodeEntries(elems[..i])
  {
    if i == |elems| {
      assert elems[..i] == elems;
    } else {
      var n := |elems| - 1;
      assert elems[..n][..i] == elems[..i];
      PrefixThrows(elems[..n], i);
    }
  }

  /** The pair at `i` is the first one that is named data and has a string value. */
  predicate FirstDataField(fields: seq<Reply>, i: nat) {
    && i % 2 == 0 && i + 1 < |fields| && IsDataField(fields, i)
    && forall j :: 0 <= j < i && j % 2 == 0 ==> !IsDataField(fields, j)
  }

  predicate NoDataField(fields: seq<Reply>) {
    forall j :: 0 <= j && j + 1 < |fields| && j % 2 == 0 ==> !IsDataField(fields, j)
  }

  /** What the decoded payload is: the value of the first data field, or nothing. */
  lemma {:induction false} FindDataIsFirst(fields: seq<Reply>, i: nat)
    requires |fields| % 2 == 0 && i % 2 == 0 && i <= |fields|
    requires forall j :: 0 <= j < i && j % 2 == 0 ==> !IsDataField(fields, j)
    ensures NoDataField(fields) ==> FindData(fields, i) == ""
    ensures !NoDataField(fields) ==> exists k :: FirstDataField(fields, k) && FindData(fields, i) == fields[k + 1].text
    decreases |fields| - i
  {
    if i < |fields| {
      if IsDataField(fields, i) {
        assert FirstDataField(fields, i);
      } else {
        FindDataIsFirst(fields, i + 2);
      }
    }
  }

  predicate GoodEntry(e: Reply) { e.Arr? && |e.elems| == 2 && e.elems[0].Str? && e.elems[1].Arr? }

  /** Why an entry cannot be read. */
  predicate Complains(reason: string, e: Reply) {
    if !e.Arr? then reason == "Unexpected type of Redis stream entry: " + Print(TypeCode(e))
    else if |e.elems| != 2 then reason == "Unexpected size of Redis stream entry: " + Print(|e.elems|)
    else if !e.elems[0].Str? then reason == "Unexpected type of id reply: " + Print(TypeCode(e.elems[0]))
    else reason == "Unexpected type of data reply: " + Print(TypeCode(e.elems[1]))
  }

  /** The message has the entry's id, and its first string named data or nothing. */
  ghost predicate Reads(m: Message, e: Reply)
    requires GoodEntry(e)
  {
    var fields := e.elems[1].elems;
    && m.id == ParseId(e.elems[0].text)
    && (NoDataField(fields) ==> m.data == "")
    && forall k :: FirstDataField(fields, k) ==> m.data == fields[k + 1].text
  }

  lemma GoodEntryReads(e: Reply)
    requires GoodEntry(e) && ReadableEntry(e)
    ensures DecodeEntry(e).Ok? && Reads(DecodeEntry(e).value, e)
  {
    FindDataIsFirst(e.elems[1].elems, 0);
  }

  lemma BadEntryComplains(e: Reply)
    requires !GoodEntry(e) && ReadableEntry(e)
    ensures DecodeEntry(e).Throw? && Complains(DecodeEntry(e).reason, e)
  {
    ComplaintTexts(e);
    if e.Arr? && |e.elems| == 2 {
      ComplaintTexts(e.elems[0]);
      ComplaintTexts(e.elems[1]);
    }
  }

  lemma ComplaintTexts(r: Reply)
    ensures UnexpectedType("Redis stream entry", r) == "Unexpected type of Redis stream entry: " + Print(TypeCode(r))
    ensures UnexpectedType("id reply", r) == "Unexpected type of id reply: " + Print(TypeCode(r))
    ensures UnexpectedType("data reply", r) == "Unexpected type of data reply: " + Print(TypeCode(r))
  {
    var n := Print(TypeCode(r));
    assert "Unexpected type of " + "Redis stream entry" + ": " == "Unexpected type of Redis stream entry: ";
    assert "Unexpected type of " + "id reply" + ": " == "Unexpected type of id reply: ";
    assert "Unexpected type of " + "data reply" + ": " == "Unexpected type of data reply: ";
  }

  predicate AllGood(elems: seq<Reply>) { forall i :: 0 <= i < |elems| ==> GoodEntry(elems[i]) }

  /** If every entry is good, decoding reads each of them, in order. */
  lemma {:induction false} GoodEntriesDecode(elems: seq<Reply>)
    requires (forall i :: 0 <= i < |elems| ==> ReadableEntry(elems[i])) && AllGood(elems)
    ensures DecodeEntries(elems).Ok? && |DecodeEntries(elems).value| == |elems|
    ensures forall i :: 0 <= i < |elems| ==> Reads(DecodeEntries(elems).value[i], elems[i])
  {
    if elems != [] {
      var n := |elems| - 1;
      GoodEntriesDecode(elems[..n]);
      GoodEntryReads(elems[n]);
      assert forall i :: 0 <= i < n ==> elems[..n][i] == elems[i];
    }
  }

  /** If not, it throws for the first one that is not. */
  lemma FirstBadEntryThrows(elems: seq<Reply>, i: nat)
    requires forall k :: 0 <= k < |elems| ==> ReadableEntry(elems[k])
    requires i < |elems| && AllGood(elems[..i]) && !GoodEntry(elems[i])
    ensures DecodeEntries(elems).Throw? && Complains(DecodeEntries(elems).reason, elems[i])
  {
    GoodEntriesDecode(elems[..i]);
    BadEntryComplains(elems[i]);
    FirstThrows(elems, i);
  }

  lemma {:induction false} FirstThrows(elems: seq<Reply>, i: nat)
    requires forall k :: 0 <= k < |elems| ==> ReadableEntry(elems[k])
    requires i < |elems| && DecodeEntries(elems[..i]).Ok? && DecodeEntry(elems[i]).Throw?
    ensures DecodeEntries(elems) == Throw(DecodeEntry(elems[i]).reason)
  {
    var n := |elems| - 1;
    if i < n {
      assert elems[..n][..i] == elems[..i];
      FirstThrows(elems[..n], i);
    }
  }

  /** The payload of an entry: the value of its first string field named data, nothing if
      there is none, and an exception exactly if the fields are not an array. */
  method MessageDataFromReply(reply: Reply) returns (data: Result<string>)
    requires PairedFields(reply)
    ensures !reply.Arr? ==> data == Throw(UnexpectedType("data reply", reply))
    ensures reply.Arr? ==> data.Ok?
    ensures reply.Arr? && NoDataField(reply.elems) ==> data.value == ""
    ensures reply.Arr? ==>
      forall i :: FirstDataField(reply.elems, i) ==> data.value == reply.elems[i + 1].text
    ensures data == DecodeData(reply)
  {
    if !reply.Arr? {
      return Throw(UnexpectedType("data reply", reply));
    }
    FindDataIsFirst(reply.elems, 0);
    var i := 0;
    while i < |reply.elems|
      invariant 0 <= i <= |reply.elems| && i % 2 == 0
      invariant forall j :: 0 <= j < i && j % 2 == 0 ==> !IsDataField(reply.elems, j)
    {
      var fieldName, fieldValue := reply.elems[i], reply.elems[i + 1];
      if fieldName.Str? && fieldName.text == "data" && fieldValue.Str? {
        assert FirstDataField(reply.elems, i);
        return Ok(fieldValue.text);
      }
      i := i + 2;
    }
    data := Ok("");
  }

  /** One pass of the loop over the entries. */
  method MessageFromEntry(entry: Reply) returns (message: Result<Message>)
    requires ReadableEntry(entry)
    ensures message == DecodeEntry(entry)
  {
    if !entry.Arr? {
      return Throw(UnexpectedType("Redis stream entry", entry));
    }
    if |entry.elems| != 2 {
      return Throw("Unexpected size of Redis stream entry: " + Print(|entry.elems|));
    }
    if !entry.elems[0].Str? {
      return Throw(UnexpectedType("id reply", entry.elems[0]));
    }
    var id := MessageIdFromText(entry.elems[0].text);
    var data := MessageDataFromReply(entry.elems[1]);
    if data.Throw? {
      return Throw(data.reason);
    }
    message := Ok(Message(id, data.value));
  }

  method MessagesFromReply(reply: Reply) returns (result: Result<seq<Message>>)
    requires Readable(reply)
    ensures result == DecodeReply(reply)
  {
    if !reply.Arr? {
      return Throw(UnexpectedType("Redis reply", reply));
    }
    var messages := [];
    for i := 0 to |reply.elems|
      invariant DecodeEntries(reply.elems[..i]) == Ok(messages)
    {
      assert reply.elems[..i + 1][..i] == reply.elems[..i];
      var message := MessageFromEntry(reply.elems[i]);
      if message.Throw? {
        PrefixThrows(reply.elems, i + 1);
        return Throw(message.reason);
      }
      messages := messages + [message.value];
    }
    assert reply.elems[..|reply.elems|] == reply.elems;
    result := Ok(messages);
  }

  lemma XrangeReadable(es: seq<Entry>)
    ensures Readable(XrangeReply(es))
  {}

  lemma EntryRoundTrip(e: Entry)
    ensures ReadableEntry(EntryReply(e)) && DecodeEntry(EntryReply(e)) == Ok(Decoded(e))
  {
    ParseIdText(e.ts, e.sq);
  }

  /** Decoding what Redis sends for a stretch of the stream gives its messages, in order. */
  lemma {:induction false} XrangeRoundTrip(es: seq<Entry>)
    ensures DecodeReply(XrangeReply(es)) == Ok(DecodedAll(es))
  {
    if es != [] {
      var n := |es| - 1;
      XrangeRoundTrip(es[..n]);
      assert XrangeReply(es).elems[..n] == XrangeReply(es[..n]).elems;
      EntryRoundTrip(es[n]);
      assert DecodedAll(es) == DecodedAll(es[..n]) + [Decoded(es[n])];
    }
  }

  // -------------------------------------------------------------------- XDEL

  function IdWords(ids: seq<nat>): (ws: seq<string>)
    ensures |ws| == |ids| && forall i :: 0 <= i < |ids| ==> ws[i] == PrintId(ids[i])
  {
    seq(|ids|, i requires 0 <= i < |ids| => PrintId(ids[i]))
  }

  function XdelCommand(ids: seq<nat>): string { Join(["XDEL", "messages"] + IdWords(ids), ' ') }

  method MakeXdelCommand(messages: seq<Message>) returns (command: string)
    ensures command == XdelCommand(Ids(messages))
  {
    command := "XDEL " + "messages";
    assert ["XDEL", "messages"] + IdWords(Ids(messages[..0])) == ["XDEL"] + ["messages"];
    JoinPush(["XDEL"], ' ', "messages");
    assert command == "XDEL" + [' '] + "messages";
    for i := 0 to |messages|
      invariant command == XdelCommand(Ids(messages[..i]))
    {
      var words := ["XDEL", "messages"] + IdWords(Ids(messages[..i]));
      JoinPush(words, ' ', PrintId(messages[i].id));
      assert ["XDEL", "messages"] + IdWords(Ids(messages[..i + 1])) == words + [PrintId(messages[i].id)];
      command := command + [' '] + PrintId(messages[i].id);
    }
    assert messages[..|messages|] == messages;
  }

  /** How the server reads the command: an XDEL of the stream names ids, anything else none. */
  function CommandIds(command: string): seq<string> {
    var words := Split(command, ' ');
    if |words| >= 2 && words[0] == "XDEL" && words[1] == "messages" then words[2..] else []
  }

  lemma PrintIdHasNoSpace(id: nat)
    ensures ' ' !in PrintId(id)
  {
    PrintValue(id / SEQUENCE_RANGE);
    PrintValue(id % SEQUENCE_RANGE);
  }

  /** Read back as text, the command names the ids of the batch, in order, and no others. */
  lemma XdelNamesBatch(ids: seq<nat>)
    ensures Split(XdelCommand(ids), ' ') == ["XDEL", "messages"] + IdWords(ids)
    ensures CommandIds(XdelCommand(ids)) == IdWords(ids)
  {
    var words := ["XDEL", "messages"] + IdWords(ids);
    forall i | 0 <= i < |words| ensures ' ' !in words[i] {
      if i >= 2 { PrintIdHasNoSpace(ids[i - 2]); }
    }
    SplitJoin(words, ' ');
  }

  /** Sent as a format without arguments, it is an XDEL to the server. */
  lemma XdelReading(ids: seq<nat>)
    ensures Reading(XdelCommand(ids), []) == Xdel(XdelCommand(ids))
  {
    XdelNamesBatch(ids);
    NothingFilled(Split(XdelCommand(ids), ' '));
    XdelUnderstood(IdWords(ids), XdelCommand(ids));
  }

  lemma XdelUnderstood(words: seq<string>, text: string)
    requires Split(text, ' ') == ["XDEL", "messages"] + words
    ensures Understood(["XDEL", "messages"] + words, text) == Xdel(text)
  {
    var argv := ["XDEL", "messages"] + words;
    assert argv[..2] == ["XDEL", "messages"] && argv[0] == "XDEL";
    assert "XDEL"[1] == 'D' && "AUTH"[1] == 'U' && "XRANGE"[1] == 'R' && "XADD"[1] == 'A';
  }

  function DeleteNamed(es: seq<Entry>, ids: seq<string>): seq<Entry> {
    if es == [] then []
    else if IdText(es[0].ts, es[0].sq) in ids then DeleteNamed(es[1..], ids)
    else [es[0]] + DeleteNamed(es[1..], ids)
  }

  lemma NamedExactlyWhenListed(e: Entry, ids: seq<nat>)
    requires EntryInRange(e)
    ensures IdText(e.ts, e.sq) in IdWords(ids) <==> Decoded(e).id in ids
  {
    PackInRange(e.ts, e.sq);
    if IdText(e.ts, e.sq) in IdWords(ids) {
      var i :| 0 <= i < |ids| && IdWords(ids)[i] == IdText(e.ts, e.sq);
      IdTextInjective(e.ts, e.sq, ids[i] / SEQUENCE_RANGE, ids[i] % SEQUENCE_RANGE);
    }
    if Decoded(e).id in ids {
      var i :| 0 <= i < |ids| && ids[i] == Decoded(e).id;
      assert IdWords(ids)[i] == IdText(e.ts, e.sq);
    }
  }

  lemma {:induction false} DeleteNamedDecodes(es: seq<Entry>, ids: seq<nat>)
    requires forall i :: 0 <= i < |es| ==> EntryInRange(es[i])
    ensures DecodedAll(DeleteNamed(es, IdWords(ids))) == Remove(DecodedAll(es), ids)
  {
    if es != [] {
      DeleteNamedDecodes(es[1..], ids);
      NamedExactlyWhenListed(es[0], ids);
      assert DecodedAll(es)[1..] == DecodedAll(es[1..]);
      var rest := DeleteNamed(es[1..], IdWords(ids));
      assert DecodedAll([es[0]] + rest) == [Decoded(es[0])] + DecodedAll(rest);
    }
  }

  /** End to end: executing the text the producer sends deletes exactly the batch it
      consumed, on any stream whose ids are in range. */
  lemma XdelDeletesBatch(es: seq<Entry>, ids: seq<nat>)
    requires forall i :: 0 <= i < |es| ==> EntryInRange(es[i])
    ensures DecodedAll(DeleteNamed(es, CommandIds(XdelCommand(ids)))) == Remove(DecodedAll(es), ids)
  {
    XdelNamesBatch(ids);
    DeleteNamedDecodes(es, ids);
  }

  lemma {:induction false} UnnamedStays(es: seq<Entry>, ids: seq<string>, e: Entry)
    ensures e in DeleteNamed(es, ids) <==> e in es && IdText(e.ts, e.sq) !in ids
  {
    if es != [] { UnnamedStays(es[1..], ids, e); }
  }

  /** The word an entry out of range is known by is printed as the id of another one. */
  lemma AckNamesAnother(e: Entry)
    requires !EntryInRange(e)
    ensures CommandIds(XdelCommand([Decoded(e).id])) == [PrintId(Decoded(e).id)]
    ensures PrintId(Decoded(e).id) != IdText(e.ts, e.sq)
  {
    XdelNamesBatch([Decoded(e).id]);
    ParseIdText(e.ts, e.sq);
    PrintOfParse(e.ts, e.sq);
  }

  lemma OutOfRangeStays(es: seq<Entry>, e: Entry)
    requires e in es && !EntryInRange(e)
    ensures var ids := [Decoded(e).id];
      DecodedAll(DeleteNamed(es, CommandIds(XdelCommand(ids)))) != Remove(DecodedAll(es), ids)
  {
    var ids := [Decoded(e).id];
    AckNamesAnother(e);
    var rest := DeleteNamed(es, CommandIds(XdelCommand(ids)));
    UnnamedStays(es, CommandIds(XdelCommand(ids)), e);
    var i :| 0 <= i < |rest| && rest[i] == e;
    assert DecodedAll(rest)[i] == Decoded(e);
    RemoveContents(DecodedAll(es), ids);
    assert Decoded(e) in DecodedAll(rest) && Decoded(e) !in Remove(DecodedAll(es), ids);
  }

  /** On a given stream every acknowledgement, of whatever batch, deletes what it should if and
      only if all ids of the stream fit the packing. */
  lemma AcksAreExactExactlyWhenInRange(es: seq<Entry>)
    ensures (forall ids :: DecodedAll(DeleteNamed(es, CommandIds(XdelCommand(ids)))) == Remove(DecodedAll(es), ids))
       <==> forall i :: 0 <= i < |es| ==> EntryInRange(es[i])
  {
    if forall i :: 0 <= i < |es| ==> EntryInRange(es[i]) {
      forall ids ensures DecodedAll(DeleteNamed(es, CommandIds(XdelCommand(ids)))) == Remove(DecodedAll(es), ids) {
        XdelDeletesBatch(es, ids);
      }
    } else {
      var i :| 0 <= i < |es| && !EntryInRange(es[i]);
      OutOfRangeStays(es, es[i]);
    }
  }

  /** The acknowledgement of an entry out of range keeps it and deletes instead whatever entry
      has the id its word is printed as, delivered or not. */
  lemma MisdirectedAck(es: seq<Entry>, e: Entry, other: Entry)
    requires e in es && !EntryInRange(e)
    requires IdText(other.ts, other.sq) == PrintId(Decoded(e).id)
    ensures var rest := DeleteNamed(es, CommandIds(XdelCommand([Decoded(e).id]))); e in rest && other !in rest
  {
    AckNamesAnother(e);
    UnnamedStays(es, CommandIds(XdelCommand([Decoded(e).id])), e);
    UnnamedStays(es, CommandIds(XdelCommand([Decoded(e).id])), other);
  }

  /** For instance, acknowledging `0-4194304` deletes `1-0`. */
  lemma MisdirectedExample(es: seq<Entry>, e: Entry, other: Entry)
    requires e in es && e.ts == 0 && e.sq == SEQUENCE_RANGE && other.ts == 1 && other.sq == 0
    ensures var rest := DeleteNamed(es, CommandIds(XdelCommand([Decoded(e).id]))); e in rest && other !in rest
  {
    OrZero(SEQUENCE_RANGE);
    OrCommutes(0, SEQUENCE_RANGE);
    assert Decoded(e).id == SEQUENCE_RANGE;
    MisdirectedAck(es, e, other);
  }

  lemma {:induction false} DeleteNamedTwice(es: seq<Entry>, ids: seq<string>)
    ensures DeleteNamed(DeleteNamed(es, ids), ids) == DeleteNamed(es, ids)
  {
    if es != [] { DeleteNamedTwice(es[1..], ids); }
  }

  lemma {:induction false} DeleteNamedSubset(es: seq<Entry>, ids: seq<string>)
    ensures forall e :: e in DeleteNamed(es, ids) ==> e in es
  {
    if es != [] { DeleteNamedSubset(es[1..], ids); }
  }

  lemma {:induction false} DeleteNamedOrder(es: seq<Entry>, ids: seq<string>)
    requires StreamOrder(es)
    ensures StreamOrder(DeleteNamed(es, ids))
  {
    if es != [] {
      DeleteNamedOrder(es[1..], ids);
      DeleteNamedSubset(es[1..], ids);
      assert forall e :: e in es[1..] ==> IdBefore(es[0], e);
    }
  }
}
