/** `MessageConsumer`: the buffer, the spilled chunks and the saver threads. */
module Consumer {
  import opened Text
  import opened Messages
  import opened Chunks
  import opened FileNames
  import D = Disk
  import J = Journal

  /** The output folder and the file offsets of the savers that opened something in it. */
  class Folder {
    var disk: D.Disk

    constructor ()
      ensures disk == D.EMPTY
    {
      disk := D.EMPTY;
    }

    /** Saver `i` opens with trunc. */
    method Truncate(i: nat, name: string)
      modifies this
      ensures disk == D.Disk(old(disk).files[name := ""], old(disk).offsets[i := 0])
    {
      disk := D.Disk(disk.files[name := ""], disk.offsets[i := 0]);
    }

    /** Some bytes of saver `i` reach the file, at its own offset. */
    method Append(i: nat, name: string, data: string)
      requires i in disk.offsets
      modifies this
      ensures var at := old(disk).offsets[i];
        disk == D.Disk(old(disk).files[name := D.WriteAt(D.Contents(old(disk), name), at, data)],
                       old(disk).offsets[i := at + |data|])
    {
      var at := disk.offsets[i];
      disk := D.Disk(disk.files[name := D.WriteAt(D.Contents(disk, name), at, data)],
                     disk.offsets[i := at + |data|]);
    }
  }

  /** The loop behind the file name: the least id, and the id of the last message, for
      `maxId` is compared with `minId` and not with itself. */
  method Bracket(messages: seq<Message>) returns (minId: nat, maxId: nat)
    requires messages != [] && forall m :: m in messages ==> m.id < WORD
    ensures minId == MinId(messages) && maxId == LastId(messages)
  {
    minId, maxId := WORD - 1, 0;
    for i := 0 to |messages|
      invariant i == 0 ==> minId == WORD - 1
      invariant i > 0 ==> minId == MinId(messages[..i]) && maxId == messages[i - 1].id
    {
      MinIdPush(messages, i);
      minId := if messages[i].id < minId then messages[i].id else minId;
      maxId := if minId < messages[i].id then messages[i].id else minId;
    }
    assert messages[..|messages|] == messages;
  }

  lemma MinIdPush(messages: seq<Message>, i: nat)
    requires i < |messages|
    ensures messages[i] in messages
    ensures i == 0 ==> MinId(messages[..1]) == messages[0].id
    ensures i > 0 && messages[i].id < MinId(messages[..i]) ==> MinId(messages[..i + 1]) == messages[i].id
    ensures i > 0 && messages[i].id >= MinId(messages[..i]) ==> MinId(messages[..i + 1]) == MinId(messages[..i])
  {
    assert messages[..i + 1][..i] == messages[..i];
  }

  /** `d` is what the events `vs` made of `start`. */
  ghost predicate Ran(jobs: seq<D.Job>, start: D.Disk, d: D.Disk, vs: seq<D.SaverEvent>) {
    D.AllEnabled(jobs, start, vs) && d == D.RunAll(jobs, start, vs)
  }

  /** Other savers open and write, any number of times. `jobs` lists the chunks of all savers
      ever spawned. */
  method OtherSavers(folder: Folder, i: nat, jobs: seq<D.Job>, ghost start: D.Disk, ghost vs: seq<D.SaverEvent>)
    returns (ghost vs': seq<D.SaverEvent>)
    requires Ran(jobs, start, folder.disk, vs)
    modifies folder
    ensures vs <= vs' && Ran(jobs, start, folder.disk, vs')
    ensures i in folder.disk.offsets <==> i in old(folder.disk).offsets
    ensures i in folder.disk.offsets ==> folder.disk.offsets[i] == old(folder.disk).offsets[i]
  {
    vs' := vs;
    var n: int := *;
    while n > 0
      invariant vs <= vs' && Ran(jobs, start, folder.disk, vs')
      invariant i in folder.disk.offsets <==> i in old(folder.disk).offsets
      invariant i in folder.disk.offsets ==> folder.disk.offsets[i] == old(folder.disk).offsets[i]
    {
      var e: D.SaverEvent := *;
      if D.Enabled(jobs, folder.disk, e) && e.i != i {
        D.RunOneMore(jobs, start, vs', e);
        folder.disk := D.Step(jobs, folder.disk, e);
        vs' := vs' + [e];
      }
      n := n - 1;
    }
  }

  /** What the stream of saver `i` still holds back: what comes next in the file. */
  ghost predicate HeldBack(jobs: seq<D.Job>, d: D.Disk, i: nat, pending: string) {
    && i < |jobs| && i in d.offsets && d.offsets[i] + |pending| <= |jobs[i].bytes|
    && jobs[i].bytes[d.offsets[i]..d.offsets[i] + |pending|] == pending
  }

  lemma Piece(jobs: seq<D.Job>, d: D.Disk, i: nat, pending: string, n: nat)
    requires HeldBack(jobs, d, i, pending) && 0 < n <= |pending|
    ensures D.Enabled(jobs, d, D.Write(i, n))
    ensures var at := d.offsets[i];
      && jobs[i].bytes[at..at + n] == pending[..n]
      && jobs[i].bytes[at + n..at + |pending|] == pending[n..]
  {
    var at := d.offsets[i];
    assert jobs[i].bytes[at..at + |pending|][..n] == jobs[i].bytes[at..at + n];
    assert jobs[i].bytes[at..at + |pending|][n..] == jobs[i].bytes[at + n..at + |pending|];
  }

  method WritePiece(folder: Folder, i: nat, jobs: seq<D.Job>, name: string, pending: string, n: nat,
                    ghost start: D.Disk, ghost vs: seq<D.SaverEvent>)
    returns (ghost vs': seq<D.SaverEvent>)
    requires Ran(jobs, start, folder.disk, vs) && 0 < n <= |pending|
    requires HeldBack(jobs, folder.disk, i, pending) && jobs[i].name == name
    modifies folder
    ensures vs' == vs + [D.Write(i, n)] && Ran(jobs, start, folder.disk, vs')
    ensures HeldBack(jobs, folder.disk, i, pending[n..])
    ensures folder.disk.offsets[i] == old(folder.disk).offsets[i] + n
  {
    Piece(jobs, folder.disk, i, pending, n);
    D.RunOneMore(jobs, start, vs, D.Write(i, n));
    folder.Append(i, name, pending[..n]);
    vs' := vs + [D.Write(i, n)];
  }

  /** The stream forwards what it holds in pieces of its choice, all of it if `close` is set.
      Other savers run in between. */
  method Drain(folder: Folder, i: nat, jobs: seq<D.Job>, name: string, pending: string, close: bool,
               ghost start: D.Disk, ghost vs: seq<D.SaverEvent>)
    returns (rest: string, ghost vs': seq<D.SaverEvent>)
    requires Ran(jobs, start, folder.disk, vs)
    requires HeldBack(jobs, folder.disk, i, pending) && jobs[i].name == name
    modifies folder
    ensures vs <= vs' && Ran(jobs, start, folder.disk, vs')
    ensures HeldBack(jobs, folder.disk, i, rest) && (close ==> rest == "")
    ensures folder.disk.offsets[i] + |rest| == old(folder.disk).offsets[i] + |pending|
  {
    rest, vs' := pending, vs;
    var rounds: int := *;
    while rounds > 0 || (close && rest != "")
      invariant vs <= vs' && Ran(jobs, start, folder.disk, vs')
      invariant HeldBack(jobs, folder.disk, i, rest)
      invariant folder.disk.offsets[i] + |rest| == old(folder.disk).offsets[i] + |pending|
      decreases if rounds > 0 then rounds else 0, |rest|
    {
      vs' := OtherSavers(folder, i, jobs, start, vs');
      var n: int := *;
      n := if 0 < n <= |rest| then n else |rest|;
      if n > 0 {
        vs' := WritePiece(folder, i, jobs, name, rest, n, start, vs');
        rest := rest[n..];
      }
      rounds := rounds - 1;
    }
  }

  lemma MoreHeldBack(jobs: seq<D.Job>, d: D.Disk, i: nat, pending: string, data: string, done: string)
    requires HeldBack(jobs, d, i, pending) && d.offsets[i] + |pending| == |done|
    requires done + data <= jobs[i].bytes
    ensures HeldBack(jobs, d, i, pending + data)
  {
    var at := d.offsets[i];
    var all := jobs[i].bytes;
    assert all[|done|..|done| + |data|] == data by {
      assert all[..|done + data|] == done + data;
      assert all[|done|..|done| + |data|] == all[..|done + data|][|done|..];
    }
    assert all[at..at + |pending + data|] == all[at..at + |pending|] + all[|done|..|done| + |data|];
  }

  /** One pass of the loop over the messages: payload `k` and a line feed go to the stream. */
  method WriteLine(messages: seq<Message>, k: nat, folder: Folder, i: nat, jobs: seq<D.Job>, name: string,
                   pending: string, ghost start: D.Disk, ghost vs: seq<D.SaverEvent>)
    returns (rest: string, ghost vs': seq<D.SaverEvent>)
    requires k < |messages| && i < |jobs| && jobs[i] == D.Job(name, FileBytes(messages))
    requires Ran(jobs, start, folder.disk, vs) && HeldBack(jobs, folder.disk, i, pending)
    requires folder.disk.offsets[i] + |pending| == |FileBytes(messages[..k])|
    modifies folder
    ensures vs <= vs' && Ran(jobs, start, folder.disk, vs') && HeldBack(jobs, folder.disk, i, rest)
    ensures folder.disk.offsets[i] + |rest| == |FileBytes(messages[..k + 1])|
  {
    FileBytesPrefix(messages, k);
    ghost var done, m := FileBytes(messages[..k]), messages[k];
    assert done + m.data + ['\n'] == done + Line(m);
    MoreHeldBack(jobs, folder.disk, i, pending, m.data, done);
    rest, vs' := Drain(folder, i, jobs, name, pending + messages[k].data, false, start, vs);
    MoreHeldBack(jobs, folder.disk, i, rest, ['\n'], done + m.data);
    rest, vs' := Drain(folder, i, jobs, name, rest + ['\n'], false, start, vs');
  }

  /** The loop over the messages, and the end of the stream, which flushes it. */
  method WriteAll(messages: seq<Message>, folder: Folder, i: nat, jobs: seq<D.Job>, name: string,
                  ghost start: D.Disk, ghost vs: seq<D.SaverEvent>)
    returns (ghost vs': seq<D.SaverEvent>)
    requires Ran(jobs, start, folder.disk, vs) && i < |jobs| && jobs[i] == D.Job(name, FileBytes(messages))
    requires i in folder.disk.offsets && folder.disk.offsets[i] == 0
    modifies folder
    ensures vs <= vs' && Ran(jobs, start, folder.disk, vs')
    ensures i in folder.disk.offsets && folder.disk.offsets[i] == |FileBytes(messages)|
  {
    var pending := "";
    vs' := vs;
    for k := 0 to |messages|
      invariant vs <= vs' && Ran(jobs, start, folder.disk, vs')
      invariant HeldBack(jobs, folder.disk, i, pending)
      invariant folder.disk.offsets[i] + |pending| == |FileBytes(messages[..k])|
    {
      pending, vs' := WriteLine(messages, k, folder, i, jobs, name, pending, start, vs');
    }
    assert messages[..|messages|] == messages;
    pending, vs' := Drain(folder, i, jobs, name, pending, true, start, vs');
  }

  /** The body of saver thread `i` and of the destructor, while other savers run. `opens` says
      whether the file can be opened; if not the chunk is logged and dropped, as in the source.
      What happens is a schedule of `Disk` in which saver `i` is done at the end. */
  method SaveMessages(messages: seq<Message>, folder: Folder, i: nat, jobs: seq<D.Job>, opens: bool)
    returns (ghost vs: seq<D.SaverEvent>)
    requires forall m :: m in messages ==> m.id < WORD
    requires i < |jobs| && jobs[i] == JobOf(messages) && i !in folder.disk.offsets
    modifies folder
    ensures Ran(jobs, old(folder.disk), folder.disk, vs)
    ensures opens ==> D.Finished(jobs, folder.disk, i)
    ensures messages == [] || !opens ==> i !in folder.disk.offsets
  {
    ghost var start := folder.disk;
    vs := OtherSavers(folder, i, jobs, start, []);
    if messages == [] {
      return;
    }
    var minId, maxId := Bracket(messages);
    var fileName := FileName(minId, maxId);
    if !opens {
      return;
    }
    D.RunOneMore(jobs, start, vs, D.Open(i));
    folder.Truncate(i, fileName);
    vs := vs + [D.Open(i)];
    vs := WriteAll(messages, folder, i, jobs, fileName, start, vs);
  }

  /** Every payload and a line feed, one after the other, and nothing else. */
  predicate IsLines(messages: seq<Message>, text: string) {
    && |text| == Place(messages, |messages|)
    && forall k :: 0 <= k < |messages| ==> HoldsAt(text, messages[k].data + ['\n'], Place(messages, k))
  }

  lemma FileIsLines(messages: seq<Message>)
    ensures IsLines(messages, FileBytes(messages))
  {
    FileLength(messages);
    forall k | 0 <= k < |messages| ensures HoldsAt(FileBytes(messages), messages[k].data + ['\n'], Place(messages, k)) {
      FileHoldsPayload(messages, k);
    }
  }

  /** What a saver leaves that has its file to itself: the payloads, each with a line feed. */
  lemma SavedAlone(messages: seq<Message>, i: nat, jobs: seq<D.Job>, start: D.Disk, d: D.Disk, vs: seq<D.SaverEvent>)
    requires messages != [] && i < |jobs| && jobs[i] == JobOf(messages)
    requires forall j :: 0 <= j < |jobs| && j != i ==> jobs[j].name != jobs[i].name
    requires D.Kept(jobs, start) && Ran(jobs, start, d, vs) && D.Finished(jobs, d, i)
    ensures ChunkName(messages) in d.files && d.files[ChunkName(messages)] == FileBytes(messages)
    ensures IsLines(messages, d.files[ChunkName(messages)])
  {
    FileIsLines(messages);
    D.RunKeepsFiles(jobs, start, vs);
    var n := |messages| - 1;
    assert FileBytes(messages) == FileBytes(messages[..n]) + Line(messages[n]);
    var _ := D.Witness(jobs, d, i);
    D.AgreedContents(jobs, d, jobs[i].name, jobs[i].bytes);
  }

  class MessageConsumer {
    const chunkSize: nat
    ghost const journal: J.Journal
    var buffer: seq<Message>
    var spawned: seq<seq<Message>>  // chunks moved into detached savers, in spawn order

    constructor (chunkSize: nat, ghost journal: J.Journal)
      ensures this.chunkSize == chunkSize && this.journal == journal && buffer == [] && spawned == []
    {
      this.chunkSize := chunkSize;
      this.journal := journal;
      buffer := [];
      spawned := [];
    }

    /** Takes the payloads out of `messages` and leaves the ids for the acknowledgement. */
    method Consume(messages: array<Message>) returns (accepted: bool)
      modifies this, messages, journal
      ensures accepted
      ensures journal.calls == old(journal.calls) + [J.Consume(old(messages[..]), accepted)]
      ensures (buffer, spawned) == AcceptAll(chunkSize, old(buffer), old(spawned), old(messages[..]))
      ensures forall i :: 0 <= i < messages.Length ==> messages[i] == Message(old(messages[i].id), "")
    {
      ghost var given := messages[..];
      var i := 0;
      while i < messages.Length
        invariant 0 <= i <= messages.Length == |given|
        invariant (buffer, spawned) == AcceptAll(chunkSize, old(buffer), old(spawned), given[..i])
        invariant forall k :: 0 <= k < i ==> messages[k] == Message(given[k].id, "")
        invariant messages[i..] == given[i..]
        invariant journal.calls == old(journal.calls)
      {
        assert messages[i] == messages[i..][0] == given[i];
        assert given[..i + 1][..i] == given[..i];
        ghost var rest := messages[i..];
        buffer := buffer + [messages[i]];
        messages[i] := Message(messages[i].id, "");
        if |buffer| >= chunkSize {
          FlushBuffer();
        }
        i := i + 1;
        assert messages[i..] == rest[1..] == given[i..];
      }
      assert given[..i] == given;
      accepted := true;
      journal.calls := journal.calls + [J.Consume(given, accepted)];
    }

    method FlushBuffer()
      modifies this
      ensures buffer == [] && spawned == old(spawned) + [old(buffer)]
    {
      spawned := spawned + [buffer];
      buffer := [];
    }

    /** The destructor writes what is left, on its own thread, while detached savers may
        still run. */
    method Destroy(folder: Folder, opens: bool) returns (ghost vs: seq<D.SaverEvent>)
      requires forall m :: m in buffer ==> m.id < WORD
      requires |spawned| !in folder.disk.offsets
      modifies folder
      ensures Ran(Jobs(spawned + [buffer]), old(folder.disk), folder.disk, vs)
      ensures opens ==> D.Finished(Jobs(spawned + [buffer]), folder.disk, |spawned|)
      ensures buffer == [] || !opens ==> |spawned| !in folder.disk.offsets
    {
      vs := SaveMessages(buffer, folder, |spawned|, Jobs(spawned + [buffer]), opens);
    }
  }
}
