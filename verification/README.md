# Store-and-forward gateway: a verified model

The front process (`gwfront`) takes HTTP requests, checks their bodies and appends the
accepted ones to a store, Redis or PostgreSQL. The back process (`gwback`) reads the
lowest ids, hands each batch to a consumer that spills fixed-size chunks to files from
detached threads, and then deletes the batch. Fetches, deletes and inserts can fail at any
point; a delete can take effect although it was reported as failed, even later.

The model follows the code file by file. Objects that the source updates in place are
classes whose methods are verified against specification functions; the protocols around
them are state machines whose events are single steps of single parties, and results about
them quantify over all event sequences.

| file | what it holds |
|---|---|
| `Text.dfy`, `Messages.dfy` | decimal text, padding, lexicographic order; messages, deletion by id |
| `StreamIds.dfy`, `RedisWire.dfy` | stream ids as 64-bit words, XRANGE replies, XDEL commands |
| `Disk.dfy` | the output folder byte by byte under concurrent writers |
| `FileNames.dfy`, `Chunks.dfy`, `Consumer.dfy` | file names and contents, buffer and chunks, the consumer class and its saver threads |
| `Delivery.dfy` | the back end as a state machine over all interleavings |
| `Replay.dfy`, `LossFree.dfy`, `Losses.dfy`, `Fifo.dfy`, `Savers.dfy` | what its runs guarantee, and the runs that lose messages |
| `RedisCommands.dfy`, `Hiredis.dfy` | how a command gets from its format to what the server understands; client library contract and account of calls |
| `RedisProducer.dfy`, `Journal.dfy`, `RunLoop.dfy` | producer class, the loop's calls on record, the run loop as a refinement of the machine |
| `Libpqxx.dfy`, `PostgresProducer.dfy`, `PostgresLoop.dfy`, `LoopParts.dfy` | the same for the other producer |
| `Writers.dfy`, `RedisWriter.dfy`, `PostgresWriter.dfy`, `Pool.dfy` | writers, and their connection pool under all interleavings |
| `Http.dfy`, `Session.dfy` | answers, one session |
| `FrontEnd.dfy`, `FrontEndRuns.dfy` | all sessions and their writers' steps over one store; what an answer says, exactly when |
| `Gateway.dfy` | both processes over one store, from the client's request to the file |

## Main results

* **What is accepted is kept, and exactly when.** The front end and the back end run over one
  store. In every run, at every moment, a body answered with 202 is in the store, in the
  consumer's hands, in a chunk being saved, or in a file at its own place, if and only if the
  back end is loss-free, in the sense of the next point (`Gateway.AcceptedIsKeptExactlyWhen`).
* **Nothing deleted is lost, and exactly when.** The environment makes up to three promises:
  ids become visible in ascending order (`ascending`: a Redis stream within the id range);
  every delete takes effect before the next fetch (`settled`); a saver opens its file only
  when no other saver is still writing it (`exclusive`). For every configuration, all runs
  are loss-free if and only if `settled`, or chunks hold one message, or `ascending` and
  either `exclusive` or messages are fetched one by one (`Losses.LossFreeExactlyWhen`).
  Without `exclusive`, saver threads of the same file name overlap, each at its own offset,
  and any cut of their output into writes is a schedule. On disk means: the line of the message
  stands where its predecessors in the chunk end, in the file named after this chunk, so equal or
  empty payloads do not stand in for each other. Acknowledgement failures, late
  deletes, redelivery and truncated files are covered throughout.
* **The losing runs** exist for every other configuration: a row that becomes visible late
  and failed deletes, with savers one after the other (`Losses.LosingLateRow`), which is what
  PostgreSQL allows when transactions commit out of id order; and, even with ascending ids,
  failed deletes and two savers of one file name that overlap (`Losses.LosingOverlap`), which
  the detached threads of `gwback/src/consumer/consumer.cpp:77-80` allow. The overlap needs no
  small pieces: payloads are at least as long as one likes, and the only cut is before the last line feed of a file.
* **Order.** With ascending ids the log, replays left out, is a prefix of what was inserted
  (`Fifo.FifoUpToReplay`); if deletes also take effect, chunks, buffer and store in this
  order are exactly what was inserted (`Fifo.FifoRefinement`), and concatenating the files
  in listing order gives the delivered bytes (`Fifo.ListingIsDeliveryOrder`), however the
  savers interleaved.
* **Names.** 19-digit padding orders names by id if and only if ids are told apart by their
  first 19 digits (`FileNames.NameOrder`); ids reach a twentieth digit around the year 2045
  (`FileNames.NamesMisorder`).
* **The id packing** is exact if and only if the timestamp has at most 42 and the sequence
  number at most 22 bits (`StreamIds.PrintOfParse`). On a given stream every acknowledgement
  deletes exactly its batch if and only if all ids are in that range
  (`RedisWire.AcksAreExactExactlyWhenInRange`); outside, it keeps its own entry and deletes
  another one (`RedisWire.MisdirectedAck`).
* **The run loop refines the machine**, with either producer (`RunLoop.RunLoop`,
  `RunLoop.Shutdown`, `PostgresLoop.RunLoop`, `PostgresLoop.Shutdown`): reconnects, wire texts,
  statements in doubt, the folder, and other clients acting between any two Redis commands.
  It makes exactly as many passes as `run` was found set, and the journal that producer and
  consumer keep shows for each of them one getNext and, if that found something, one call of the
  consumer with that batch and one markConsumed of its ids, in this order.
* **Every library call is accounted for.** The client libraries record their calls, and the
  contracts of producers and writers say which calls are made, in what order and with which
  texts, and that the outcome of the last one decides the result
  (`RedisProducer.Producer.MarkConsumed`, `PostgresProducer.Producer.MarkConsumed`,
  `RedisWriter.Writer.Write`, `PostgresWriter.Writer.Write`). A text does something only if the
  server's own reading of it says so (`RedisCommands.XrangeReading`, `RedisWire.XdelReading`,
  `PostgresProducer.QueryNamesIds`).
* **202 means stored**, request by request, over all interleaved sessions
  (`FrontEnd.AcceptedMeansStored`). The machine steps through the writers call by call, by
  the same program the writer classes are proved to follow; that a 202 has a row, and that
  there are at most two copies (Redis) or one (PostgreSQL), is derived. That a 503 means
  nothing is stored, and that a 202 means one copy is, each holds if and only if the store is
  PostgreSQL (`FrontEndRuns.UnavailableMeansNothingExactlyWhen`,
  `FrontEndRuns.AcceptedMeansOnceExactlyWhen`). Request by request, Redis never stores anything
  if and only if every XADD sent on a sound context was refused, for a 503 if and only if none
  was sent (`FrontEndRuns.RedisNeverStoredExactlyWhen`,
  `FrontEndRuns.RedisUnavailableNeverStoredExactlyWhen`).

The file name's second id is the id of the last message of the chunk, because `maxId` is
compared with `minId` and not with itself; the model keeps that. It is the maximum when the
chunk is ascending.

## Assumptions about libraries

Encoded in the contracts of `Hiredis.Redis` and `Libpqxx.Database`, and in `FrontEnd.Honest`: a
reply is null exactly if the context has an error; an error stays until `redisReconnect`; a reply without error means the command was
executed, an error reply that it was not and will not be; XDEL and DELETE are atomic;
`broken_connection` is only raised for a transaction that was not committed, a connection that
raised it stays broken, and a transaction that is not committed does nothing. `redisCommand` cuts
its format at spaces and fills the place holders in order. A command or a commit
whose answer was lost may take effect at any later time: late deletes in `Hiredis`,
`Libpqxx` and `Delivery`, late inserts in `FrontEnd` (to the producers they are
inserts of others).

A file stream forwards what it was given in order, in pieces of any size, at the offset of
its own open file, and has forwarded everything when it is closed. `open` with `trunc`
empties the file for everybody. The output folder is empty at first. The front end's ids and
the chunk sizes (at least 1, `gwback/src/utils/config.cpp:19-36`) are parameters. A
moved-from `buffer_` is empty.

## Model

| member | source | states |
|---|---|---|
| Losses.LossFreeExactlyWhen | gwback/src/main.cpp:60-86 | for each configuration and environment: in every run whatever was deleted is in hand, in the buffer, in a chunk still being saved or in its chunk's file at its own place, if and only if deletes take effect before the next fetch, or chunks hold one message, or ids ascend and savers of one file do not overlap or fetches are of one message |
| Losses.LosingLateRow | gwback/src/consumer/consumer.cpp:29-35 | for every configuration with chunks of two or more: late rows and failed deletes lose a message although savers run one after the other |
| Losses.LosingOverlap | gwback/src/consumer/consumer.cpp:35-46 | for every configuration with fetches and chunks of two or more, and payloads of at least any given size: ascending ids, failed deletes and overlapping savers of one name lose a message, although the only cut in what savers write is before a last line feed |
| Losses.StoppedMeansOnDisk | gwback/src/consumer/consumer.cpp:59-62 | under that condition, after the destructor and all savers, everything that left the store is in the file of a chunk it is in, at its place there |
| LossFree.AscendingIsLossFree | gwback/src/consumer/consumer.cpp:14-49 | ascending ids suffice if savers of one file do not overlap, under any acknowledgement failures, late deletes and order of savers |
| LossFree.OneByOneIsLossFree | gwback/src/producer/redis_producer.cpp:125-129 | ascending ids fetched one at a time suffice, however savers overlap |
| LossFree.SinglesAreLossFree | gwback/src/consumer/consumer.cpp:69-72 | chunks of one message suffice, whatever ids, deletes and savers do |
| LossFree.SettledIsLossFree | gwback/src/main.cpp:75-78 | effective deletes suffice, in whatever order ids appear and savers write |
| LossFree.SameNameHolds | gwback/src/consumer/consumer.cpp:29-35 | with ascending ids every chunk that shares the name of the chunk of a message's last delivery holds that message too |
| LossFree.DistinctNames | gwback/src/consumer/consumer.cpp:29-33 | without redelivery no two chunks have the same file name |
| Disk.StepKeepsFiles | gwback/src/consumer/consumer.cpp:35-46 | under every schedule of opens and writes, what some saver of a file wrote since its open is still occupied by bytes that savers of this file write at these positions |
| Disk.SharedPartStays | gwback/src/consumer/consumer.cpp:35-46 | what all savers of a file write at the same place is there when they are done |
| Disk.AgreedContents | gwback/src/consumer/consumer.cpp:35-46 | savers that write the same bytes leave exactly these, however they overlap |
| Disk.StepKeepsOwned | gwback/src/consumer/consumer.cpp:35-46 | if savers of a file do not overlap, the file is a prefix of one saver's bytes, all of them when it is done |
| Disk.OvertakenLeaves | gwback/src/consumer/consumer.cpp:35-46 | what a saver leaves that is overtaken by another one of the same file and goes on |
| Replay.FetchKeepsOrdered | gwback/src/producer/redis_producer.cpp:125-129 | reading the lowest ids keeps every step back of the log a replay and every message's last delivery below all later ones |
| Replay.DeleteKeepsOrdered | gwback/src/producer/redis_producer.cpp:161-187 | so does a delete of a batch, whenever it arrives |
| Replay.InsertKeepsOrdered | gwfront/src/handler/redis_writer.cpp:41-45 | so does an insert with a greater id |
| Delivery.RunKeepsInv | gwback/src/main.cpp:60-86 | every run keeps store, loop, chunk and folder invariants |
| Delivery.DeletedWasDelivered | gwback/src/main.cpp:75-78 | in every run only messages the consumer accepted leave the store, also when smaller ids appear late |
| Delivery.ChunksCutTheLog | gwback/src/consumer/consumer.cpp:64-80 | chunks and buffer are the log cut every chunkSize messages; quotient and remainder; nothing is outside a chunk after the destructor |
| Fifo.FifoUpToReplay | gwback/src/main.cpp:64-84 | with ascending ids, first deliveries are exactly the first inserted messages, in order |
| Fifo.FifoRefinement | gwback/src/main.cpp:64-84 | with effective deletes also, chunks, buffer and remaining store are exactly the inserted messages in order |
| Fifo.FileRanges | gwback/src/consumer/consumer.cpp:21-33 | then names carry the true minimum and maximum, and successive files cover disjoint increasing ranges |
| Fifo.NamesAscendExactlyWhen | gwback/src/consumer/consumer.cpp:29-33 | increasing chunks list in order if and only if their least ids differ within 19 digits |
| Fifo.ListingIsDeliveryOrder | gwback/src/consumer/consumer.cpp:29-46 | files concatenated in listing order are the delivered payloads in insertion order |
| Savers.SaversCommuteExactlyWhen | gwback/src/consumer/consumer.cpp:35-46 | all interleavings of the opens and writes of two savers leave the same folder if and only if names differ or bytes are equal |
| Savers.SaverOrderIsIrrelevant | gwback/src/consumer/consumer.cpp:77-80 | without redelivery, runs that differ only in how the opens and writes of savers interleave end with the same files |
| Savers.AcknowledgedRunIsSettled | gwback/src/main.cpp:75-83 | if markConsumed never throws, every fetch finds all delivered messages deleted |
| Savers.ResentDeleteIsHarmless | gwback/src/producer/redis_producer.cpp:166-174 | a re-sent delete, with inserts in between, leaves the stream as if sent once |
| Chunks.AcceptAllKeeps | gwback/src/consumer/consumer.cpp:64-75 | the consumer's loop loses, repeats and reorders nothing and leaves full chunks |
| Chunks.FilledCounts | gwback/src/consumer/consumer.cpp:69-72 | buffer and chunk counts are remainder and quotient of the number delivered |
| Consumer.SaveMessages | gwback/src/consumer/consumer.cpp:14-49 | what a saver thread does among others is a schedule of opens and writes at the end of which it is done; it opens nothing if there is nothing to save or the open fails |
| Consumer.SavedAlone | gwback/src/consumer/consumer.cpp:29-46 | a saver with a file of its own leaves each payload as it was and a line feed, one after the other and nothing else, under the name of least and last id |
| Consumer.Bracket | gwback/src/consumer/consumer.cpp:21-27 | the loop yields the true minimum and the last id of any non-empty chunk |
| Consumer.WriteAll | gwback/src/consumer/consumer.cpp:42-46 | whatever pieces the stream forwards and whoever writes in between, all bytes of the chunk reach the file in order |
| Consumer.MessageConsumer.Consume | gwback/src/consumer/consumer.cpp:64-75 | buffer and spawned chunks are those of the specification; payloads are moved out, ids stay |
| Consumer.MessageConsumer.FlushBuffer | gwback/src/consumer/consumer.cpp:77-80 | the buffer moves into a new saver and is empty |
| Consumer.MessageConsumer.Destroy | gwback/src/consumer/consumer.cpp:59-62 | the rest is saved the same way, on its own thread, as the last saver |
| FileNames.NameInjective | gwback/src/consumer/consumer.cpp:29-33 | a name determines both ids, whatever their size |
| FileNames.NameText | gwback/src/consumer/consumer.cpp:29-33 | a name is decimal text of at least 19 digits with the value of the first id, a dash, and the same for the second, padded with zeros only up to 19 |
| FileNames.NameOrder | gwback/src/consumer/consumer.cpp:29-33 | names compare as (least, last) id pairs if and only if the deciding ids are comparable |
| FileNames.NamesMisorder | gwback/src/consumer/consumer.cpp:29-33 | two neighbouring ids whose names list the wrong way round |
| FileNames.FileHoldsPayload | gwback/src/consumer/consumer.cpp:42-46 | each payload stands in the bytes as it was, at the sum of the lengths before it and one byte for each; a line feed follows; nothing else is in the file |
| StreamIds.MessageIdFromText | gwback/src/producer/redis_producer.cpp:21-44 | the wrapping loops compute the packed word of the digit runs of any text, below 2^64 |
| StreamIds.AccumulateDigits | gwback/src/producer/redis_producer.cpp:31-34 | the loop stops at the end of the digits with their value modulo 2^64 |
| StreamIds.ParseOfPrint | gwback/src/producer/redis_producer.cpp:103-103 | the printed form of any 64-bit id parses back to it |
| StreamIds.PrintOfParse | gwback/src/producer/redis_producer.cpp:28-43 | a stream id text survives parsing and printing if and only if both halves fit the packing |
| StreamIds.PackOrder | gwback/src/producer/redis_producer.cpp:17-43 | in range, packed words order and identify stream ids |
| StreamIds.PackInRange | gwback/src/producer/redis_producer.cpp:43-43 | in range, packing is exact and can be undone |
| StreamIds.Layout | gwback/src/producer/redis_producer.cpp:18-43 | the packing in numbers: below 2^42 and 2^22, timestamp times 4194304 plus sequence number, printed with a dash |
| StreamIds.MistakenExactlyWhenOutOfRange | gwback/src/producer/redis_producer.cpp:43-43 | an id shares its word with a different id that fits if and only if it does not fit itself |
| RedisWire.MessagesFromReply | gwback/src/producer/redis_producer.cpp:69-94 | the loop decodes all entries in order, or throws what the first bad one throws |
| RedisWire.GoodEntriesDecode | gwback/src/producer/redis_producer.cpp:76-93 | if every entry is a pair of an id string and a field array, decoding succeeds and reads id and payload of each, in order |
| RedisWire.FirstBadEntryThrows | gwback/src/producer/redis_producer.cpp:79-87 | otherwise it throws, with the message for what is wrong with the first entry that is not |
| RedisWire.MessageDataFromReply | gwback/src/producer/redis_producer.cpp:46-67 | the value of the first pair that is named data and holds a string, nothing if there is none, an exception exactly if the fields are no array |
| RedisWire.XrangeRoundTrip | gwback/src/producer/redis_producer.cpp:69-94 | decoding the reply for a stretch of the stream gives its messages |
| RedisWire.StreamDecodesAscending | gwback/src/producer/redis_producer.cpp:76-93 | an ascending stream in range decodes to strictly ascending messages |
| RedisWire.MakeXdelCommand | gwback/src/producer/redis_producer.cpp:96-106 | the loop builds the command of the specification |
| RedisWire.XdelNamesBatch | gwback/src/producer/redis_producer.cpp:96-106 | the command, split into words, is XDEL, the stream, and the ids of the batch in order and no others |
| RedisWire.XdelReading | gwback/src/producer/redis_producer.cpp:161-167 | passed to redisCommand as a format without arguments, the text is an XDEL of the stream to the server |
| RedisCommands.XrangeReading | gwback/src/producer/redis_producer.cpp:126-129 | cut and filled by redisCommand, the format reaches the server as the words of an XRANGE of the stream from least to greatest id with this count |
| RedisCommands.XaddReading | gwfront/src/handler/redis_writer.cpp:41-45 | the format reaches the server as an XADD of one field with this payload, whatever bytes it holds |
| RedisCommands.AuthReading | gwfront/src/handler/redis_writer.cpp:166-169 | the format reaches the server as an AUTH of this user and password |
| RedisWire.XdelDeletesBatch | gwback/src/producer/redis_producer.cpp:96-106 | executing the text deletes exactly the batch on any stream in range |
| RedisWire.AcksAreExactExactlyWhenInRange | gwback/src/producer/redis_producer.cpp:96-106 | on a given stream the acknowledgement of every batch deletes that batch and nothing else if and only if all ids of the stream fit the packing |
| RedisWire.MisdirectedAck | gwback/src/producer/redis_producer.cpp:96-106 | the acknowledgement of an entry out of range keeps it and deletes the entry whose id its word is printed as |
| RedisProducer.Producer.GetConnection | gwback/src/producer/redis_producer.cpp:189-210 | returns the connection there is; otherwise opens exactly one context, which is kept even if authentication fails, or leaves none behind; others may act meanwhile |
| RedisProducer.Producer.Authenticate | gwback/src/producer/redis_producer.cpp:224-242 | one AUTH with the configured user and password; it succeeds exactly if that was answered without error; the connection stays set either way |
| RedisProducer.Producer.Reconnect | gwback/src/producer/redis_producer.cpp:212-222 | one redisReconnect, then authentication if it succeeded |
| RedisProducer.Producer.RunCommand | gwback/src/producer/redis_producer.hpp:28-33 | the reply is freed with its owner |
| RedisProducer.Producer.GetNext | gwback/src/producer/redis_producer.cpp:121-159 | opens a connection if there is none, sends XRANGE, and after an EOF or IO error reconnects and sends it once more; returns the lowest ids of the stream at that moment exactly if the last XRANGE was answered, and throws otherwise; only others change the stream |
| RedisProducer.Producer.MarkConsumed | gwback/src/producer/redis_producer.cpp:161-187 | opens a connection if there is none and sends the XDEL of this batch, and after an EOF, and only then, reconnects and sends it once more; returns normally exactly if the last sending was answered without error; with others acting before each command, every sending deletes all of the batch or nothing, and a lost answer leaves the command of unknown fate |
| RunLoop.RunLoop | gwback/src/main.cpp:60-86 | whatever connection, server, other clients and savers do, also inside the producer's calls, what happened is a run of the machine, stream, consumer and folder agree with its state, the loop called producer and consumer as in exactly `ticks` passes, and the consumer received exactly their batches in order |
| RunLoop.Turn | gwback/src/main.cpp:64-84 | one pass makes exactly one getNext; if that returned a batch, of at most the fetch size, one call of the consumer with it and one markConsumed of its ids, in this order, whose outcome is the acknowledgement of the run; otherwise nothing |
| RunLoop.CourseCoupled | gwback/src/producer/redis_producer.cpp:161-187 | every course of an acknowledgement is a stretch of a run that ends before the next fetch |
| RunLoop.Shutdown | gwback/src/main.cpp:119-122 | stopping and the destructor's save are a stretch of a run too; the rest of the buffer is then saved |
| RunLoop.LoopKeepsAll | gwback/src/main.cpp:60-86 | chunks and buffer hold everything no longer in the stream, and replays apart in insertion order |
| RunLoop.ShutdownKeepsAll | gwback/src/main.cpp:119-122 | after it and all savers, everything inserted is in the stream or on disk at its place, if savers of one file did not overlap, or fetches or chunks are of one message |
| PostgresProducer.MakeDeleteQuery | gwback/src/producer/postgres_producer.cpp:43-49 | the loop builds the statement of the specification for any non-empty batch; what that says to the server is the next row |
| PostgresProducer.QueryNamesIds | gwback/src/producer/postgres_producer.cpp:43-49 | the server reads the statement as a DELETE, and its list, read back as numbers, is the batch's ids in order |
| PostgresProducer.ListedIsRemove | gwback/src/producer/postgres_producer.cpp:44-51 | a row is listed if and only if its id is in the batch |
| PostgresProducer.DeleteDoes | gwback/src/producer/postgres_producer.cpp:43-51 | what the server does on reading the statement is to delete exactly the batch |
| PostgresProducer.SelectMeans | gwback/src/producer/postgres_producer.cpp:22-23 | the server reads the other statement as the lowest ids up to the limit |
| PostgresProducer.Producer.GetNext | gwback/src/producer/postgres_producer.cpp:17-36 | connects if there is no connection, begins and selects, up to the first of these that throws; returns the lowest visible rows exactly if none does; a broken connection throws for good |
| PostgresProducer.Producer.MarkConsumed | gwback/src/producer/postgres_producer.cpp:38-53 | connects if there is no connection, begins, executes the DELETE of this batch and commits, up to the first of these that throws, and returns normally exactly if none does; exactly the batch's rows or none are deleted; a throw that hides a deletion leaves the statement in doubt |
| PostgresLoop.RunLoop | gwback/src/main.cpp:60-86 | the same refinement with the PostgreSQL producer: rows appear with ids in any order, and transactions in doubt are committed, rolled back or committed later; the same calls of producer and consumer |
| PostgresLoop.Turn | gwback/src/main.cpp:64-84 | one pass with this producer, as above |
| PostgresLoop.FailedCoupled | gwback/src/producer/postgres_producer.cpp:38-53 | every end of a delete that did not return normally is a stretch of a run |
| PostgresLoop.Shutdown | gwback/src/main.cpp:119-122 | stopping and the destructor's save are a stretch of a run too |
| PostgresLoop.LoopKeepsAll | gwback/src/main.cpp:60-86 | chunks and buffer hold everything no longer in the table |
| PostgresLoop.ShutdownKeepsAll | gwback/src/main.cpp:119-122 | after it and all savers, everything inserted is in the table or on disk at its place, if the run kept to what loss-freedom takes |
| RedisWriter.Writer.Write | gwfront/src/handler/redis_writer.cpp:27-92 | finds or opens the thread's connection, sends the XADD of this payload on it, and after an EOF or IO error reconnects and sends it once more; success exactly if the last XADD was answered without error, unavailable if the connection, the reconnect or the last XADD failed with EOF or IO, generic otherwise, with the reason; at most two copies, two only after a reconnect, at least one on success; every reply freed once, every live context in one slot |
| RedisWriter.Writer.WriteOn | gwfront/src/handler/redis_writer.cpp:40-91 | the same after the connection is found |
| RedisWriter.TraceCounts | gwfront/src/handler/redis_writer.cpp:27-92 | what the finished program's calls imply for copies and result |
| RedisWriter.Writer.FindConnection | gwfront/src/handler/redis_writer.cpp:94-125 | the thread's own slot without any library call, or a new connection and slot; nothing leaks if it fails |
| RedisWriter.Writer.CreateConnection | gwfront/src/handler/redis_writer.cpp:127-151 | connect and AUTH; a failure frees what was created and says why |
| RedisWriter.Writer.Reconnect | gwfront/src/handler/redis_writer.cpp:153-162 | reconnects the given context only, authenticates and stays its handle, or says why not |
| RedisWriter.Writer.Authenticate | gwfront/src/handler/redis_writer.cpp:164-189 | one AUTH, successful exactly if answered without error; its reply is freed on every path |
| PostgresWriter.Writer.Write | gwfront/src/handler/postgres_writer.cpp:19-49 | at most three attempts, each of which connects if the thread has no connection, begins, inserts and commits, up to the first that throws; all but the last ended with a broken connection, and the last decides: success for a commit, unavailable for a third broken connection, generic for another exception; exactly one copy on success, none if unavailable, at most one otherwise |
| PostgresWriter.InsertMeans | gwfront/src/handler/postgres_writer.cpp:29-30 | the server reads the statement as an insert of this payload |
| PostgresWriter.Writer.FindConnection | gwfront/src/handler/postgres_writer.cpp:51-75 | the thread's own slot without any library call, or a new connection and slot; a failed construction adds nothing |
| Pool.ConnectionsAreExclusive | gwfront/src/handler/redis_writer.cpp:94-125 | under every interleaving one slot per thread, own live connection only, never shared |
| Pool.PoolOnlyGrows | gwfront/src/handler/postgres_writer.cpp:65-74 | slots are only appended and nothing handed out is freed |
| Pool.ConnectionIsForLife | gwfront/src/handler/postgres_writer.cpp:51-75 | a thread always gets the connection it got first |
| Http.AnswerKeepsFlag | gwfront/src/http/session.cpp:72-116 | the response carries the request's keep-alive flag in every version; 202 exactly if the handler was asked and succeeded |
| Http.AnswerIsDocumented | gwfront/src/http/session.cpp:72-116 | 405 for another method, 400 for another path or refused data, 202 with an empty body, 503 and 500 with the handler's message in the body; version and keep-alive flag of the request |
| Session.Handler.Handle | gwfront/src/handler/universal_handler.hpp:16-41 | refused data is never written; accepted data is written exactly once, by one call of the writer, whose result decides the outcome; success means checked and stored |
| Session.HttpSession.OnRead | gwfront/src/http/session.cpp:51-70 | a read request is handled and answered; any error closes |
| Session.HttpSession.HandleRequest | gwfront/src/http/session.cpp:72-116 | 405 for another method and 400 for another path, without asking the handler; otherwise the handler is asked once with the body, and the answer has the status and message of its outcome, 400 exactly for refused bodies |
| Session.HttpSession.OnWrite | gwfront/src/http/session.cpp:118-135 | reads on if and only if the answered request keeps the connection alive |
| Session.HttpSession.Live | gwfront/src/http/session.cpp:34-146 | at most one operation outstanding, answers in request order, nothing after close |
| FrontEnd.AcceptedMeansStored | gwfront/src/http/session.cpp:91-96 | in every interleaving of sessions, writer calls and executions, a 202 has its own stored, checked row, exactly one with PostgreSQL, where a 503 has none; answers in order with their request's flag |
| FrontEnd.StatusesAreAsDocumented | gwfront/src/http/session.cpp:72-116 | in all runs: 405 for another method, 400 for another path and exactly for refused data, otherwise 202 with an empty body, 500 or 503; the request's version |
| FrontEnd.WriterDecidesStatus | gwfront/src/handler/universal_handler.hpp:27-40 | in all runs: 202 for the writer's success, 503 for unavailable storage, 500 for its other error, the last two with its message |
| FrontEnd.CopiesAreBounded | gwfront/src/handler/redis_writer.cpp:40-63 | at any time, answered or not, at most two copies of a request in a Redis stream and one in a PostgreSQL table |
| FrontEnd.StoreHoldsOnlyChecked | gwfront/src/handler/universal_handler.hpp:18-25 | every payload ever stored was accepted by the checker and is the body of a received request |
| FrontEndRuns.RedisWriteIsRun | gwfront/src/handler/redis_writer.cpp:27-92 | whatever calls and copies the class's contract allows are a stretch of a run of the machine |
| FrontEndRuns.PostgresWriteIsRun | gwfront/src/handler/postgres_writer.cpp:19-49 | the same for the other writer |
| FrontEndRuns.UnavailableMeansNothingExactlyWhen | gwfront/src/handler/redis_writer.cpp:48-57 | if the checker accepts anything: in all runs a request answered with 503 has no copy, if and only if the store is PostgreSQL |
| FrontEndRuns.AcceptedMeansOnceExactlyWhen | gwfront/src/handler/redis_writer.cpp:48-63 | under the same condition: in all runs a request answered with 202 has exactly one copy, if and only if the store is PostgreSQL |
| FrontEndRuns.NeverStoredExactlyWhen | gwfront/src/http/session.cpp:91-96 | an answered request has no copy however the run goes on, if and only if no command of it was executed or is under way |
| FrontEndRuns.RedisNeverStoredExactlyWhen | gwfront/src/handler/redis_writer.cpp:40-91 | Redis, seen from the writer's calls: the answered request is never stored if and only if every XADD sent on a sound context was refused |
| FrontEndRuns.RedisUnavailableNeverStoredExactlyWhen | gwfront/src/handler/redis_writer.cpp:48-91 | a Redis request answered with 503 is never stored, however the run goes on, if and only if no XADD was sent for it on a sound context |
| FrontEndRuns.UnavailableYetStored | gwfront/src/handler/redis_writer.cpp:48-57 | a Redis request answered with 503 can be stored after the answer |
| FrontEndRuns.AcceptedAndStoredTwice | gwfront/src/handler/redis_writer.cpp:48-63 | two copies of an accepted request do occur |
| Gateway.AcceptedIsKept | gwback/src/main.cpp:60-86 | in every run of both processes over one store, a body answered with 202 was inserted, and is in the store, with the consumer, in a chunk being saved or on disk at its place, if the back end is loss-free |
| Gateway.AcceptedEndsOnDisk | gwback/src/main.cpp:119-122 | after the back end's shutdown and all savers, it is in the store or on disk at its place |
| Gateway.DeliveredWasPosted | gwfront/src/handler/universal_handler.hpp:18-25 | whatever the consumer is given is the body of a received POST that the checker accepts |
| Gateway.AcceptedIsKeptExactlyWhen | gwback/src/main.cpp:60-86 | for each configuration and environment: in all runs all accepted bodies are kept, if and only if the back end is loss-free |

## Left out

- File-open and write failures, thread-creation failure, and savers killed at process exit in `Delivery`: the code loses the chunk there; `Consumer.SaveMessages` states the failed open.
- Restarts of the back end over a folder that already holds files.
- RunLoop.Shutdown: takes it that the destructor can open its file.
- PostgresLoop.Shutdown: the same.
- RedisWriter.Writer.Write: is proved with stream and pool to itself; other threads and clients act between its calls in `FrontEnd`, of which its calls are a run, and in `Pool`.
- RedisWriter.Writer.WriteOn: the same.
- PostgresWriter.Writer.Write: the same.
- Session.Handler.Handle: is instantiated with the Redis writer, and no other thread acts during the call; `FrontEnd` covers both writers under all interleavings.
- Session.HttpSession.Live: one session whose handler has the store to itself; `FrontEnd` has many, and keeps rows that the back end deletes.
- FrontEnd.AcceptedMeansStored: takes a connection as found in any state; that threads do not share them is the subject of `Pool`.
- Gateway.AcceptedIsKeptExactlyWhen: that loss-freedom is needed takes a checker that accepts everything, since the losing runs need payloads of certain lengths; that it suffices, `Gateway.AcceptedIsKept`, holds for any checker.
- RedisWire.MessagesFromReply: requires field lists of even length, which is what XRANGE sends; the source reads past the end of an odd one.
- Boost.Asio and Beast, sockets, timeouts, HTTP parsing and `gwfront/src/http/server.cpp`: only the order of a session's callbacks is modelled.
- The texts of `errstr` and of libpqxx exceptions.
- hiredis and libpqxx on the wire, host resolution, signals, logging, command lines, sleeps, TOML parsing.
- The field lists of the JSON and FlatBuffers checkers: the checker is a parameter, and no result depends on which bodies it accepts except where its row says so.
- Splitting saved files back into messages: the format does not escape line feeds in payloads.
- Recovery of a broken PostgreSQL connection: the code never replaces it; only attempts and copies are bounded.
- `messages.size() - 1` of an empty batch in the PostgreSQL delete: the run loop never passes one, so it is a precondition.
