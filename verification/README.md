# SPL STOMP client and server

A Dafny model of an emergency-report system: a Java server that speaks STOMP
over a reactor with a thread pool, and a C++ client that joins channels, sends
reports and collects those of others.  The properties are about whole runs, all
interleavings and all inputs.

## The parts

- `Text`, `Decimal`: strings of octets, and decimal numerals.
- `Splitter`, `StompFrames`, `RoundTrips`: the line splitters, the two frame
  parsers and printers, and what each side reads of what the other prints.
- `FrameCodec`: the NUL-delimited codec with its growing array.
- `Reports`, `ReportPath`, `ReportReading`, `ReportTheorem`, `ReportDelivery`: the
  report body, its parser in terms of what lines say, and the way of a report
  from one keyboard to another client.
- `ActorPool`, `ReadPath`, `WritePath`, `SelectorThread`, `SelectorRounds`,
  `DeadSelector`: the actor thread pool, the read and write halves of the
  reactor, the rounds of its selector thread, and that thread's death.
- `ConnectionTables`, `ServerProtocol`, `ServerRuns`: the shared tables, one
  call of `process`, and runs of calls by any number of connections.
- `BroadcastHistory`, `LoginTables`, `SentFrames`, `ServerView`,
  `Shortcomings`: what holds over runs of the server.
- `OneCall`, `Leaving`: any call, as its own connection can tell, and what
  expulsion and DISCONNECT leave behind.
- `ClientSession`, `OwnRequests`, `SessionRuns`, `SessionInvariant`,
  `SessionTheorems`, `SessionCommands`, `SessionAgreement`, `SessionShortcomings`:
  the client, and one session of it with the server over two FIFO links while
  other connections do what they like.
- `Wording`: answers, requests and reports word for word.
- `Links`: these two links, down to the bytes of `ReadPath` and `WritePath`.

Code that works by changing fields is a class whose methods are proved against
functions of the old state.  The concurrent protocols are state machines whose
steps are the single statements on shared state: `ActorPool` (one step for each
synchronized block, and one for the garbage collector dropping an entry of the
weak map), `ReadPath` and `WritePath` (each queue operation, interest change,
wake-up, read and write).  `SelectorThread` ties code to machine: its methods
are the reactor's code and take only steps of `WritePath`.

Iteration orders of hash tables are parameters: the theorems hold for every
order.  Chunk sizes, partial writes, failing sockets and the scheduler are
free choices of the steps.  A frame of the server is kept as a value and printed
when its text matters, in any order of its headers.  In `ServerRuns`,
`BroadcastHistory` and `SessionRuns` a step that is not possible changes
nothing, so that every sequence of steps is a run.

## Where the code does not do what it says

The model follows the code.

- `disconnect` looks up the handler under the static counter, not under its
  parameter (ConnectionsImpl.java:44).  DISCONNECT and expulsion therefore cancel
  no subscription: `DisconnectCancelsNothing`, with a run in `Shortcomings`.
  What the lookup does find is the null key, while it iterates over the map.
- Subscription numbers are compared as boxed objects (line 75), so that
  UNSUBSCRIBE fails above 127: the exact condition is in `RequestIsServed`.
- `values().remove` gives up one login of a connection (line 39): see
  `DisconnectFreesLogins`, with a run in `Shortcomings`.
- A SUBSCRIBE of a connection that has been removed subscribes null, and nothing
  else does: `NullKeyAppearsIff`.  As long as this key is there each SEND to the
  channel throws a null pointer, `AllAreReachedIff`, as in the run
  `SendThrowsOverNull`.
- A CONNECT on a removed connection takes the login although nobody is told:
  `ConnectedIff`.
- Two ERROR branches send the frame twice (StompProtocolImpl.java:64-65, 169-170).
- A MESSAGE carries the sender's subscription number, and message ids are per
  sender (lines 187-188): `MessageSays`.
- `shouldTerminate` is recomputed for every frame, and the read task does not
  look at it; nothing is claimed about a RECEIPT being flushed before a close.
- For repeated headers the server keeps the last value and the client the first;
  section "Repeated Header Entries" of STOMP 1.2 asks for the first:
  `RepeatedHeaders`.
- An exception in `process` drops the rest of the chunk it came in, and the
  connection goes on with its next chunk.  A request may so be skipped, or torn
  so that its end is taken for a frame of its own.  `SessionRuns` keeps for every
  request what became of it.  `DisconnectIsLast` says when none was lost,
  `AgreementIff` when the two sides part over the client's subscriptions, and
  `FailsIff` when the client fails; a client whose SUBSCRIBE is lost, and one that
  fails over the answer to a torn report, are in `SessionShortcomings`.
- `isWritable` or `interestOps` on a cancelled key can throw on the selector
  thread where nothing catches it.  The thread dies, and no connection is served
  any more: `DeadIff`, `DeadForEver`, and the run `SelectorCanDie`.
- A report that cannot be read ends the client that reads it: `FailsIff`.  Which
  reports of a client do so is exact in `ReportIsReadAs`: a blank user, city or
  name, or a description that is blank or begins like a keyed line.  One without
  any description is read: the NUL behind the body stands in for it.
- An expulsion whose `disconnect` throws goes unnoticed: the channel is closed,
  the connection stays in the table and does not terminate: `ErrorExpels`.

## Assumptions

- One call of `process` is one step on the shared tables.  This is how a reactor
  with one pool thread behaves; with several, its check-then-act sequences are
  not atomic.
- Characters are octets.  Nothing is said about UTF-8 beyond that a zero octet
  only encodes U+0000 (section 3 of RFC 3629).
- Neither side escapes anything.  What the client sends is taken to hold no NUL,
  and no line end in a login, passcode or channel, as these are words from the
  keyboard: `Sendable`.  The fields of events come from JSON and might hold
  U+0000; a session reports only events without it (`Carried`), and
  `ReportIsOneFrameIff` shows that exactly these travel as one frame.
- What other connections send is arbitrary; only `MailIsRead` asks that their
  messages hold no NUL, which `FramesAreNulFree` shows of every decoder.
- A send that the client's socket refuses puts nothing on the link, and links
  deliver in order, as `ReadPath`, `WritePath` and `FrameCodec` show for the
  server's side.
- Connection, message and subscription numbers stay within int.

## Model

| member | source | states |
|---|---|---|
| `ActorPool.ActorThreadPool.Submit` | Skeleton/Skeleton/server/src/main/java/bgu/spl/net/srv/ActorThreadPool.java:28-37 | the act starts playing and its job goes to the executor, or, when it plays already, the job waits behind the others of that act |
| `ActorPool.ActorThreadPool.PendingRunnablesOf` | Skeleton/Skeleton/server/src/main/java/bgu/spl/net/srv/ActorThreadPool.java:43-55 | yields the waiting jobs of an act, making an empty queue when there is none |
| `ActorPool.ActorThreadPool.Execute` | Skeleton/Skeleton/server/src/main/java/bgu/spl/net/srv/ActorThreadPool.java:57-65 | appends one job for this act to the executor queue |
| `ActorPool.ActorThreadPool.Complete` | Skeleton/Skeleton/server/src/main/java/bgu/spl/net/srv/ActorThreadPool.java:67-76 | the next waiting job of the act goes to the executor, or the act stops playing |
| `ActorPool.PoolIsSafe` | Skeleton/Skeleton/server/src/main/java/bgu/spl/net/srv/ActorThreadPool.java:28-76 | every run, with garbage collection steps: finished, running, executor-queued and waiting tasks of an act are its submitted tasks in order; at most one is in flight, exactly one iff the act plays; only a playing act has waiting tasks |
| `ActorPool.CollectKeeps` | Skeleton/Skeleton/server/src/main/java/bgu/spl/net/srv/ActorThreadPool.java:16-23 | dropping the weak map entry of an act nobody refers to drops an empty queue and keeps the invariant |
| `ActorPool.WorkShrinks` | Skeleton/Skeleton/server/src/main/java/bgu/spl/net/srv/ActorThreadPool.java:57-76 | every start and every completion lowers the work measure by one |
| `ActorPool.RunsAreBounded` | Skeleton/Skeleton/server/src/main/java/bgu/spl/net/srv/ActorThreadPool.java:28-76 | once submissions stop, starts and completions plus the work left equal the work at the beginning, whatever the collector does |
| `ActorPool.QuiescentIsDone` | Skeleton/Skeleton/server/src/main/java/bgu/spl/net/srv/ActorThreadPool.java:28-76 | when neither a start nor a completion is possible, every submitted task has run in order and no act plays |
| `ActorPool.JobsAheadAreFew` | Skeleton/Skeleton/server/src/main/java/bgu/spl/net/srv/ActorThreadPool.java:57-76 | a job in the executor queue has ahead of it at most one job of each other playing act, all of different acts |
| `ActorPool.StartsInOrder` | Skeleton/Skeleton/server/src/main/java/bgu/spl/net/srv/ActorThreadPool.java:57-65 | in any run from any state a job with i jobs ahead in the executor queue is the one that start number i + 1 takes: nothing overtakes it |
| `ReadPath.FramesInOrder` | Skeleton/Skeleton/server/src/main/java/bgu/spl/net/srv/NonBlockingConnectionHandler.java:47-79 | every interleaving of selector and pool threads: the frames handed to process are those of the bytes given to the decoder; these are the bytes read, in order, however chunked, without the rests of chunks in which process threw, each behind a frame; so without an exception the frames are a prefix of the frames of all bytes read, and all of them once the act is idle |
| `ReadPath.BuffersAreConserved` | Skeleton/Skeleton/server/src/main/java/bgu/spl/net/srv/NonBlockingConnectionHandler.java:47-79 | each allocated buffer is in the pool once, or with the selector, or held by exactly one unfinished read; two reads never share one |
| `ReadPath.BuffersComeBack` | Skeleton/Skeleton/server/src/main/java/bgu/spl/net/srv/NonBlockingConnectionHandler.java:111-123 | with no read under way every buffer ever allocated is in the pool exactly once |
| `ReadPath.BuffersAreReused` | Skeleton/Skeleton/server/src/main/java/bgu/spl/net/srv/NonBlockingConnectionHandler.java:111-123 | any run: a buffer is allocated only at a lease at which the pool is empty and a read holds each of the others |
| `ReadPath.ThrowDropsTheRest` | Skeleton/Skeleton/server/src/main/java/bgu/spl/net/srv/NonBlockingConnectionHandler.java:59-72 | an exception in process drops exactly the unread rest of its chunk: these bytes count as dropped, and in no continuation is a byte of that read decoded |
| `ReadPath.ReceivedIsRead` | Skeleton/Skeleton/server/src/main/java/bgu/spl/net/srv/NonBlockingConnectionHandler.java:52-58 | any run: the bytes received on a connection are the chunks read for it, in order |
| `WritePath.NoLostWakeUp` | Skeleton/Skeleton/server/src/main/java/bgu/spl/net/srv/NonBlockingConnectionHandler.java:89-138 | every interleaving of senders and selector: an open connection with queued output is watched for writing, or a request for that is queued or being run, or its sender has not asked yet; also between seeing an empty queue and stopping to watch |
| `WritePath.NeverSleepsOnWork` | Skeleton/Skeleton/server/src/main/java/bgu/spl/net/srv/Reactor.java:51-96 | with a selector task queued, the selector at select or among its keys has a wake-up pending, or the adder is about to call wakeup |
| `WritePath.NoStall` | Skeleton/Skeleton/server/src/main/java/bgu/spl/net/srv/Reactor.java:51-139 | when the selector sleeps, no wake-up is pending and nobody is inside send, no task is queued and every open connection with output is watched |
| `WritePath.OutputIsConserved` | Skeleton/Skeleton/server/src/main/java/bgu/spl/net/srv/NonBlockingConnectionHandler.java:89-138 | without I/O errors, bytes written plus bytes left in the queued buffers are the encodings of all messages in enqueue order, and the peer has decoded a prefix of them |
| `WritePath.RemovesWhatItWrote` | Skeleton/Skeleton/server/src/main/java/bgu/spl/net/srv/NonBlockingConnectionHandler.java:90-98 | whenever the loop decides about removing the head of the queue, that head is the buffer it peeked at and wrote |
| `SelectorThread.Reactor.Send` | Skeleton/Skeleton/server/src/main/java/bgu/spl/net/srv/NonBlockingConnectionHandler.java:126-138 | run in one go, send takes steps of the write-path machine only: the encoded message is queued last, and for an open connection, and no other, a request and a wake-up follow |
| `SelectorThread.Reactor.RunSelectionThreadTasks` | Skeleton/Skeleton/server/src/main/java/bgu/spl/net/srv/Reactor.java:131-139 | takes steps of the machine only; all requests are consumed and exactly the open connections among them are watched for writing |
| `SelectorThread.Reactor.ContinueWrite` | Skeleton/Skeleton/server/src/main/java/bgu/spl/net/srv/NonBlockingConnectionHandler.java:89-109 | for any sequence of whole, partial or failing writes, takes steps of the machine only; the first k buffers are taken whole and leave the queue, their bytes go out in order, and a further write, if the queue is not done, takes only a part, which alone goes out, or fails and closes; other connections are untouched; interest ends, or the channel is closed, exactly at an empty queue, and the thread dies exactly over a cancelled key there |
| `SelectorRounds.EveryKeyHasItsTurn` | Skeleton/Skeleton/server/src/main/java/bgu/spl/net/srv/Reactor.java:56-70 | between two selections in which the selector thread does not die every selected key has one turn, in order; a key found valid is dealt with, any other is passed over |
| `SelectorRounds.TurnsAway` | Skeleton/Skeleton/server/src/main/java/bgu/spl/net/srv/NonBlockingConnectionHandler.java:89-109 | the selector thread turns away from a connection only when it is closed, when a buffer was not taken whole, when a message came in behind the loop, or when it stops watching an empty queue |
| `DeadSelector.DeadIff` | Skeleton/Skeleton/server/src/main/java/bgu/spl/net/srv/Reactor.java:56-65 | after a run the selector thread is dead exactly when some turn met a cancelled key in isWritable, or in interestOps behind the writing loop |
| `DeadSelector.WasValid` | Skeleton/Skeleton/server/src/main/java/bgu/spl/net/srv/Reactor.java:58-65 | whatever connection the selector thread deals with was found valid before, so that such a key was cancelled since |
| `DeadSelector.DeadForEver` | Skeleton/Skeleton/server/src/main/java/bgu/spl/net/srv/Reactor.java:126-128 | after that, in every continuation and for every connection no byte is written, no buffer leaves its queue, no request is run and no interest changes |
| `DeadSelector.SelectorCanDie` | Skeleton/Skeleton/server/src/main/java/bgu/spl/net/srv/Reactor.java:114-128 | a run from the beginning into that state |
| `FrameCodec.FrameEncoderDecoder.DecodeNextByte` | Skeleton/Skeleton/server/src/main/java/bgu/spl/net/impl/stomp/FrameEncoderDecoder.java:14-22 | returns a frame on NUL and otherwise extends the bytes collected; the array never exceeds the larger of 1024 and twice the longest frame, and all copying moved capacity minus 1024 bytes |
| `FrameCodec.FrameEncoderDecoder.PushByte` | Skeleton/Skeleton/server/src/main/java/bgu/spl/net/impl/stomp/FrameEncoderDecoder.java:29-35 | appends one byte, doubling the array when it is full, and keeps both bounds |
| `FrameCodec.FrameEncoderDecoder.PopString` | Skeleton/Skeleton/server/src/main/java/bgu/spl/net/impl/stomp/FrameEncoderDecoder.java:37-43 | yields exactly the collected bytes, none of the stale ones, and empties the decoder |
| `FrameCodec.FrameEncoderDecoder.Feed` | Skeleton/Skeleton/server/src/main/java/bgu/spl/net/srv/NonBlockingConnectionHandler.java:62-68 | feeding a chunk byte by byte yields the frames, and leaves the tail, that decoding the whole text gives |
| `FrameCodec.DecodeInvertsEncode` | Skeleton/Skeleton/server/src/main/java/bgu/spl/net/impl/stomp/FrameEncoderDecoder.java:14-43 | decoding the encodings of any NUL-free messages gives back those messages and the tail behind them |
| `FrameCodec.EncodeInvertsDecode` | Skeleton/Skeleton/server/src/main/java/bgu/spl/net/impl/stomp/FrameEncoderDecoder.java:14-43 | any byte stream is the encoding of its frames followed by its unfinished tail |
| `FrameCodec.GetFrameAscii` | Skeleton/Skeleton/client/src/ConnectionHandler.cpp:80-98 | reads up to and including the first NUL and keeps it; fails exactly when the stream has none |
| `FrameCodec.FirstFrame` | Skeleton/Skeleton/client/src/ConnectionHandler.cpp:80-104 | what the client reads as one frame is the first frame of the stream |
| `Splitter.Split` | Skeleton/Skeleton/client/src/StompFrame.cpp:9-42 | the nested loops of both StompFrame classes compute the token list of the text |
| `Splitter.ProtocolSplit` | Skeleton/Skeleton/client/src/StompProtocol.cpp:102-130 | the nested loops compute the non-empty pieces between delimiters |
| `Splitter.TokensSpellNorm` | Skeleton/Skeleton/server/src/main/java/bgu/spl/net/impl/stomp/StompFrame.java:54-85 | the tokens spell out the text without leading newlines and with newline runs cut to two |
| `Splitter.NormIsNormal` | Skeleton/Skeleton/server/src/main/java/bgu/spl/net/impl/stomp/StompFrame.java:54-85 | that form has no leading newline and no three in a row, keeps every other character in order, and is the text itself exactly when the text was so already |
| `Splitter.TokenShapes` | Skeleton/Skeleton/server/src/main/java/bgu/spl/net/impl/stomp/StompFrame.java:54-85 | no text token is empty or holds a newline, and a text comes first |
| `Splitter.SplitIsStable` | Skeleton/Skeleton/server/src/main/java/bgu/spl/net/impl/stomp/StompFrame.java:54-85 | splitting the spelled-out tokens gives the same tokens |
| `Splitter.FieldsAreTexts` | Skeleton/Skeleton/client/src/StompProtocol.cpp:102-130 | StompProtocol::split is the token list without its separators |
| `StompFrames.JavaStompFrame` | Skeleton/Skeleton/server/src/main/java/bgu/spl/net/impl/stomp/StompFrame.java:14-47 | the constructor computes the parse, including its two exceptions |
| `StompFrames.CppStompFrame` | Skeleton/Skeleton/client/src/StompFrame.cpp:44-73 | the constructor computes the parse, including out-of-range accesses |
| `StompFrames.JavaParseMeans` | Skeleton/Skeleton/server/src/main/java/bgu/spl/net/impl/stomp/StompFrame.java:14-47 | the text is cut at its first blank line with something behind it; header lines before it, last value wins; fails exactly on an empty text or a header line without colon |
| `StompFrames.CppParseMeans` | Skeleton/Skeleton/client/src/StompFrame.cpp:44-73 | cut at the same place, first value wins; fails exactly on an empty text or one that ends in a line end before any body |
| `StompFrames.CutAtColon` | Skeleton/Skeleton/server/src/main/java/bgu/spl/net/impl/stomp/StompFrame.java:30-33 | key and value are the two sides of the first colon, and both the whole line without one |
| `StompFrames.JavaCreateFrame` | Skeleton/Skeleton/server/src/main/java/bgu/spl/net/impl/stomp/StompFrame.java:87-97 | prints command, header lines, a blank line and the body |
| `StompFrames.CppCreateFrame` | Skeleton/Skeleton/client/src/StompFrame.cpp:79-96 | prints the same with one more blank line |
| `RoundTrips.ClientToServer` | Skeleton/Skeleton/server/src/main/java/bgu/spl/net/impl/stomp/StompFrame.java:14-85 | what the client prints, the server parses to the same command and headers, in any header order, and the body in normal form |
| `RoundTrips.ServerToClient` | Skeleton/Skeleton/client/src/StompFrame.cpp:44-73 | what the server prints, with its NUL, the client parses to the same command and headers, and the body in normal form followed by NUL |
| `RoundTrips.NulKeepsCppInRange` | Skeleton/Skeleton/client/src/StompFrame.cpp:50-62 | on any text that ends in NUL the client constructor never indexes out of range |
| `RoundTrips.RepeatedHeaders` | Skeleton/Skeleton/server/src/main/java/bgu/spl/net/impl/stomp/StompFrame.java:28-34 | the two header tables have the same keys, and are equal exactly when for every key its first and its last line carry the same value |
| `RoundTrips.RepeatedHeaderExample` | Skeleton/Skeleton/client/src/StompFrame.cpp:56-61 | two header lines on which they differ |
| `RoundTrips.ParsersAgree` | Skeleton/Skeleton/client/src/StompFrame.cpp:44-73 | a text both parsers accept gives both the same command, body and header keys |
| `RoundTrips.JavaReadsAny` | Skeleton/Skeleton/server/src/main/java/bgu/spl/net/impl/stomp/StompFrame.java:14-47 | any text: the cut is the first double line end with something behind it; an exception iff the text has no token or some line in front of the cut has no colon; otherwise the table has the keys of these lines, each with the value of its last line, and the body is what the rest spells |
| `RoundTrips.CppReadsAny` | Skeleton/Skeleton/client/src/StompFrame.cpp:44-73 | any text: the same cut; out of range iff there is no token or no cut and a line end last; otherwise each key has the value of its first line |
| `Decimal.ReadBack` | Skeleton/Skeleton/client/src/StompProtocol.cpp:190 | std::stoi and Integer.parseInt both invert the decimal printing of every int |
| `Decimal.ParseIntIff` | Skeleton/Skeleton/server/src/main/java/bgu/spl/net/impl/stomp/StompProtocolImpl.java:94-131 | Integer.parseInt yields n iff the text is an optional sign and digits that spell n, and n is an int; it has one kind of failure |
| `Decimal.StoiIff` | Skeleton/Skeleton/client/src/StompProtocol.cpp:189-195 | std::stoi yields n iff blanks, an optional sign and digits that spell n lead the text, up to something that is no digit, and n is an int; no such number and one beyond int are told apart |
| `Reports.PrintReport` | Skeleton/Skeleton/client/src/StompProtocol.cpp:312-329 | the body of a report is its nine lines; nothing for an event without one of the two general fields |
| `Reports.ParseEventReport` | Skeleton/Skeleton/client/src/StompProtocol.cpp:132-199 | the loop over the lines and the tests behind it compute the reading that `ReportIsRead` characterises |
| `Reports.OnMessage` | Skeleton/Skeleton/client/src/StompProtocol.cpp:70-96 | the MESSAGE branch takes the last destination line as channel and parses the body |
| `ReportReading.TrimIs` | Skeleton/Skeleton/client/src/StompProtocol.cpp:143-145 | a line is trimmed of the blanks in front and behind, and of nothing else |
| `ReportReading.ReportIsRead` | Skeleton/Skeleton/client/src/StompProtocol.cpp:132-199 | any body: with user, city, name, time, active and forces what the last trimmed line of that key says, and description the last line without a key right behind a line "description:", or nothing: MissingFields iff one of the first four or the description is empty; else InvalidTime or TimeOutOfRange, iff the time is no number or none of int; else the event with just these fields; what the lines say is unique |
| `ReportReading.MessageIsRead` | Skeleton/Skeleton/client/src/StompProtocol.cpp:70-96 | any text: unreadable iff the frame is; the channel is what the last line "destination:" of the whole text says, and without one the body is not read; otherwise the body is read as above |
| `ReportTheorem.ReportSurvives` | Skeleton/Skeleton/client/src/StompProtocol.cpp:132-330 | fields without line ends and NULs: printed, sent, parsed, sent on and parsed again, a report comes back unchanged if and only if its fields are clean: no outer blanks, required fields present, a description that does not look like a line of the format |
| `ReportTheorem.ReportIsReadAs` | Skeleton/Skeleton/client/src/StompProtocol.cpp:132-330 | what becomes of any report with such fields: no destination, iff its description is "destination:" alone or the channel is empty; else the end of the reader, iff user, city or name is blank, or the description is blank or begins like a keyed line once trimmed; else the event without blanks at the ends of its fields, with NUL for a missing description |
| `ReportDelivery.ReportIsDelivered` | Skeleton/Skeleton/server/src/main/java/bgu/spl/net/impl/stomp/StompProtocolImpl.java:160-195 | in the running server, a subscriber's report, of fields without line ends and NULs, adds one message to the stream of each connection reached, and that client reads the very report from it iff it is clean |
| `ConnectionTables.ConnectionsImpl.Send` | Skeleton/Skeleton/server/src/main/java/bgu/spl/net/srv/ConnectionsImpl.java:26-29 | one message for one connection, or a null pointer |
| `ConnectionTables.ConnectionsImpl.SendToChannel` | Skeleton/Skeleton/server/src/main/java/bgu/spl/net/srv/ConnectionsImpl.java:31-36 | one message for each subscriber in iteration order, up to a null key |
| `ConnectionTables.ConnectionsImpl.Disconnect` | Skeleton/Skeleton/server/src/main/java/bgu/spl/net/srv/ConnectionsImpl.java:38-50 | removes one login of the connection, and the subscriptions of whatever handler the counter names, with the iterator failing after a removal that is not the last |
| `ConnectionTables.ConnectionsImpl.AddChannelSubscription` | Skeleton/Skeleton/server/src/main/java/bgu/spl/net/srv/ConnectionsImpl.java:56-70 | adds a subscription unless the handler has one on that channel |
| `ConnectionTables.ConnectionsImpl.RemoveChannelSubscription` | Skeleton/Skeleton/server/src/main/java/bgu/spl/net/srv/ConnectionsImpl.java:72-82 | removes the first subscription of the handler whose boxed number is the same object |
| `ConnectionTables.ConnectionsImpl.ConnectUser` | Skeleton/Skeleton/server/src/main/java/bgu/spl/net/srv/ConnectionsImpl.java:99-114 | registers a new login, or checks the passcode, and logs in |
| `ConnectionTables.ConnectionsImpl.GetUserSubID` | Skeleton/Skeleton/server/src/main/java/bgu/spl/net/srv/ConnectionsImpl.java:116-126 | the subscription number on a channel, or -1 |
| `ServerProtocol.StompProtocolImpl.Process` | Skeleton/Skeleton/server/src/main/java/bgu/spl/net/impl/stomp/StompProtocolImpl.java:25-198 | one call: parse, then the branch of the command, with every exception that can leave it |
| `ServerProtocol.StompProtocolImpl.Start` | Skeleton/Skeleton/server/src/main/java/bgu/spl/net/impl/stomp/StompProtocolImpl.java:20-23 | sets the connection number and the tables |
| `ServerProtocol.StompProtocolImpl.ProcessConnect` | Skeleton/Skeleton/server/src/main/java/bgu/spl/net/impl/stomp/StompProtocolImpl.java:28-79 | login, refusal of a held login, and refusal of a wrong passcode with its doubled ERROR |
| `ServerProtocol.StompProtocolImpl.ProcessDisconnect` | Skeleton/Skeleton/server/src/main/java/bgu/spl/net/impl/stomp/StompProtocolImpl.java:80-89 | RECEIPT first, then disconnect |
| `ServerProtocol.StompProtocolImpl.ProcessUnsubscribe` | Skeleton/Skeleton/server/src/main/java/bgu/spl/net/impl/stomp/StompProtocolImpl.java:90-124 | RECEIPT, or ERROR and expulsion |
| `ServerProtocol.StompProtocolImpl.ProcessSubscribe` | Skeleton/Skeleton/server/src/main/java/bgu/spl/net/impl/stomp/StompProtocolImpl.java:125-159 | RECEIPT, or ERROR and expulsion |
| `ServerProtocol.StompProtocolImpl.ProcessSend` | Skeleton/Skeleton/server/src/main/java/bgu/spl/net/impl/stomp/StompProtocolImpl.java:160-197 | broadcast with the sender's subscription number and message count, or a doubled ERROR and expulsion |
| `ServerProtocol.StompProtocolImpl.Expel` | Skeleton/Skeleton/server/src/main/java/bgu/spl/net/impl/stomp/StompProtocolImpl.java:40-49 | close, disconnect and remove; a failure in disconnect leaves the connection in the table; what that means is in `ErrorExpels` |
| `ServerRuns.RunKeeps` | Skeleton/Skeleton/server/src/main/java/bgu/spl/net/srv/Reactor.java:99-112 | in every run each stored handler is stored under its own number, subscriptions belong to counted connections or to null, and logins to registered users and counted connections |
| `ServerRuns.BroadcastReaches` | Skeleton/Skeleton/server/src/main/java/bgu/spl/net/srv/ConnectionsImpl.java:31-36 | a broadcast reaches the keys before the first null key, and throws iff there is one |
| `ServerRuns.UnsubscribedMeans` | Skeleton/Skeleton/server/src/main/java/bgu/spl/net/srv/ConnectionsImpl.java:72-82 | a subscription is removed iff some channel holds this handler under the same box, and then exactly one is |
| `ServerRuns.DisconnectedMeans` | Skeleton/Skeleton/server/src/main/java/bgu/spl/net/srv/ConnectionsImpl.java:38-50 | only subscriptions of the handler found under the counter go; without any, disconnect only logs out and returns normally |
| `ServerRuns.DisconnectedFails` | Skeleton/Skeleton/server/src/main/java/bgu/spl/net/srv/ConnectionsImpl.java:41-49 | disconnect throws exactly when some channel iterates the handler found under the counter before its last key |
| `ServerRuns.DisconnectedExactly` | Skeleton/Skeleton/server/src/main/java/bgu/spl/net/srv/ConnectionsImpl.java:38-50 | the first login in iteration order that the connection holds goes, if any; the handler under the counter goes from exactly the channels up to the first on which the iterator fails |
| `BroadcastHistory.HistoryOfBroadcasts` | Skeleton/Skeleton/server/src/main/java/bgu/spl/net/impl/stomp/StompProtocolImpl.java:160-195 | any run: the MESSAGE frames given to a connection for a channel are those of exactly the accepted SENDs that reach it, each once, in processing order |
| `BroadcastHistory.AllAreReachedIff` | Skeleton/Skeleton/server/src/main/java/bgu/spl/net/srv/ConnectionsImpl.java:31-36 | an accepted SEND returns normally iff its channel has no null key, and reaches every subscriber iff a null key is missing or iterated last |
| `BroadcastHistory.NullKeyAppearsIff` | Skeleton/Skeleton/server/src/main/java/bgu/spl/net/impl/stomp/StompProtocolImpl.java:125-148 | a step gives a channel without a null key one iff it is a well-formed SUBSCRIBE to it by a connection that has been removed |
| `BroadcastHistory.EverySubscriberHears` | Skeleton/Skeleton/server/src/main/java/bgu/spl/net/srv/ConnectionsImpl.java:31-36 | any run in which no removed connection subscribes: an accepted SEND finds its channel, returns normally and reaches exactly the subscribers |
| `BroadcastHistory.MessageSays` | Skeleton/Skeleton/server/src/main/java/bgu/spl/net/impl/stomp/StompProtocolImpl.java:184-190 | a message carries the channel and body as sent, the sender's subscription number, and the count of messages it had sent |
| `BroadcastHistory.MessageIdsCount` | Skeleton/Skeleton/server/src/main/java/bgu/spl/net/impl/stomp/StompProtocolImpl.java:188-192 | the next message id of a connection is the number of its accepted SENDs |
| `BroadcastHistory.SubscribersAgree` | Skeleton/Skeleton/server/src/main/java/bgu/spl/net/srv/ConnectionsImpl.java:31-36 | two subscribers see the messages they share in the same order |
| `LoginTables.PasscodesNeverChange` | Skeleton/Skeleton/server/src/main/java/bgu/spl/net/srv/ConnectionsImpl.java:88-114 | any run: a registered login keeps its passcode |
| `LoginTables.HoldersAreRegistered` | Skeleton/Skeleton/server/src/main/java/bgu/spl/net/srv/ConnectionsImpl.java:99-114 | any run: who is logged in is registered, by an accepted connection |
| `LoginTables.ConnectedIff` | Skeleton/Skeleton/server/src/main/java/bgu/spl/net/impl/stomp/StompProtocolImpl.java:28-79 | CONNECTED is sent iff the login is free, its passcode new or matching, and the connection not removed; the tables change exactly then; otherwise ERROR, or a null pointer |
| `LoginTables.OnlyTheHolderLetsGo` | Skeleton/Skeleton/server/src/main/java/bgu/spl/net/srv/ConnectionsImpl.java:38-39 | a login leaves its holder only in a step of that connection, and nobody takes it over |
| `LoginTables.DisconnectFreesLogins` | Skeleton/Skeleton/server/src/main/java/bgu/spl/net/srv/ConnectionsImpl.java:38-39 | DISCONNECT frees all logins of the connection iff it holds at most one |
| `LoginTables.DisconnectCancelsNothing` | Skeleton/Skeleton/server/src/main/java/bgu/spl/net/srv/ConnectionsImpl.java:41-49 | DISCONNECT keeps every subscription of the connection, so that none is left iff there was none |
| `OneCall.CallGives` | Skeleton/Skeleton/server/src/main/java/bgu/spl/net/impl/stomp/StompProtocolImpl.java:25-198 | any text on any connection, there or removed, in any reachable state: the subscriptions after the call, the answers in order, and whether it throws, as a function of the tables before; a connection leaves the table only with an ERROR |
| `OneCall.UpsetIff` | Skeleton/Skeleton/server/src/main/java/bgu/spl/net/impl/stomp/StompProtocolImpl.java:25-198 | such a text gets an ERROR exactly when its connection is there and it is a CONNECT for a held login or with a wrong passcode, an UNSUBSCRIBE under a number of no small box, a SUBSCRIBE to a channel subscribed already, or a SEND to one that is not |
| `Wording.CallSays` | Skeleton/Skeleton/server/src/main/java/bgu/spl/net/impl/stomp/StompProtocolImpl.java:25-198 | any text in any reachable state: the frames it is answered with, by command, header table and body, each spelled out |
| `Wording.OneHeaderText` | Skeleton/Skeleton/server/src/main/java/bgu/spl/net/impl/stomp/StompFrame.java:87-97 | the text of an answer with one header |
| `Leaving.ErrorExpels` | Skeleton/Skeleton/server/src/main/java/bgu/spl/net/impl/stomp/StompProtocolImpl.java:40-49 | any reachable state: whoever gets an ERROR in its own step is closed and gives up one login, and the handler under the counter goes from the channels up to the first that fails; iff some channel iterates that handler before its last key, the connection stays in the table and does not terminate; no exception leaves the call |
| `Leaving.ErrorFreesLogins` | Skeleton/Skeleton/server/src/main/java/bgu/spl/net/srv/ConnectionsImpl.java:38-39 | after such a step the connection holds no login iff it held at most one |
| `Leaving.LoginComesFree` | Skeleton/Skeleton/server/src/main/java/bgu/spl/net/impl/stomp/StompProtocolImpl.java:28-79 | a login that was its only one is then given to anyone who asks with its passcode |
| `Leaving.ExpelledLoginIsTaken` | Skeleton/Skeleton/server/src/main/java/bgu/spl/net/impl/stomp/StompProtocolImpl.java:160-182 | a run from an empty server: a client takes a login, sends to a channel it has not joined and is expelled; another takes the login |
| `Leaving.DisconnectDeparts` | Skeleton/Skeleton/server/src/main/java/bgu/spl/net/impl/stomp/StompProtocolImpl.java:80-89 | DISCONNECT does the same work of disconnect, closes nothing, removes nothing and terminates; it throws iff the iterator fails |
| `Leaving.OthersStay` | Skeleton/Skeleton/server/src/main/java/bgu/spl/net/impl/stomp/StompProtocolImpl.java:25-198 | no other step closes a channel or removes a connection, none but CONNECT changes logins, and none but a DISCONNECT frame terminates |
| `Shortcomings.SubscriptionOutlivesDisconnect` | Skeleton/Skeleton/server/src/main/java/bgu/spl/net/impl/stomp/StompProtocolImpl.java:88 | a run from an empty server in which a client subscribes, disconnects and is still subscribed |
| `Shortcomings.LoginOutlivesDisconnect` | Skeleton/Skeleton/server/src/main/java/bgu/spl/net/srv/ConnectionsImpl.java:38-39 | a run from an empty server in which a client takes two logins, disconnects and still holds one |
| `Shortcomings.UnsubscribingEndsAt127` | Skeleton/Skeleton/server/src/main/java/bgu/spl/net/srv/ConnectionsImpl.java:75 | runs from an empty server, one for each number: a client subscribes and unsubscribes; the answer is ERROR iff the number is above 127, and otherwise RECEIPT, and the subscription is gone |
| `Shortcomings.StrangerLeavesNull` | Skeleton/Skeleton/server/src/main/java/bgu/spl/net/impl/stomp/StompProtocolImpl.java:125-172 | from every state without null keys, a new client that sends to a channel it has not joined and then subscribes leaves a null key on any channel it likes |
| `Shortcomings.SendThrowsOverNull` | Skeleton/Skeleton/server/src/main/java/bgu/spl/net/srv/ConnectionsImpl.java:31-36 | a run from an empty server in which a live subscriber sends on its channel, the SEND is accepted, and the call throws |
| `SentFrames.ParsedIsPlain` | Skeleton/Skeleton/server/src/main/java/bgu/spl/net/impl/stomp/StompFrame.java:28-34 | headers that were parsed can be printed again |
| `SentFrames.EveryFrameIsReadBack` | Skeleton/Skeleton/server/src/main/java/bgu/spl/net/impl/stomp/StompFrame.java:87-97 | any run, whatever clients send: the text of every frame the server sends is read back by the client |
| `SentFrames.RunNulFree` | Skeleton/Skeleton/server/src/main/java/bgu/spl/net/impl/stomp/StompFrame.java:87-97 | any run: if no message that is processed holds a NUL, no frame that is sent does |
| `ServerView.OthersAreAloof` | Skeleton/Skeleton/server/src/main/java/bgu/spl/net/srv/ConnectionsImpl.java:31-82 | a step of another connection leaves this one's subscriptions alone and sends it nothing but messages to channels it is subscribed to |
| `ServerView.NewcomersAreFresh` | Skeleton/Skeleton/server/src/main/java/bgu/spl/net/srv/Reactor.java:99-112 | a connection not accepted yet has no subscription and has been sent nothing |
| `ClientSession.ConnectionHandler.ProduceReceipt` | Skeleton/Skeleton/client/src/ConnectionHandler.cpp:155-160 | returns the next number and files the command under it |
| `ClientSession.StompProtocol.Join` | Skeleton/Skeleton/client/src/StompProtocol.cpp:221-256 | a SUBSCRIBE with the next id and receipt goes out and is recorded, unless joined or not taken by the socket; a receipt number is used up in any case |
| `ClientSession.StompProtocol.Exit` | Skeleton/Skeleton/client/src/StompProtocol.cpp:257-292 | exit runs the command that `ExitDoes` characterises, on the fields and on the wire |
| `ClientSession.StompProtocol.Report` | Skeleton/Skeleton/client/src/StompProtocol.cpp:293-361 | the loop over the events sends what `ReportDoes` characterises |
| `ClientSession.StompProtocol.Logout` | Skeleton/Skeleton/client/src/StompProtocol.cpp:390-404 | a DISCONNECT with the next receipt goes out and the keyboard is closed |
| `ClientSession.StompProtocol.OnAnswer` | Skeleton/Skeleton/client/src/StompProtocol.cpp:33-100 | one round of the reading thread: flags as in `HandleDoes`, a RECEIPT nobody filed runs behind the end of the table, and a MESSAGE whose report cannot be read throws |
| `Wording.OneTextEach` | Skeleton/Skeleton/client/src/StompProtocol.cpp:239-242 | what a command puts on the wire is one text for each of its requests, in order |
| `Wording.ConnectText` | Skeleton/Skeleton/client/src/StompClient.cpp:37-44 | the text of CONNECT |
| `Wording.SubscribeText` | Skeleton/Skeleton/client/src/StompProtocol.cpp:233-239 | the text of SUBSCRIBE, letter by letter |
| `Wording.UnsubscribeText` | Skeleton/Skeleton/client/src/StompProtocol.cpp:270-274 | the text of UNSUBSCRIBE |
| `Wording.SendText` | Skeleton/Skeleton/client/src/StompProtocol.cpp:310-331 | the text of SEND |
| `Wording.DisconnectText` | Skeleton/Skeleton/client/src/StompProtocol.cpp:397-400 | the text of DISCONNECT |
| `Wording.ReportText` | Skeleton/Skeleton/client/src/StompProtocol.cpp:312-329 | the text of a report, letter by letter |
| `OwnRequests.RequestArrives` | Skeleton/Skeleton/client/src/StompProtocol.cpp:225-246 | each request the client prints is parsed by the server to that request |
| `OwnRequests.RequestVerdict` | Skeleton/Skeleton/server/src/main/java/bgu/spl/net/impl/stomp/StompProtocolImpl.java:25-198 | what a whole request of the client gets from a server with any subscriptions: ERROR or its one answer, the change of subscriptions, and the exception |
| `OwnRequests.RequestIsServed` | Skeleton/Skeleton/server/src/main/java/bgu/spl/net/impl/stomp/StompProtocolImpl.java:28-197 | a request that fits the server's view is answered with ERROR iff it is a refused CONNECT or an UNSUBSCRIBE above 127, and otherwise carried out and answered once; the call throws iff it is a SEND to a channel with a null key, or a DISCONNECT over a handler iterated before the last key |
| `OwnRequests.DropFailsIff` | Skeleton/Skeleton/server/src/main/java/bgu/spl/net/srv/ConnectionsImpl.java:38-50 | in every reachable state that is iff no connection is being accepted and some channel iterates a null key before its last one |
| `SessionInvariant.SessionKeeps` | Skeleton/Skeleton/client/src/StompProtocol.cpp:33-414 | the invariant of client, server and both links holds in every reachable state, whatever other connections do, and also when calls throw and chunks are dropped or torn |
| `SessionCommands.JoinDoes` | Skeleton/Skeleton/client/src/StompProtocol.cpp:221-256 | any reachable state: iff the channel is new and the socket takes it, exactly one SUBSCRIBE goes out with the next two numbers and is recorded; one receipt number is used in any case; nothing else changes |
| `SessionCommands.ExitDoes` | Skeleton/Skeleton/client/src/StompProtocol.cpp:257-292 | any reachable state: iff the channel is joined and the socket takes it, exactly one UNSUBSCRIBE goes out with the recorded number and the second of two receipt numbers, and the record goes; otherwise only receipt numbers are used, two or one |
| `SessionCommands.ExitUnsubscribesLast` | Skeleton/Skeleton/client/src/StompProtocol.cpp:257-292 | that number is the one of the latest SUBSCRIBE for the channel among all requests |
| `SessionCommands.ExitTakesEffect` | Skeleton/Skeleton/client/src/StompProtocol.cpp:257-292 | runs: once that UNSUBSCRIBE is processed, with no ERROR and no SUBSCRIBE for the channel behind it, the server has no such subscription of the client |
| `SessionCommands.UnsubscribeCancels` | Skeleton/Skeleton/server/src/main/java/bgu/spl/net/impl/stomp/StompProtocolImpl.java:90-103 | an UNSUBSCRIBE up to 127 that arrives whole and fits the subscriptions there takes exactly its channel from them |
| `SessionCommands.ServerFollows` | Skeleton/Skeleton/client/src/StompProtocol.cpp:221-292 | runs without an ERROR and with only SENDs lost: the server's subscriptions of the client are what the requests met so far amount to |
| `SessionCommands.ReportDoes` | Skeleton/Skeleton/client/src/StompProtocol.cpp:293-361 | any reachable state: on a joined channel the requests added are SENDs with the bodies of exactly the events that have both general fields and whose frame the socket takes, each once and in order; on any other nothing |
| `SessionCommands.LogoutDoes` | Skeleton/Skeleton/client/src/StompProtocol.cpp:390-404 | any reachable state: one DISCONNECT iff the socket takes it, and the keyboard is closed in any case |
| `SessionCommands.HandleDoes` | Skeleton/Skeleton/client/src/StompProtocol.cpp:45-69 | a frame that is read without failure closes the keyboard iff it is an ERROR, and the reading iff it is an ERROR or a RECEIPT filed under DISCONNECT |
| `SessionCommands.ErrorEndsIt` | Skeleton/Skeleton/client/src/StompProtocol.cpp:64-69 | runs: once an ERROR has been handled, the client takes no command and reads no frame any more |
| `SessionTheorems.ViewsAgree` | Skeleton/Skeleton/client/src/StompProtocol.cpp:221-292 | in every state in which no ERROR has been sent to the client and nothing but SENDs of it is lost, applying the requests under way to the server's subscriptions gives exactly the client's; with none under way they are equal |
| `SessionAgreement.AgreementStep` | Skeleton/Skeleton/server/src/main/java/bgu/spl/net/impl/stomp/StompProtocolImpl.java:25-198 | from every state in which the two sides agree, agreement ends exactly at an arrival that, on a channel no later request names, leaves the server with something else than the client counts on, with what is dropped or torn taken into account |
| `SessionAgreement.AgreementIff` | Skeleton/Skeleton/client/src/StompProtocol.cpp:221-292 | every run, also with refused, lost and torn requests and removed connections: both sides have agreed in every state so far exactly when there was no such arrival |
| `SessionAgreement.ClearPartsIff` | Skeleton/Skeleton/server/src/main/java/bgu/spl/net/impl/stomp/StompProtocolImpl.java:90-197 | from a state as in `ViewsAgree` such an arrival is exactly an UNSUBSCRIBE above 127 whose channel no later request names, or a SEND over a null key behind which requests are lost that would have changed a channel no later request names |
| `SessionTheorems.IntactIff` | Skeleton/Skeleton/server/src/main/java/bgu/spl/net/srv/NonBlockingConnectionHandler.java:59-73 | nothing that the client has asked is lost exactly when no call of its connection has thrown with something behind it in its chunk |
| `SessionTheorems.ClearIff` | Skeleton/Skeleton/server/src/main/java/bgu/spl/net/impl/stomp/StompProtocolImpl.java:28-197 | every run: no ERROR has been sent to the client and nothing but SENDs is lost exactly when no CONNECT came whose login was not to be had, no UNSUBSCRIBE above 127, and no SEND to a channel with a null key and with more behind it in its chunk than SENDs |
| `SessionTheorems.NoErrorIff` | Skeleton/Skeleton/server/src/main/java/bgu/spl/net/impl/stomp/StompProtocolImpl.java:28-197 | every run: no ERROR is sent to the client exactly when nothing that arrives on a connection that is there upsets the server: no login that is not to be had, no request that does not fit the subscriptions, no rest of a torn request that reads like one |
| `SessionTheorems.CarefulClientsAgree` | Skeleton/Skeleton/client/src/StompProtocol.cpp:201-404 | with a login that is to be had when CONNECT comes, at most 128 joins, and no SEND over a null key with more behind it than SENDs, both sides agree in every state and the client never gets an ERROR |
| `SessionTheorems.NextRequestIsServed` | Skeleton/Skeleton/server/src/main/java/bgu/spl/net/impl/stomp/StompProtocolImpl.java:28-197 | in every state as in `ViewsAgree` the next request is answered with ERROR iff the login is not to be had or an UNSUBSCRIBE is above 127, and otherwise carried out; every SEND is accepted; when the call throws is exact |
| `SessionTheorems.NumbersAreFresh` | Skeleton/Skeleton/client/src/ConnectionHandler.cpp:155-160 | receipt numbers and subscription ids grow strictly along the requests, so none is used twice |
| `SessionTheorems.ReceiptsAreKnown` | Skeleton/Skeleton/client/src/StompProtocol.cpp:51-63 | every RECEIPT either names exactly one request, one that was processed, and is filed under its command, or answers the rest of a torn request; the client runs behind its table only after a torn request |
| `SessionTheorems.FailsIff` | Skeleton/Skeleton/client/src/StompProtocol.cpp:45-96 | every run: the client has run behind its table exactly when it has come to the answer to a torn request whose rest asks for a receipt that is not filed, and an exception has ended its reading exactly when it has come to a MESSAGE whose report cannot be read |
| `SessionTheorems.RepliesComeInOrder` | Skeleton/Skeleton/server/src/main/java/bgu/spl/net/impl/stomp/StompProtocolImpl.java:80-182 | in every state in which no torn request was taken for a frame, the answers in the inbox are those of the processed requests, one each, in request order, exactly when there is no ERROR among them |
| `SessionTheorems.DisconnectIsLast` | Skeleton/Skeleton/client/src/StompProtocol.cpp:55-62 | when a RECEIPT for DISCONNECT is in, every request was processed exactly when no call has thrown with something behind it in its chunk; with nothing torn, nothing is under way any more |
| `SessionTheorems.DisconnectIsLastIff` | Skeleton/Skeleton/client/src/StompProtocol.cpp:55-62 | when a RECEIPT for DISCONNECT is in, every request was processed exactly when no SEND of a subscriber came to a channel with a null key and with something behind it in its chunk |
| `SessionShortcomings.JoinIsLost` | Skeleton/Skeleton/server/src/main/java/bgu/spl/net/srv/NonBlockingConnectionHandler.java:59-73 | from every state at rest whose client has joined a channel with a null key: a report and a join in one chunk; the join is never processed, DISCONNECT gets its RECEIPT all the same, and the client lists a subscription that the server does not have |
| `SessionShortcomings.JoinCanBeLost` | Skeleton/Skeleton/server/src/main/java/bgu/spl/net/srv/NonBlockingConnectionHandler.java:59-73 | a run from an empty server on which that happens |
| `SessionShortcomings.TornReportFailsTheClient` | Skeleton/Skeleton/client/src/StompProtocol.cpp:51-54 | from every such state: two reports, the second with the description "DISCONNECT", and a chunk that ends in front of it; the rest is answered as a DISCONNECT without a receipt, and the client that reads the answer looks behind the end of its table |
| `SessionShortcomings.ClientCanFail` | Skeleton/Skeleton/client/src/StompProtocol.cpp:51-54 | a run from an empty server on which that happens |
| `Links.ReportIsOneFrameIff` | Skeleton/Skeleton/client/src/ConnectionHandler.cpp:100-104 | a report is decoded as one frame exactly when none of its fields holds a NUL |
| `Links.FramesAreNulFree` | Skeleton/Skeleton/server/src/main/java/bgu/spl/net/impl/stomp/FrameEncoderDecoder.java:14-22 | no message handed to process holds a NUL |
| `Links.AskedIsSendable` | Skeleton/Skeleton/client/src/StompProtocol.cpp:201-404 | every request of a session, in every state, is one that the link carries: no NUL, no line end in a login, passcode or channel, and numbers within int |
| `Links.RequestsComeWhole` | Skeleton/Skeleton/server/src/main/java/bgu/spl/net/srv/NonBlockingConnectionHandler.java:47-79 | while no call throws, the messages handed to process, of bytes that are some of those the client has sent, are its first requests, whole and in order; all of them once all bytes are read and the act is idle |
| `Links.ReadsAreArrivals` | Skeleton/Skeleton/server/src/main/java/bgu/spl/net/srv/NonBlockingConnectionHandler.java:47-79 | whatever calls throw, the read half and a session with the same requests make the same calls: some moves of the session link have the same texts and throw over the same ones, and leave under way just what is not read or still in the decoder; when all is read and idle every request has met its fate |
| `Links.ArrivalIsMove` | Skeleton/Skeleton/server/src/main/java/bgu/spl/net/srv/NonBlockingConnectionHandler.java:59-73 | an arrival of a session is one such move |
| `Links.MailIsRead` | Skeleton/Skeleton/client/src/ConnectionHandler.cpp:80-98 | what the client cuts out of the bytes on its channel up to each NUL are the frames of its mail from the first one on, and are parsed to them, with bodies in normal form |

## Left out

- Sockets, channels, selectors and accept loops: their effects are free choices
  of the steps.
- The blocking server (`BaseServer`, `BlockingConnectionHandler`, `Server`,
  `StompServer`): thin loops over the same decoder and protocol.
- `shutdown`, thread interruption, rejected executions, and races inside the
  JDK's `WeakHashMap` and `HashMap`.
- The read-write lock of the pool: lookup and insertion for one act both happen
  inside its synchronized block.
- UTF-8 decoding, console output, reading and tokenising the keyboard line, JSON,
  `writeToFile` with its dates and statistics, `Channel` and the `toString` dumps.
- The store of received reports behind `addReport`.
- Unused code: the client's `EncoderDecoder`, `Event(const std::string&)`,
  `resetConnection` and the second subscription map behind `insertSub`.
- Races between the client's two threads on its fields: each keyboard command
  and each received frame is one step.
- In `ReadPath` and `WritePath` the handler and the reactor are values, because
  the order of single statements of different threads is the point; the code in
  one piece is `SelectorThread` and `FrameEncoderDecoder.Feed`.  There the loop
  body and the end of `continueWrite` are methods of their own.
- FrameCodec.FrameEncoderDecoder.PushByte: the array length is unbounded; the
  overflow of `len * 2` beyond 2^30 bytes is not modelled.
- Reports of events whose fields hold U+0000: the server cuts them in two.
- Moves of `ReadsAreArrivals` are those of the link alone; which calls throw is
  decided by the server's tables, in `CallGives`.
