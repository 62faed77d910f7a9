# FeiPu: a verified model of the reactor and its HTTP server

FeiPu is a reactor (event loops, epoll, timers, connections) with an HTTP/1.1 server on top. This
project models its five hard parts and proves how they behave on every input, run and interleaving:

- **Parsing and printing requests** (`Buffer.dfy`, `CStrings.dfy`, `HttpMessage.dfy`,
  `HttpMachine.dfy`, `HttpParser.dfy`, `HttpHandler.dfy`, `HttpRoundTrip.dfy`, `HttpGrammar.dfy`). The
  buffer and the handler are classes with the fields of the source, proved equal to functions on byte
  sequences. About those functions: cutting the input differently changes nothing, the parser undoes
  the printer, both together give the end-to-end theorem; and every message written by the grammar of
  RFC 9112 (sections 2.1, 3, 5 and 6.2), with field names in any spelling, is read as it is written.
- **Routing** (`RouterMatch.dfy`, `Router.dfy`). The two-pointer matcher is proved exact against a
  declarative reading of patterns as templates, with a law for each part of a pattern; a query never
  changes the lookup.
- **Event loop, poller and connection life cycle** (`EventLoop.dfy`, `Poller.dfy`,
  `ServerModel.dfy`, `ServerInvariant.dfy`, `ServerSteps.dfy`, `ServerLifecycle.dfy`,
  `ServerTheorems.dfy`, `ServerProgress.dfy`, `ServerMeaning.dfy`, `ServerWitness.dfy`,
  `ConnStatus.dfy`, `TcpServer.dfy`). Labelled transition systems with one step per atomic action,
  for any number of loops; inductive invariants and what they mean for whole runs; and the methods of
  the source as methods proved to take those steps.
- **Output and responses** (`TcpConnection.dfy`, `HttpServer.dfy`). The connection's output as an
  untorn FIFO stream with re-entrant callbacks, and at most one response per connection.
- **Timers** (`TimerQueue.dfy`), with `Orders.dfy` for first elements, which the printer uses too.

Every `LOG_FATAL` and `assert` on the modelled paths is an explicit aborted outcome. It is proved
unreachable, or the exact condition under which it happens is proved. The life-cycle model has the
checks of the life cycle only; the fatal checks of the output path (a failed write of waiting bytes,
`shutdown` while bytes wait) are in the model of the output path.

Bytes are modelled as `char`. Five places where the code does not do what its documentation or its
names suggest are modelled as the code has them, and all but the captures are given their exact condition:

- A `send` on another thread tests the status when it is called, and the task it posts never tests it
  again. If that task leaves bytes waiting after the connection was unregistered, the descriptor goes
  back into the poller's map, the entry outlives the connection, and the next connection that gets the
  descriptor is taken for the old one and never watched (`ServerWitness.LateSendFoolsNextConnection`).
- A second `setContent` announces only the last piece's length.
- `shutdown` while bytes wait to be written aborts the process.
- `Content-length` is recognised in any spelling, but not behind leading blanks: an indented one is
  entered as an ordinary header and announces no body (`HttpGrammar.FieldIsRead`).
- A captured `:param` keeps its colon (and `{param}` its braces) in the capture's name, although
  `readme.md:73` says it is stored under `param`.

To check the whole project, run `dafny verify dfyconfig.toml` in this directory.

## Model

| member | source | states |
|---|---|---|
| Buffers.Buffer.Append | base/src/Buffer.cpp:28-35 | appending acts on the readable bytes as on a plain sequence, through compaction and growth; the storage never exceeds max(1032, 2M + 8) where M is the largest readable-plus-requested length so far |
| Buffers.CapacityBoundIs | base/src/Buffer.cpp:36-49 | the bound on the storage is 1032 bytes, or twice the largest demand and 8 more |
| Buffers.Buffer.MakeSpace | base/src/Buffer.cpp:36-49 | moves the readable bytes to the front exactly when that makes room enough, and else grows the storage by what is missing; the readable bytes stay as they are |
| Buffers.Buffer.MoveDown | base/src/Buffer.cpp:39-40 | the overlapping forward copy moves the readable bytes intact |
| Buffers.Buffer.ReadFd | base/src/Buffer.cpp:50-69 | whatever `readv` delivers, also past the free tail into the extra buffer, is appended whole; an error changes nothing |
| Buffers.Buffer.Retrieve | base/src/Buffer.cpp:9-12 | drops exactly the first bytes |
| Buffers.Buffer.ReplaceCrLf | base/src/Buffer.cpp:19-26 | writes two NULs over a CR LF pair inside the readable bytes and changes no other byte |
| CStrings.AtolOfDecimal | http/HttpMsg.cpp:28-32 | `atol` of the decimal text of a length is that length, for every length up to the largest `long` |
| CStrings.DecimalIsDecimal | http/HttpMsg.cpp:31 | `to_string` writes the digits of the number, most significant first, without leading zeros |
| CStrings.AtolReads | http/HttpHandler.cpp:173 | `atol` skips white space, takes a sign, reads the digits, stops at anything else and saturates at both ends of `long` |
| CStrings.ToSizeIsModular | http/HttpHandler.cpp:173 | a negative length becomes the `size_t` equal to it modulo 2^64 |
| CStrings.CStrOfTerminated | base/src/Buffer.cpp:19-26 | a NUL-free line, also when a NUL and more follow it, reads back as itself |
| HttpHandlers.CStrStopsAtNul | http/HttpHandler.cpp:125-196 | a scan of the line stops at or before the NUL written over its CR |
| HttpHandlers.HttpHandler.TokenEnd | http/HttpHandler.cpp:129-136 | the in-place scan for a space ends at the first space or at the NUL, never past it |
| HttpHandlers.HttpHandler.SetMethod | http/HttpMsg.cpp:15-23 | accepts exactly the known methods, and changes the request only then |
| HttpHandlers.HttpHandler.SetVersion | http/HttpMsg.cpp:3-12 | accepts exactly HTTP/1.1, and changes the request only then |
| HttpHandlers.HttpHandler.SetUrl | http/HttpMsg.cpp:58-65 | accepts exactly the non-empty paths, and changes the request only then |
| HttpHandlers.HttpHandler.ParseRequestLine | http/HttpHandler.cpp:125-160 | the index loops over the text, with their partial updates of the request, compute the request-line reading the round trip is proved about |
| HttpHandlers.HttpHandler.ParseHeaders | http/HttpHandler.cpp:161-196 | the pointer scans over the text, with their partial updates of the request, compute the header-line reading that `HttpGrammar` characterises for every line and every spelling of the field name |
| HttpHandlers.HttpHandler.ParseLine | http/HttpHandler.cpp:96-123 | the resumable line scan over the live buffer, with its in-place CR LF edit, computes the scan function |
| HttpHandlers.HttpHandler.ParseBreak | http/HttpHandler.cpp:100-118 | at a CR or LF the line ends, waits or is malformed exactly as the scan function says, and only a found CR LF is overwritten |
| HttpHandlers.HttpHandler.ParseHttp | http/HttpHandler.cpp:14-95 | the state machine working on handler and buffer computes status, handler state and unread bytes of the function on byte sequences, so everything proved of that function holds of it; PARSE_NEXT is never returned |
| HttpHandlers.HttpHandler.Receive | http/HttpHandler.cpp:14-95 | appending chunk after chunk and parsing after each is the chunked feed of the theorems |
| HttpMachine.ScanExact | http/HttpHandler.cpp:96-123 | from a prefix free of CR and LF, the first CR or LF decides: CR LF ends the line, a final CR waits, anything else is an error; so the branch for an LF after a passed CR is dead |
| HttpMachine.ScannedIsKept | http/HttpHandler.cpp:96-123 | whenever more data is wanted, the bytes before `line_index_` hold no CR or LF |
| HttpMachine.MalformedBreakIsError | http/HttpHandler.cpp:29-35 | outside the body the bytes are rejected unread exactly when the first CR or LF is a bare LF or a CR before another byte |
| HttpMachine.ScanExtends | http/HttpHandler.cpp:96-123 | more bytes never change a decided line, and an open scan goes on from `line_index_` as if it had started over |
| HttpMachine.TurnExtends | http/HttpHandler.cpp:18-90 | one turn of the loop on more bytes relates to the turn on fewer as resumption requires |
| HttpMachine.ParseExtends | http/HttpHandler.cpp:14-95 | a call that wants more data is continued exactly by the next call; a call that decided would have decided the same with more bytes |
| HttpMachine.ChunkingInvariance | http/HttpHandler.cpp:14-123 | for arbitrary bytes, malformed ones too, and any cut: same status, same request and same parser state as one call on the concatenation, and the same unread bytes when more is wanted |
| HttpMessages.SortedKeysEnumerate | http/HttpMsg.cpp:33-38 | the order in which headers are printed lists every key once, ascending as in `std::map` |
| HttpMessages.LexLessIsAscending | http/HttpMsg.cpp:33-38 | that order is `std::string`'s: at the first place where two keys differ the smaller byte comes first, and a prefix comes before what it begins |
| HttpMessages.DumpHeaders | http/HttpMsg.cpp:33-38 | the loop over the map prints one line per header in that order |
| HttpMessages.DumpRequest | http/HttpMsg.cpp:66-74 | the printed request is request line, header block, blank line, body |
| HttpRoundTrip.MethodIsRead | http/HttpDef.cpp:4-23 | every known method's text reads back as that method |
| HttpRoundTrip.RequestLineIsRead | http/HttpHandler.cpp:125-160 | the parser reads a printed request line back, whatever the handler held before |
| HttpRoundTrip.HeaderLineIsRead | http/HttpHandler.cpp:161-196 | the parser reads a printed header line back and takes the body length from `Content-length` |
| HttpRoundTrip.HeaderBlockIsRead | http/HttpHandler.cpp:52-70 | a printed header block is consumed line by line and enters every header |
| HttpRoundTrip.HeadersAreRebuilt | http/HttpHandler.cpp:161-196 | entering the headers of a message in any order that lists each once rebuilds its header map |
| HttpRoundTrip.ParseUndoesDumpInOrder | http/HttpMsg.cpp:33-74 | parsing undoes printing in whatever order the headers were printed |
| HttpRoundTrip.ParseUndoesDump | http/HttpMsg.cpp:33-74 | parsing the printed form of any well-formed request ends with the same method, path, headers and body |
| HttpRoundTrip.EndToEnd | http/HttpHandler.cpp:14-205 | the same for the printed form cut into any chunks and parsed after every chunk |
| HttpRoundTrip.SetContentAnnouncesLength | http/HttpMsg.cpp:28-32 | `setContent` announces the length of the body exactly when there was no body before |
| HttpRoundTrip.SetContentKeepsWellFormed | http/HttpMsg.cpp:28-32 | the first `setContent` keeps a message one that survives the round trip |
| HttpMessages.SetContentRecordsPiece | http/HttpMsg.cpp:24-32 | `setContent` appends the piece behind the body, announces the piece's length and changes nothing else |
| HttpGrammar.ToLowerIsCaseVariant | http/HttpHandler.cpp:169 | the folding of `strncasecmp` identifies two bytes exactly when they are equal or one letter in two cases |
| HttpGrammar.PrefixIsLengthLine | http/HttpHandler.cpp:169 | the comparison succeeds exactly on lines that begin with some spelling of `Content-length:` |
| HttpGrammar.LengthIsReadInAnySpelling | http/HttpHandler.cpp:169-175 | in any spelling and with any blanks after the colon the field sets the body's length and is entered under the one spelling |
| HttpGrammar.OtherLinesKeepLength | http/HttpHandler.cpp:161-196 | no other line changes the body's length |
| HttpGrammar.FieldIsRead | http/HttpHandler.cpp:161-196 | every field, with any blanks before the name and after the colon, is entered under its name with its value; it announces the body exactly when it is an unindented spelling of `Content-length` |
| HttpGrammar.FieldsAreRead | http/HttpHandler.cpp:52-70 | a header section is read field by field, a later field with the same name replacing the earlier |
| HttpGrammar.BodyIsRead | http/HttpHandler.cpp:197-205 | after the blank line exactly the announced bytes become the body; bytes after a body are thrown away, and stay unread when no body was announced |
| HttpGrammar.MessageIsRead | http/HttpHandler.cpp:14-205 | every message text is read as it is written: method, path, fields in any spelling and order, and a body as long as the fields announce |
| HttpGrammar.BodyIsReadInAnySpelling | http/HttpHandler.cpp:14-205 | end to end: whatever the spelling and the place of the field that announces the body, and however the network cuts the message, the whole body is read |
| HttpGrammar.MethodsAreExact | http/HttpDef.cpp:4-23 | six method texts are known, every other text is not, and each prints as it was read |
| HttpGrammar.RequestLineIsExact | http/HttpHandler.cpp:125-160 | a line is accepted exactly when it is one of the six methods, a blank, a non-empty path without blanks, a blank and HTTP/1.1; every other line is an error |
| HttpGrammar.HeaderLineIsExact | http/HttpHandler.cpp:161-196 | an empty line ends the headers; another is an error exactly when it announces no body and has no key or no colon |
| HttpGrammar.BadRequestLineIsRejected | http/HttpHandler.cpp:36-51 | a first line that is no request line ends the parse in an error, whatever follows |
| HttpGrammar.BadFieldIsRejected | http/HttpHandler.cpp:52-70 | so does a header line without key or colon |
| HttpGrammar.DumpIsText | http/HttpMsg.cpp:33-74 | a printed request is the message text of its method, path, headers in ascending order of name, and body |
| RouterMatch.MatchIsSound | http/Router.cpp:60-104 | whatever is accepted is the pattern with its captures put back: each parameter slash-free, the catch-all anything |
| RouterMatch.MatchIsComplete | http/Router.cpp:60-104 | every filling of a pattern is accepted and captured as it was filled |
| RouterMatch.MatchIsExact | http/Router.cpp:44-104 | accepted with these captures if and only if the path is the pattern filled with values that are named exactly so |
| RouterMatch.CapturesAreUnique | http/Router.cpp:60-104 | two fillings of one pattern that give one path are the same filling |
| RouterMatch.AbortIsExact | http/Router.cpp:66-76 | the usage error is raised if and only if the path reaches a `*` segment that is followed by more than a slash |
| RouterMatch.ParamNameKeepsMarker | http/Router.cpp:80-94 | a parameter's name always begins with its `:` or `{`, so the code that strips braces never does |
| RouterMatch.EmptyLaw | http/Router.cpp:60-104 | an empty pattern matches the empty path alone, and the other way round |
| RouterMatch.LetterLaw | http/Router.cpp:60-65 | a different first byte never matches, and an ordinary byte of a pattern matches itself |
| RouterMatch.ParamLaw | http/Router.cpp:80-94 | a segment beginning with `:` or `{` matches one whole segment, captured under its own text, and the rest decides |
| RouterMatch.StarLaw | http/Router.cpp:66-79 | a final `*` segment matches all that follows; a slash behind it never matches, and more is the usage error |
| Routers.MatchEntry | http/Router.cpp:55-104 | the two-pointer loop with its capture map computes that matcher, the later of two equal names winning |
| Routers.LookupIsDetermined | http/Router.cpp:44-124 | when no pattern aborts and at most one pattern with the method accepts, the lookup does not depend on the order of the table |
| Routers.Router.Route | http/Router.cpp:6-24 | one handler per pattern and method: a second one is fatal and changes nothing, any other is added |
| Routers.Router.Match | http/Router.cpp:44-124 | returns a handler if and only if one is registered for the method under some pattern that accepts the path, and writes that pattern's captures only then; `ServesIff` says what path |
| Routers.MatchedPathIsCut | http/Router.cpp:46-51 | what is matched is the path in front of the first `?` |
| Routers.ServesIff | http/Router.cpp:44-118 | with or without a query, a handler serves a path exactly when it is registered for the method under a pattern that matches what stands before the `?` |
| Routers.QueryIsIgnored | http/Router.cpp:46-51 | a query changes nothing about what a lookup may return |
| Routers.ToMapNames | http/Router.cpp:78-93 | the capture map has exactly the captured names |
| Routers.ToMapHasTheLast | http/Router.cpp:78-93 | under each name is the value captured last |
| EventLoops.ApplyKeepsInv | base/src/Eventloop.cpp:67-137 | every atomic step keeps: executed, batch and queue together are the posts in mutex order, and a queued task has a wake-up coming or a loop past `poll` |
| EventLoops.NoLostWakeup | base/src/Eventloop.cpp:110-137 | in every reachable state of every interleaving: exactly-once FIFO, and no queued task is slept on |
| EventLoops.EveryPostRuns | base/src/Eventloop.cpp:67-137 | from any state with no poster half-way, a bounded number of the loop's own steps runs every task posted so far |
| EventLoops.EventLoop.RunInLoop | base/src/Eventloop.cpp:110-123 | on the loop's own thread the task runs at once and nothing is queued; on another, a push followed by a wake-up, both steps of the transition system |
| EventLoops.EventLoop.DoFunctions | base/src/Eventloop.cpp:124-137 | runs exactly the tasks queued at the swap, in order, while what other threads post meanwhile stays queued in order; a run of the transition system |
| EventLoops.LateIsComplete | base/src/Eventloop.cpp:110-123 | the posts that stay queued are all that was posted during the batch, in order |
| EventLoops.EventLoop.LoopOnce | base/src/Eventloop.cpp:70-94 | one turn of the loop runs everything queued before its swap, keeps the invariant, and is a run of the transition system |
| Pollers.UpdateAgreesIff | base/src/Poller.cpp:49-91 | an update keeps map and kernel interest in agreement if and only if a new channel asks for something and a known one is not re-enabled after its mask became empty |
| Pollers.RemoveAgrees | base/src/Poller.cpp:93-105 | removing a channel keeps the agreement |
| Pollers.ReenableIsLost | base/src/Poller.cpp:64-84 | a concrete channel that is re-enabled after its mask became empty is no longer watched |
| Pollers.PollAssertionsHold | base/src/Poller.cpp:36-45 | under the agreement both assertions of `poll` hold for everything the kernel can report |
| Pollers.Poller.UpdateChannel | base/src/Poller.cpp:49-91 | the method performs that update on map and kernel set |
| Pollers.Poller.RemoveChannel | base/src/Poller.cpp:93-105 | aborts exactly on a foreign entry, and removes from map and kernel otherwise |
| Pollers.Poller.Poll | base/src/Poller.cpp:12-47 | aborts exactly when a reported channel is not the map's entry for its descriptor; hands on all reported channels otherwise; doubles the event array exactly when a report filled it |
| Pollers.Channel.EnableWrite | base/include/Channel.h:50-55 | the write bit, the flag and the registration change together |
| Pollers.Channel.DisableAll | base/include/Channel.h:28-33 | mask, both flags and the registration are emptied together |
| Pollers.CallsAreExact | base/src/Channel.cpp:20-36 | a hang-up without IN closes, IN, PRI or RDHUP reads, OUT writes, each once and in this order, and nothing else is called |
| Pollers.Channel.HandleEvent | base/src/Channel.cpp:11-37 | the branches of the method make exactly those calls |
| Pollers.UpdateIsExact | base/src/Poller.cpp:49-91 | in each case of a known or new descriptor and an empty or non-empty mask, what map and kernel hold for it afterwards; all other descriptors keep theirs |
| Pollers.RemoveIsExact | base/src/Poller.cpp:93-105 | removal takes exactly this descriptor out of map and kernel |
| ServerLifecycle.EstablishIsNew | base/src/Poller.cpp:56-90 | in every good state, establishing a connection registers a descriptor the loop does not know, so a reused descriptor never takes the branch of a known channel; a state stays good until a late send revives a connection |
| ServerLifecycle.EstablishKeeps | base/src/TcpConnection.cpp:156-166 | `connectEstablished` keeps the protocol's invariant |
| ServerLifecycle.HandleCloseKeeps | base/src/TcpConnection.cpp:171-188 | closing an established connection keeps the invariant and hands it on to the main loop, directly or through its queue |
| ServerLifecycle.RemoveKeeps | base/src/TcpServer.cpp:51-64 | `assert(n != 0)` holds whenever `removeConnection` runs; the invariant is kept |
| ServerLifecycle.DestroyKeeps | base/src/TcpConnection.cpp:167-170 | `connectDestory` finds its own map entry and keeps the invariant |
| ServerLifecycle.AcceptKeeps | base/src/TcpServer.cpp:18-45 | accepting any descriptor that is not open, reused or not, for any loop keeps the invariant |
| ServerLifecycle.UnheldIsUnregistered | base/src/TcpConnection.cpp:15-22 | in every good state, a connection that nobody refers to any more has left its loop's map before its descriptor is closed |
| ServerLifecycle.DestructKeeps | base/src/TcpConnection.cpp:15-22 | deleting it keeps the invariant |
| ServerLifecycle.PostedSendKeepsIff | base/src/TcpConnection.cpp:51-101 | a posted send that runs at any stage after establishment, and may turn write interest on, never fails a life-cycle check, and keeps the invariant if and only if it does not bring an unregistered connection back into the map |
| ServerLifecycle.PollKeeps | base/src/Poller.cpp:12-47 | both assertions of `poll` hold for whatever the kernel may report to any loop, and the invariant is kept |
| ServerLifecycle.StepKeeps | base/src/TcpServer.cpp:18-64 | any step of any thread from a good state fails a life-cycle check if and only if a read finds the end of stream on a connection already closed; otherwise the next state is good if and only if the step is not a posted send that brings an unregistered connection back |
| TcpServers.TcpServer.WhenNewConnection | base/src/TcpServer.cpp:18-45 | the method takes the accept step of the protocol, field by field, and keeps the invariant |
| TcpServers.TcpServer.RemoveConnection | base/src/TcpServer.cpp:51-64 | takes the removal step: on the main loop only, the connection leaves the set and is destroyed on its own loop, directly or through its queue |
| TcpServers.TcpServer.WhenOldConnDisconnect | base/src/TcpServer.cpp:47-50 | removes at once on the main loop, and through its queue from any other |
| TcpServers.TcpServer.ConnectEstablished | base/src/TcpConnection.cpp:156-166 | takes the establishing step: status, read interest, callback; fatal on a foreign thread |
| TcpServers.TcpServer.HandleClose | base/src/TcpConnection.cpp:171-188 | takes the closing step: a second close is fatal; otherwise status, empty mask, callback and removal |
| TcpServers.TcpServer.ConnectDestroy | base/src/TcpConnection.cpp:167-170 | takes the unregistering step, fatal on a foreign thread or a foreign map entry |
| TcpServers.TcpServer.RunNextTask | base/src/Eventloop.cpp:133-135 | runs the first task of the batch and keeps the invariant |
| ServerTheorems.EveryRunIsGood | base/src/Eventloop.cpp:67-137 | every interleaving without such a revival stays good until a second close |
| ServerTheorems.BenignRunsNeverAbort | base/src/Channel.cpp:11-37 | no life-cycle check fails in a run without revivals in which hang-up without IN comes without PRI and RDHUP |
| ServerTheorems.ServerIsSafe | base/src/TcpServer.cpp:18-64 | from start-up, for any number of loops, any such interleaving and any reuse of descriptors: no life-cycle check fails; every mapped or watched descriptor is open and held by a living connection of that loop; at most one queued life-cycle task per connection and in the right queue; callbacks up then down, each at most once, on the owning loop; stages in order; kernel interest equals the map restricted to non-empty masks if and only if no late send has turned on the write interest of a closed connection |
| ServerTheorems.KernelAgreesIff | base/src/Poller.cpp:49-105 | in every good state map and kernel agree if and only if no closed connection still in the map has a non-empty mask |
| ServerTheorems.RunsWithoutLateSendsAgree | base/src/Poller.cpp:49-105 | when every posted send that turns write interest on runs while its connection is established, map and kernel agree in every state of the run |
| ServerTheorems.PostedSendAtStage | base/src/TcpConnection.cpp:64-101 | a posted send that turns write interest on leaves all descriptors live, and keeps map and kernel in agreement if and only if the connection is established or already unregistered when it runs |
| ServerTheorems.RevivalLeavesDeadEntry | base/src/TcpConnection.cpp:15-22 | after a posted send to an unregistered connection and its deletion, descriptors are live and kernel and map agree if and only if the send left no bytes waiting; otherwise the map keeps a deleted connection under a closed descriptor |
| ServerTheorems.GoodStages | base/src/TcpConnection.cpp:156-188 | each connection has passed through accepted, established, closed, removed, unregistered, deleted in this order up to its present stage, skipping none |
| ServerTheorems.StagesOnlyAdvance | base/src/TcpConnection.cpp:156-188 | no step takes back a stage that a connection has passed, or changes its loop or descriptor; only a late send makes a closed connection ask for writes, and only deletion deletes |
| ServerTheorems.NextIsCallable | base/src/Eventloop.cpp:86-93 | the connection of the next task or active channel always still exists |
| ServerMeaning.EstablishChecks | base/src/TcpConnection.cpp:156-158 | establishing fails exactly off the connection's own loop |
| ServerMeaning.DestroyChecks | base/src/TcpConnection.cpp:167-170 | unregistering fails exactly off its loop or when the map has another channel under the descriptor |
| ServerMeaning.RemoveChecks | base/src/TcpServer.cpp:51-64 | removal fails exactly off the main loop, for a connection not in the set, or when unregistering on the spot meets another channel |
| ServerMeaning.CloseChecks | base/src/TcpConnection.cpp:171-188 | closing fails off its loop and the second time, and on a loop of its own only then |
| ServerMeaning.PollChecks | base/src/Poller.cpp:36-45 | `poll` fails exactly when some reported channel is not the map's entry for its descriptor |
| ServerMeaning.BeginChecks | base/src/Channel.cpp:14-18 | an event fails exactly when the owner of its channel is gone |
| ServerMeaning.AcceptMeans | base/src/TcpServer.cpp:18-45 | any descriptor that is not open may arrive, for any loop; the connection is recorded and established, at once or by a task behind all others of its loop |
| ServerMeaning.ShutdownMeans | base/src/TcpConnection.cpp:189-195 | any connected connection may begin to disconnect, which changes its status only |
| ServerMeaning.SetWriteMeans | base/include/Channel.h:50-60 | write interest of a connection that is not closed may go on and off, and the kernel follows |
| ServerMeaning.PostedSendMeans | base/src/TcpConnection.cpp:57-101 | a posted send may run at every stage but the first and the last, and may turn write interest on |
| ServerMeaning.PollMeans | base/src/Poller.cpp:12-47 | `poll` may report any watched descriptor with any events inside its mask; it becomes active with the calls for them |
| ServerMeaning.DeleteMeans | base/src/TcpConnection.cpp:15-22 | a connection without references may be deleted; its descriptor is closed and leaves every kernel set |
| ServerMeaning.EstablishMeans | base/src/TcpConnection.cpp:156-166 | connected, reading, in map and kernel, and the user is told on its loop |
| ServerMeaning.CloseMeans | base/src/TcpConnection.cpp:171-188 | disconnected, asking for nothing, out of the kernel, the user told, and the removal queued on the main loop behind all other tasks |
| ServerMeaning.RemoveMeans | base/src/TcpServer.cpp:51-64 | out of the set, and the unregistering queued on its own loop |
| ServerMeaning.DestroyMeans | base/src/TcpConnection.cpp:167-170 | out of its loop's map and kernel set |
| ServerProgress.EveryConnectionSettles | base/src/Eventloop.cpp:67-137 | from any good state finitely many steps that the loops take by themselves run every queued task on every loop; then every accepted connection has been established, every closed one is unregistered, and none is half-way |
| ServerTheorems.HangupWithPriorityAborts | base/src/Channel.cpp:20-32 | the excluded report does abort: close call, then read call at the end of stream |
| ServerWitness.LateSendFoolsNextConnection | base/src/Poller.cpp:56-84 | a run from start-up with one loop and one ordinary hang-up in which a late send leaves a dead map entry and the next connection with the descriptor is established but never watched |
| ServerWitness.ExcludedHangupIsReachable | base/src/Channel.cpp:20-32 | a run from start-up with one loop that takes the excluded report and aborts |
| TcpConnections.TcpConnection.Send | base/src/TcpConnection.cpp:39-63 | a connection that is not connected takes nothing and changes nothing; on the loop thread the message is taken whole or, when a direct write fails, dropped whole; on another thread only a task is posted |
| TcpConnections.TcpConnection.SendInLoop | base/src/TcpConnection.cpp:64-101 | with bytes waiting the message waits behind them; else it goes out directly, is lost whole when that fails, waits with what is left, or is out whole: then, and only then, the write callback runs, and its first send is taken or its shutdown done, or, if it only sends and everything is written, all its messages and those of nested callbacks are out in order; socket bytes and waiting bytes stay the concatenation of the messages |
| TcpConnections.TcpConnection.RunScript | base/src/TcpConnection.cpp:87-101 | a callback on a connected connection has its first send taken or its shutdown done, and one that only sends has all its messages taken in order, nested callbacks included; on any other connection it changes nothing |
| TcpConnections.TcpConnection.RunPostedSend | base/src/TcpConnection.cpp:57-64 | the posted task sends in whatever status it finds the connection, with the same outcomes as a send on the loop |
| TcpConnections.TcpConnection.BufferIntoNet | base/src/TcpConnection.cpp:128-155 | nothing taken is fatal; part taken, the rest waits on and no callback runs; all taken, the write callback runs with the same effects, and a connection that is disconnecting is half-closed |
| TcpConnections.TcpConnection.Shutdown | base/src/TcpConnection.cpp:189-204 | half-closes a connected socket; aborts if and only if bytes still wait |
| TcpConnections.TcpConnection.ShutInLoop | base/src/TcpConnection.cpp:196-204 | aborts exactly while writing; otherwise the write side is shut, everything accepted is on the socket unless the peer closed first, and nothing is written after it |
| TcpConnections.TcpConnection.HandleClose | base/src/TcpConnection.cpp:171-188 | a second close is fatal, the first drops write interest and sends nothing more |
| TcpConnections.TcpConnection.Drive | base/src/TcpConnection.cpp:39-204 | the class invariant (FIFO stream, write interest, half-close after drain) holds after any sequence of events, sends and shutdowns of other threads included, whose tasks may run in any order |
| HttpServers.FedIsFeed | http/HttpServer.cpp:21-39 | parsing after every read over the life of a connection is one chunked feed from the initial state |
| HttpServers.HttpSession.constructor | http/HttpServer.cpp:48-56 | a new connection gets a fresh handler and has sent nothing |
| HttpServers.HttpSession.Deal | http/Router.cpp:26-43 | a handler that the lookup found is called on the request with the captures written over what was there, and its response is the answer; if none is found the answer is the status line of a 501; a misused `*` ends the process |
| HttpServers.AdmissibleAnswer | http/Router.cpp:26-43 | if any pattern serves path and method the response is that of a serving handler on that pattern's captures, and else the 501 |
| HttpServers.HttpSession.HandleHttp | http/HttpHandler.cpp:206-216 | deals the request if there is a router and sends the response; a connection that is not connected takes nothing |
| HttpServers.HttpSession.OnRecv | http/HttpServer.cpp:21-47 | waits on PARSE_RECV; after an error nothing is accepted although the answer is still made; at the end the response is accepted and the connection shut down, aborting exactly when the response left only in part or the router is fatal |
| HttpServers.HttpSession.NetIntoBuffer | base/src/TcpConnection.cpp:24-38 | what each read makes the server accept is decided once, when the parser first decides; the end of the stream leaves the connection disconnected; and exactly when a read aborts |
| HttpServers.HttpSession.Run | http/HttpServer.cpp:21-47 | over any sequence of reads, writable events and hang-ups at most one message is ever accepted |
| HttpServers.AtMostOneResponse | http/HttpServer.cpp:21-47 | however the input was cut, the socket has been given exactly one whole response to the request that one parse of all received bytes yields, if that parse ended well while connected, with a router and a write that did not fail, and nothing otherwise; the response is one the route table admits |
| HttpServers.RequestIsAnswered | http/HttpServer.cpp:21-47 | for the printed form of a well-formed request cut at will: with a router, a connection still connected when the parse ends and a write that does not fail, the socket carries exactly what a handler registered for that path and method makes of that very message and its captures, or, if there is none, the status line of a 501; otherwise nothing |
| TimerQueues.TakeDue | base/include/TimerQueue.h:68-78 | the walk up to the sentinel takes exactly the entries due by the cached time, in order |
| Orders.FirstExists | base/include/TimerQueue.h:72-75 | every non-empty finite set has a first element under a strict total order, as `std::set` and `std::map` deliver it |
| TimerQueues.TimerQueue.GetNextTimeout | base/include/TimerQueue.h:19-34 | -1 exactly without timers, 0 exactly when one is due, else the distance to the earliest |
| TimerQueues.TimerQueue.AddTimer | base/include/TimerQueue.h:35-43 | the timer is queued at its time, with its interval, and repeating exactly when it was asked to be; nothing else changes |
| TimerQueues.TimerQueue.GetExpired | base/include/TimerQueue.h:68-78 | due timers are taken out in order, the others stay |
| TimerQueues.PassingAfterRun | base/include/TimerQueue.h:46-49 | running one expired timer leaves the rest of the pass, and the spacing of all earlier and later firings, intact |
| TimerQueues.PassingAfterAdd | base/include/TimerQueue.h:46-49 | so does a timer that a callback adds, also at a time that is already due |
| TimerQueues.PassingAfterRequeue | base/include/TimerQueue.h:52-63 | re-arming or deleting one expired timer leaves the rest of the pass as it was |
| TimerQueues.RearmedIsUnfired | base/include/Timer.h:25-28 | a timer armed again expires at least its interval after every earlier firing |
| TimerQueues.TimerQueue.RunExpired | base/include/TimerQueue.h:45-49 | the callbacks of the expired timers run once each in order, and every timer they ask for is queued |
| TimerQueues.TimerQueue.RequeueExpired | base/include/TimerQueue.h:52-63 | repeating timers are queued again an interval after the cached time, one-shot timers are deleted, the others untouched |
| TimerQueues.TimerQueue.HandleTimeEvent | base/include/TimerQueue.h:44-65 | a pass runs exactly the timers due at its start, each once, in order of time; repeating ones are queued again at exactly the cached time plus their interval, one-shot ones are gone, all others stay; timers that callbacks ask for are queued as asked, not run and not lost |
| TimerQueues.TimerQueue.RunPasses | base/include/TimerQueue.h:44-65 | over any passes, a repeating timer lives on and is queued at its first time until a pass finds it due, and from then on an interval after the last pass that ran it |
| TimerQueues.TimerQueue.AddAndRun | base/include/TimerQueue.h:35-65 | so does a repeating timer that has just been added |
| TimerQueues.TimerQueue.RunsAreSpaced | base/include/TimerQueue.h:44-65 | no timer ever ran early, and two runs of one timer are at least its interval of cached time apart |
| TimerQueues.OutcomeReschedules | base/include/TimerQueue.h:52-63 | after a pass each due repeating timer is queued at exactly the cached time plus its interval, each due one-shot timer is gone, and the others are as they were |
| TimerQueues.AskedAreMet | base/include/TimerQueue.h:45-49 | every timer a callback asks for lives and is queued with the time, interval and repetition asked for |
| TimerQueues.FiringsAreLogged | base/include/TimerQueue.h:45-49 | the pass logs one run for each due timer, in order, and no other |

## Left out

- TcpConnections.TcpConnection.Send: a cross-thread send runs later through a raw pointer to the connection and to the caller's bytes; the model takes the bytes by value and runs the task only while the connection lives.
- TcpConnections.TcpConnection.Drive: the spill buffer is the sequence of its readable bytes, which is all `Buffers.Buffer` is proved to show; `HttpServers` uses the real input buffer.
- TcpConnections.TcpConnection.RunScript: what a callback does after its first action is stated in full for callbacks that only send; of one that also shuts the connection, only that the class invariant holds and that the shutdown was done.
- TcpConnections.TcpConnection.SendInLoop: the half-close statement excludes sends that another thread posted while connected and that run after the status changed; the code still writes them.
- ServerTheorems.BenignRunsNeverAbort: covers the life-cycle checks only; the fatal checks of the output path, a failed write of waiting bytes (base/src/TcpConnection.cpp:153) and `shutdown` while writing (base/src/TcpConnection.cpp:199), are not steps of that model but are exact in `TcpConnections`.
- ServerTheorems.ServerIsSafe: assumes that a hang-up without IN does not come with PRI or RDHUP, and that no posted send turns write interest on after its connection was unregistered; `ServerWitness` has a run for each that shows what happens otherwise.
- ServerLifecycle.PostedSendKeepsIff: a posted send to a deleted connection is undefined behaviour in the code and not a step of the model; one that runs on an accepted connection cannot have passed the status test.
- ServerProgress.EveryConnectionSettles: that the loops get to run is assumed; no bound on time is claimed.
- ServerLifecycle.StepKeeps: the life-cycle protocol is a transition system on values, one step per atomic action, because steps of several threads interleave; `TcpServers.TcpServer` holds that state in fields, but connections stay values in a map, so aliasing is not modelled, nor which thread drops the last reference; deletion may come at any time after that.
- ServerLifecycle.AcceptKeeps: the loop that gets a connection is arbitrary, which covers the round robin of `EventLoopPool`; one accept is one step.
- Pollers.Poller.UpdateChannel: a failing `epoll_ctl` is only logged by the code, so it changes nothing in the model; ERR and NVAL are not reported separately.
- EventLoops.NoLostWakeup: the eventfd counter is unbounded, and `quit` and the races its comments mention are not modelled.
- TimerQueues.TimerQueue.GetNextTimeout: no claim about punctuality; the code passes microseconds to a call that takes milliseconds.
- TimerQueues.TimerQueue.HandleTimeEvent: the interval is its truncated number of microseconds, times are unbounded integers, and what each callback adds is a parameter.
- HttpServers.HttpSession.HandleHttp: a handler is a function from request and captures to the bytes of its response, so side effects of handlers, empty handler objects and the status table behind the response printer are not modelled; the table does not change while the server runs; the write result is a parameter.
- HttpServers.AtMostOneResponse: speaks of runs that have not aborted; `AfterEvent` states exactly when an event aborts.
- HttpRoundTrip.SetContentAnnouncesLength: a message is a value and `setContent` a function from message to message.
- HttpRoundTrip.EndToEnd: bytes after a complete body are discarded by the code, so nothing is claimed about pipelining or keep-alive.
- HttpHandlers.HttpHandler.ParseHttp: the request's method is uninitialised in a new handler; the model starts from the unexpected method. `atol` out of range saturates as in glibc, and a negative length wraps to `size_t`.
- Buffers.Buffer.ReadFd: sizes are unbounded integers, so an overflow of `size_t` or of the `int` that holds the result of `readv` is not modelled.
- RouterMatch.MatchIsExact: a `*` segment with a trailing slash never matches and one followed by more aborts; both are covered (`RestSlash`, `AbortIsExact`).
- Sockets, epoll, eventfd and the clock are nondeterministic steps or parameters.
- `EventLoopThread`, `EventLoopPool`, thread and mutex wrappers, logging, addresses, socket helpers, status and content-type tables, `Service` and the snippets would only add easy members.
- `UdpServer` is left out: its send loop does not end when its queue empties.
- Server destruction and process exit are left out; server and loops outlive all connections.
