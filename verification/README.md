# Verification model of spinet

A Dafny model of the four parts of spinet in which state is hardest to follow, with proofs about every input, every run
and every reachable state.

**HTTP parsers.** `HttpRequestParser` and `HttpResponseParser` hold the byte automatons twice: as classes whose methods
update the parser fields and the message byte by byte, as the source does, and as the functions `Step` and `Consume` that
the methods are proved to refine. The lemmas are about those functions: splitting the input (`HttpRequestRuns`), what
every run keeps (`HttpRequestInvariant`), chunked bodies against a grammar written as data (`HttpChunks`,
`HttpRequestBody`), parse/print/parse (`HttpRequestRoundTrip`, `HttpResponseRoundTrip`), framing and continuation lines
(`HttpRequestFraming`), which requests can result at all (`HttpRequestImage`), and the relation between the two parsers
(`HttpBisimulation`), which carries the request parser's results over to responses (`HttpResponseFraming`). `HttpNames`
spells out the names, values and character classes the parsers look for, and `HttpRequestTexts` and `HttpResponseTexts`
state the results on messages written out byte by byte. `Numerals` spells out `strtol` and `atoi`.

**URL parser.** `UrlParser` has the scanner as a class method with the source's variables and as a fold over `Step`;
`UrlNormalForm` says which URLs can result and that printing one and scanning it again changes nothing; `UrlFailures`
says, as grammars, which strings fail the assertion and which abort, and `UrlTexts` has URLs written out, with the ports.

**Runtime and handles.** `HandleRegistry` says what the regions under `handles_mtx_` do to `all_handles_`,
`all_sockets_`, `removable_handles_` and the kernel's interest set. `Runtime` has the objects whose methods refine those
functions. `RuntimeSystem` interleaves the event loop with any number of registering and closing threads;
`RuntimeSafety` and `RuntimeDescriptors` prove what all its runs keep, `ReplaceBranch` when the replace branch of
`register_handle` can be reached, and `RuntimeUsage` that the repository's own use never gets there. `RuntimeLoop` says
what an iteration of the event loop and a handle's whole life come to.

**Sockets and timer.** `TcpTask` and `TcpSocket` are the objects of tcp_socket.cpp; `SocketSystem` and
`SocketAccounting` interleave threads on one socket, with callbacks unlocked and the flag set outside the locks. What a
transfer or a drain loop does to a queue is written once, in `TaskQueue`, for both. `SocketAnswers` says, error by error,
what callbacks are told, and that `close` returns after them.
`Timer` and `TimerSystem` do the same for timer.cpp.

## How to read the model

* A byte is a `char`; `"\r"`, `"\n"` and so on are the bytes the source compares with. A `char` above 127 is a byte that
  `isChar` rejects. Character classes are those of the C locale.
* `Config` is a parser's fields and the message together, `Verdict` the outcome of a step or a call: `More` goes on,
  `Stop` carries the result. `Fresh` is a new parser with an empty message.
* `ParsingAborted` is not in the source's enum. It stands for a call that returns none of them: `reserve` throws
  `std::length_error` (a negative Content-Length, chunk sizes that add up past the largest vector), a version number
  overflows an int, or `headers.back()` is taken on an empty list. `AbortCauses` says when a reachable state can abort.
* `strtol` and `atoi` are the C library's on a 64-bit system: `strtol` clamps to a long, `atoi` casts that to an int.
* The printers are the model's own canonical form: `inspect()` of the source is for people and does not parse.
* A system is a state, an `Enabled` predicate and a `Next` function; `Runs` holds of a list of actions each of which is
  enabled when it happens, so a lemma about `After(Initial, actions)` is about every reachable state. What `recv`, `send`
  and `epoll_wait` return is part of the action.

## What the proofs found

* **A continuation line can break the fixpoint.** `chunked` stays set when a continuation line extends a
  Transfer-Encoding value that was "chunked". The request then has no header that frames its body, and its print does
  not parse back to it. `FoldedCodingBreaksFixpoint` gives such an input, `RequestFixpoint` the exact condition, and
  `RequestFixpointWithoutFolds` shows that inputs without such a line meet it. `CanonicalRequests` says which requests can
  result at all: the unframed ones are those with a Transfer-Encoding value that starts with "chunked" and goes on with
  another byte than a space.
* **Some malformed URLs are not rejected: they fail the assertion after the loop.** A URL that ends in a port is one case
  (`http://h:80`); others have a user info before the host, lack the slashes, or go on after the digits with a byte that
  cannot follow them (`http://h:80?q`). `AssertionFailsExactly` gives all of these strings as a grammar, and
  `AbortsExactly` those that run into the unfinished IPv6 case.
* **A status code is read modulo 2^32**: `StatusCodeAccepted` says which digit strings pass.
* **A partial transfer is not remembered.** `do_read` and `do_write` execute a copy of the front task, so after part of an
  UNTIL_FINISHED transfer the queued task still has position 0. `PartialReceiveLosesBytes` shows a run in which a received
  byte is never reported; `BytesReportedAreBytesMoved` shows that the sums agree exactly if no such part was ever moved.
* **The replace branch of `register_handle` is dead code as the repository uses it** (`UseNeverReplaces`): server.cpp:44-45
  and client.cpp:82-83 hand a socket out only after `register_handle` has returned, so nobody can close it before, and
  only the event loop closes acceptors. The class itself does not prevent more: `ReplaceBranchExactly` shows, for runs in
  which each handle is registered and each acceptor closed once, that the branch can be reached if and only if a handle
  has been deregistered before it was inserted. `ReplaceBranchReachableByEarlyClose` is such a run; no call path of the
  repository produces it. Where the branch is taken it closes the new handle's descriptor together with the old handle's,
  since they share the number (`ReplacementIsDead`).
* **The timer's comparison makes due operations wait for later ones** (`DueOperationWaitsForLaterOne`), for any number of
  rounds (`DueOperationCanStarve`), although include/spinet/timer.h:27 offers waiting until a time point.
  `TakeDueEarliestFirst` is a variant that is not in the source: with the comparison reversed a round takes exactly the
  operations that are due.

## Model

| member | source | states |
|---|---|---|
| HttpRequestParser.HttpRequestParser.Parse | example/http/include/httpparser/httprequestparser.h:35-527 | the imperative loop refines the fold `Consume`: same result, same five parser fields and same request, from every state and for every buffer |
| HttpRequestParser.HttpRequestParser.ConsumeRequestLine | example/http/include/httpparser/httprequestparser.h:52-222 | the request line states, field by field, refine the pure step the lemmas are about |
| HttpRequestParser.HttpRequestParser.ConsumeHeaders | example/http/include/httpparser/httprequestparser.h:223-364 | the header states, with the framing decisions at the CR of a value and at the end of the block, refine the pure step |
| HttpRequestParser.HttpRequestParser.ConsumeBody | example/http/include/httpparser/httprequestparser.h:365-520 | the body states refine the pure step, 64-bit sizes and the clamped `strtol` included |
| HttpRequestRuns.FeedIsConsume | example/http/include/httpparser/httprequestparser.h:35-39 | split invariance: any list of successive calls ends with the result, parser fields and request of one call on the concatenation |
| HttpRequestRuns.ConsumeConcat | example/http/include/httpparser/httprequestparser.h:46-52 | a call on two buffers joined is the call on the first and, if that asks for more, on the second |
| HttpRequestInvariant.StepKeepsInv | example/http/include/httpparser/httprequestparser.h:46-527 | every byte keeps the invariant over all states: headers present where the last one is used, sizes positive where they count down, framing fields agreeing with the headers read so far; a byte that completes leaves a request that obeys the rules |
| HttpRequestInvariant.ConsumeKeepsInv | example/http/include/httpparser/httprequestparser.h:46-527 | the same over whole inputs |
| HttpRequestRoundTrip.RequestFixpoint | example/http/include/httpparser/httprequestparser.h:46-527 | for every byte string a fresh parser completes: the request obeys the rules, and parsing its print gives the very same request if and only if a header says chunked or the last Content-Length is the content's length |
| HttpRequestFraming.RequestFixpointWithoutFolds | example/http/include/httpparser/httprequestparser.h:223-325 | without a continuation line on a Transfer-Encoding header the fixpoint holds outright |
| HttpRequestImage.FoldedCodingBreaksFixpoint | example/http/include/httpparser/httprequestparser.h:299-303 | an input that completes with such a line, whose request does not come back from its print |
| HttpRequestRoundTrip.PrintedRequestCompletes | example/http/include/httpparser/httprequestparser.h:46-527 | every framed request that obeys the rules is what its print parses to, on the last byte and not before |
| HttpRequestImage.CanonicalRequests | example/http/include/httpparser/httprequestparser.h:46-527 | over all requests: the print comes back if and only if the request obeys the rules and is framed, and a request is the result of some input if and only if it obeys the rules |
| HttpRequestImage.FoldedMessageRun | example/http/include/httpparser/httprequestparser.h:245-262 | a header block in which any one Transfer-Encoding header goes on in a second line after "chunked", and then any content as a chunk, is read back |
| HttpRequestRoundTrip.ChunkingDoesNotMatter | example/http/include/httpparser/httprequestparser.h:326-520 | for a POST or PUT content cut in any way into chunks with any extensions and trailers, the chunked message and the Content-Length message both complete on their last byte with that same content |
| HttpRequestRoundTrip.EitherFraming | example/http/include/httpparser/httprequestparser.h:287-520 | after any headers without a framing, both a "chunked" header and a printed Content-Length header announce the content, and the two requests have the same one |
| HttpRequestTexts.LengthLine | example/http/include/httpparser/httprequestparser.h:287-298 | in a POST or PUT request a header line with a printed number makes it the length if and only if its name is "Content-Length" in any mixture of cases; the last such line counts |
| HttpRequestTexts.CodingLine | example/http/include/httpparser/httprequestparser.h:299-303 | and a line makes the body chunked if and only if it is "Transfer-Encoding" and "chunked" in any mixture of cases; no other line does, or takes it back |
| HttpRequestTexts.UnframedLine | example/http/include/httpparser/httprequestparser.h:290-292 | for other methods no header line frames anything |
| HttpRequestTexts.ConnectionDecidesKeepAlive | example/http/include/httpparser/httprequestparser.h:329-337 | over every completing input: the first "Connection" header, in any mixture of cases, keeps the connection if and only if its value is "Keep-Alive", in any mixture of cases |
| HttpRequestTexts.VersionDecidesKeepAlive | example/http/include/httpparser/httprequestparser.h:338-346 | and without one version 1.1 and those from 2.0 on keep it |
| HttpRequestTexts.PlainRequest | example/http/include/httpparser/httprequestparser.h:52-364 | any request line and header, written out, of a method other than POST and PUT completes as written |
| HttpRequestTexts.LengthRequest | example/http/include/httpparser/httprequestparser.h:52-373 | a POST or PUT with its length completes with its content, whatever case the header is written in |
| HttpRequestTexts.ChunkedRequest | example/http/include/httpparser/httprequestparser.h:52-520 | the same content as a chunk with a hexadecimal size and the zero chunk, written out |
| HttpRequestTexts.ExtendedBody | example/http/include/httpparser/httprequestparser.h:392-492 | a chunk with an extension and a value, and a trailer, written out |
| HttpRequestTexts.ContinuationLine | example/http/include/httpparser/httprequestparser.h:223-262 | a line that starts with any spaces and tabs goes on with the value of the last header, without them |
| HttpRequestTexts.SimpleRequest | example/http/include/httpparser/httprequestparser.h:90-103 | a request of version 0.9 completes at the CR after the uri |
| HttpRequestTexts.ByteAfterLastCr | example/http/include/httpparser/httprequestparser.h:348-362 | the byte after the CR of the empty line is not looked at if a body follows, and must be the LF otherwise |
| HttpNames.HeaderSpelling | example/http/include/httpparser/httprequestparser.h:293-301 | the five comparisons of names and values, byte by byte as upper or lower case letters |
| HttpNames.TokenCharacters | example/http/include/httpparser/httprequestparser.h:530-555 | the characters of methods and header names are the token characters of section 3.2.6 of RFC 7230 |
| HttpRequestBody.ChunkedRun | example/http/include/httpparser/httprequestparser.h:374-520 | every chunked body of the grammar completes on its last byte and appends the concatenation of its chunks to the content |
| HttpRequestBody.ChunkedBack | example/http/include/httpparser/httprequestparser.h:374-520 | the converse: any input that completes from the start of a chunked body begins with a body of the grammar, whose data is what was appended |
| HttpRequestBody.SizeLineRun | example/http/include/httpparser/httprequestparser.h:374-440 | a size of any alphanumerics with any extension goes through `strtol` base 16 to chunk data, or to the trailers when it reads as zero |
| HttpRequestBody.SizeLineBack | example/http/include/httpparser/httprequestparser.h:374-440 | and nothing else passes as a size line |
| HttpRequestBody.TrailersRun | example/http/include/httpparser/httprequestparser.h:441-492 | any list of trailers and the empty line after it complete the parse on the final LF without touching the request |
| HttpRequestBody.TrailersBack | example/http/include/httpparser/httprequestparser.h:441-492 | and any input that completes after the zero chunk starts with such a list |
| HttpRequestRuns.PostRun | example/http/include/httpparser/httprequestparser.h:365-373 | a Content-Length body takes exactly `contentSize` bytes: fewer leave the parser waiting with the rest counted, the last one completes |
| HttpRequestRuns.HeadersRun | example/http/include/httpparser/httprequestparser.h:223-325 | a printed header block is read back as it is, with `contentSize` and `chunked` as its headers say |
| HttpRequestRoundTrip.WrongLength | example/http/include/httpparser/httprequestparser.h:326-373 | without chunks and with another Content-Length, whatever completes has another content |
| HttpRequestFraming.HeadersDecideFraming | example/http/include/httpparser/httprequestparser.h:287-364 | when the header block ends, `contentSize` is the last Content-Length (0 for other methods), keepAlive follows the first Connection header or the version, and without continuation lines on a Transfer-Encoding header `chunked` holds if and only if one of them says "chunked" |
| HttpRequestFraming.NothingAfterZeroChunk | example/http/include/httpparser/httprequestparser.h:424-492 | after the zero chunk no input changes the request any more, though trailers lead back to the state that reads a size |
| HttpRequestFraming.AbortCauses | example/http/include/httpparser/httprequestparser.h:174-440 | in a reachable state a step aborts only for a version past an int, a negative Content-Length, or chunk sizes past the largest vector; never for `headers.back()` of an empty list |
| HttpRequestInvariant.ContentLengthRange | example/http/include/httpparser/httprequestparser.h:294-298 | accepted Content-Length values lie between 0 and the largest int |
| HttpBisimulation.Bisimulation | example/http/include/httpparser/httpresponseparser.h:225-520 | from the first header on the response parser and the request parser (POST or PUT) stay in corresponding configurations on every input, give the same result, and leave the status line alone |
| HttpResponseParser.HttpResponseParser.Parse | example/http/include/httpparser/httpresponseparser.h:36-527 | the imperative loop refines the fold `Consume`: same result, fields and response |
| HttpResponseParser.HttpResponseParser.ConsumeStatusLine | example/http/include/httpparser/httpresponseparser.h:53-224 | the status line states refine the pure step, with the 32-bit wrap-around of the status code |
| HttpResponseParser.HttpResponseParser.ConsumeHeaders | example/http/include/httpparser/httpresponseparser.h:225-364 | the header states refine the pure step |
| HttpResponseParser.HttpResponseParser.ConsumeBody | example/http/include/httpparser/httpresponseparser.h:365-520 | the body states refine the pure step |
| HttpResponseRoundTrip.ConsumeConcat | example/http/include/httpparser/httpresponseparser.h:36-53 | a call on two buffers joined is the call on the first and, if that asks for more, on the second |
| HttpResponseRoundTrip.ConsumeKeepsInv | example/http/include/httpparser/httpresponseparser.h:47-527 | every run keeps the invariant; whatever completes has a status code from 100 to 999, a CR-free reason and a message that obeys the rules |
| HttpResponseRoundTrip.StatusCodeRun | example/http/include/httpparser/httpresponseparser.h:158-173 | the accumulator holds the decimal reading of any number of digits modulo 2^32 |
| HttpResponseRoundTrip.StatusCodeAccepted | example/http/include/httpparser/httpresponseparser.h:158-189 | digits pass as a status code if and only if that remainder has three digits |
| HttpResponseRoundTrip.StatusLineRun | example/http/include/httpparser/httpresponseparser.h:53-224 | every version, code from 100 to 999 and non-empty reason of 7-bit characters (no CR after the first) is read back from its print |
| HttpResponseRoundTrip.PrintedResponseCompletes | example/http/include/httpparser/httpresponseparser.h:47-527 | every framed response that obeys the rules is what its print parses to |
| HttpResponseRoundTrip.ResponseFixpoint | example/http/include/httpparser/httpresponseparser.h:47-527 | for every byte string a fresh response parser completes, the print comes back as the very same response if and only if the headers frame the content |
| HttpResponseFraming.CanonicalResponses | example/http/include/httpparser/httpresponseparser.h:47-527 | over all responses: the print comes back if and only if the response obeys the rules and is framed, and a response is the result of some input if and only if it obeys the rules |
| HttpResponseFraming.ResponseFixpointWithoutFolds | example/http/include/httpparser/httpresponseparser.h:225-325 | for every completing input without a continuation line on a Transfer-Encoding header the fixpoint holds outright |
| HttpResponseFraming.HeadersDecideFraming | example/http/include/httpparser/httpresponseparser.h:289-364 | when the header block ends, `contentSize`, `chunked` and keepAlive are functions of the headers, as for requests |
| HttpResponseFraming.ChunkedRun | example/http/include/httpparser/httpresponseparser.h:374-520 | every chunked body of the grammar completes on its last byte and appends its data |
| HttpResponseFraming.ChunkedBack | example/http/include/httpparser/httpresponseparser.h:374-520 | any input that completes from the start of a chunked body begins with a body of the grammar, whose data is what was appended |
| HttpResponseFraming.ChunkingDoesNotMatter | example/http/include/httpparser/httpresponseparser.h:325-520 | the chunked and the Content-Length message of one content give responses with that content |
| HttpResponseFraming.NothingAfterZeroChunk | example/http/include/httpparser/httpresponseparser.h:424-492 | after the zero chunk no input changes the response any more |
| HttpResponseFraming.AbortCauses | example/http/include/httpparser/httpresponseparser.h:118-440 | in a reachable state a step aborts only for a version past an int, a negative Content-Length, or chunk sizes past the largest vector |
| HttpResponseTexts.LengthLine | example/http/include/httpparser/httpresponseparser.h:289-304 | a header line with a printed number makes it the length if and only if its name is "Content-Length" in any mixture of cases |
| HttpResponseTexts.CodingLine | example/http/include/httpparser/httpresponseparser.h:289-306 | a line makes the body chunked if and only if it is "Transfer-Encoding" and "chunked" in any mixture of cases |
| HttpResponseTexts.ConnectionDecidesKeepAlive | example/http/include/httpparser/httpresponseparser.h:325-346 | over every completing input the first "Connection" header decides, as for requests |
| HttpResponseTexts.VersionDecidesKeepAlive | example/http/include/httpparser/httpresponseparser.h:325-346 | and without one the version, as for requests |
| HttpResponseTexts.LengthResponse | example/http/include/httpparser/httpresponseparser.h:53-373 | a response with its length, written out, completes as written, whatever case the header is in |
| HttpResponseTexts.ChunkedResponse | example/http/include/httpparser/httpresponseparser.h:53-520 | the same content as a chunk, written out |
| HttpResponseTexts.ByteAfterLastCr | example/http/include/httpparser/httpresponseparser.h:325-364 | the byte after the CR of the empty line is not looked at if a body follows, and must be the LF otherwise |
| Numerals.StrtolReadsPrint | example/http/include/httpparser/httprequestparser.h:427 | `strtol` reads a printed number back in base 10 and 16, up to the largest long |
| Numerals.AtoiReadsPrint | example/http/include/httpparser/httprequestparser.h:296 | `atoi` reads a printed int back |
| Numerals.StrtolReadsDecimal | example/http/include/httpparser/httprequestparser.h:296 | `strtol` in base 10 skips white space, takes a sign, reads the digits, leaves the rest, and clamps to 64 bits |
| Numerals.StrtolReadsPrefixedHex | example/http/include/httpparser/httprequestparser.h:427 | in base 16 it takes a "0x" before the digits |
| Numerals.AtoiWraps | example/http/include/httpparser/httprequestparser.h:296 | `atoi` wraps to 32 bits |
| UrlParser.UrlParser.ParseUrl | example/http/include/httpparser/urlparser.h:130-347 | the loop with its two scratch strings and their swaps refines the fold: validity, every component, abort and assertion failure |
| UrlNormalForm.UrlFixpoint | example/http/include/httpparser/urlparser.h:130-347 | for every string that parses as valid, printing the components and parsing again gives the same URL in every field |
| UrlNormalForm.ParseOfPrint | example/http/include/httpparser/urlparser.h:130-347 | every URL that obeys the rules is what its print parses to |
| UrlNormalForm.UrlImage | example/http/include/httpparser/urlparser.h:130-347 | the URLs that can result are exactly those that obey the rules, a password being empty or holding a byte that is no digit |
| UrlNormalForm.ScanKeepsInv | example/http/include/httpparser/urlparser.h:157-341 | every scan keeps, state by state, what has been filled in and which characters it may hold |
| UrlFailures.AssertionFailsExactly | example/http/include/httpparser/urlparser.h:130-343 | a string fails the final assertion if and only if it is one of the grammar: scheme, slashes or none, user info or none, host, a colon, digits, and then the end or a byte that cannot follow them |
| UrlFailures.PendingIsUnfinished | example/http/include/httpparser/urlparser.h:157-343 | from every scan before the path: if digits are pending at the end, what was read and what is left together are a string of the grammar |
| UrlFailures.UnfinishedPortFails | example/http/include/httpparser/urlparser.h:267-343 | every string of the grammar fails it |
| UrlFailures.AbortsExactly | example/http/include/httpparser/urlparser.h:242-266 | a string aborts if and only if a bracket opens the host after a user info and is not the last byte |
| UrlNormalForm.HttpPortIsPortModulo | example/http/include/httpparser/urlparser.h:92-110 | a given port is its decimal value modulo 65536 (65535 past a long), hence exact if and only if it is below 65536 |
| UrlTexts.DefaultPort | example/http/include/httpparser/urlparser.h:92-105 | for every string that parses as valid without a port: 443 if it is "https" or starts with "https:", and 80 otherwise |
| UrlTexts.FullUrl | example/http/include/httpparser/urlparser.h:157-341 | a URL with all components, written out, parses into exactly these, a port below 65536 into its value |
| UrlTexts.HostUrl | example/http/include/httpparser/urlparser.h:113-128 | a host alone is accepted if and only if its bytes are unreserved characters of section 2.3 of RFC 3986 or "%" |
| UrlTexts.QueryDropsMarks | example/http/include/httpparser/urlparser.h:323-336 | a further "?" in a query is dropped |
| Runtime.Runtime.RegisterHandle | src/core/runtime.cpp:59-97 | both branches, on the fields and on the kernel's interest set; a new handle of an open descriptor is watched for exactly the five events of a socket or the two of an acceptor; the registry stays in agreement |
| Runtime.Runtime.ReplaceHandle | src/core/runtime.cpp:77-96 | the replace branch: the old handle is detached, kept removable and closed before the new one takes its place |
| Runtime.Runtime.DeregisterHandle | src/core/runtime.cpp:99-119 | removes the handle only if it is the one registered under its descriptor, and keeps it removable |
| Runtime.Runtime.ReleaseAllHandles | src/core/runtime.cpp:169-195 | all three collections are emptied and every registered handle is detached, in whatever order the map is walked |
| Runtime.Handle.Close | src/core/handle.cpp:11-16 | the calls made for the handle are `deregister_handle`, if it has a runtime, and then `::close`, with their effect on the registry; a second close of a socket makes none |
| RuntimeSafety.RunKeepsInv | src/core/runtime.cpp:59-167 | every run of event loop, registrations and closes keeps the registry, interest and raw pointer invariants |
| RuntimeSafety.RawPointersAreOwned | src/core/runtime.cpp:125-162 | reclamation safety: in every reachable state each raw pointer of the batch or of the socket copy is owned by the registry, the removable handles or the registration that holds the mutex |
| RuntimeSafety.RegistryAgrees | src/core/runtime.cpp:59-119 | in every reachable state keys are their handles' descriptors, and `all_sockets_` is exactly the sockets of `all_handles_` when no registration is half done |
| RuntimeSafety.OnlyOpenIsWatched | src/core/runtime.cpp:75-119 | in every reachable state the event loop watches open descriptors only |
| RuntimeLoop.IterationRuns | src/core/runtime.cpp:124-163 | whatever watched handles `epoll_wait` reports, an undisturbed iteration runs to its end, and all it changes is that the removable handles are dropped |
| RuntimeLoop.EveryEventIsDispatched | src/core/runtime.cpp:126-147 | whatever other threads do, each event of the batch is dispatched once and in order before the sweep |
| RuntimeLoop.EverySocketIsSwept | src/core/runtime.cpp:148-158 | and each socket registered at the snapshot is swept before the iteration ends |
| RuntimeLoop.HeadCanBeClosed | src/core/runtime.cpp:130-144 | the loop can close the handle whose event it is at, and goes on when that call has returned |
| RuntimeLoop.CloseUndoesRegister | src/core/runtime.cpp:59-119 | registering a new handle and closing it runs through, closes its descriptor, and leaves nothing of it but its entry among the removable handles |
| RuntimeLoop.ReleaseLeavesNothing | src/core/runtime.cpp:165-195 | when the loop has stopped nothing stays registered, kept, watched or attached, and it can be started again |
| RuntimeDescriptors.RunKeepsFresh | src/core/handle.cpp:11-16 | every run that registers each handle and closes each acceptor once, and has not replaced, keeps: the open descriptors are those of the handles whose close has not returned, and a registered handle not past its deregistration is watched with its mask |
| RuntimeDescriptors.RunLosesNone | src/core/runtime.cpp:59-119 | and if no handle is deregistered before it is inserted, no handle is ever in the registry past its deregistration |
| RuntimeDescriptors.ReplaceBranchUnreachable | src/core/runtime.cpp:77-96 | over every such run `register_handle` never finds a previous entry |
| ReplaceBranch.ReplaceBranchExactly | src/core/runtime.cpp:59-97 | after any run that registers each handle and closes each acceptor once, and has not replaced: steps that lose no further handle can reach the branch if and only if a waiting or registered handle is past its deregistration |
| ReplaceBranch.LostHandleReaches | src/core/runtime.cpp:66-96 | from every state with such a handle, at whatever stage it and the handle that now has its descriptor number are, some continuation reaches the branch |
| RuntimeUsage.UsedRunIsDisciplined | src/server.cpp:44-45 | handing sockets out after their registration, and closing acceptors in the event loop only, closes no acceptor twice and deregisters no handle before its insertion |
| RuntimeUsage.UseNeverReplaces | src/core/runtime.cpp:77-96 | so the branch is never taken in a run of the repository's use |
| ReplaceBranch.ReplaceBranchReachableByEarlyClose | src/core/runtime.cpp:77-96 | a run that closes a socket before its registration has inserted it, and goes on to the branch |
| ReplaceBranch.EarlyCloseLeavesDeadEntry | src/core/runtime.cpp:62-76 | a close that overtakes a registration leaves a closed descriptor in the registry |
| RuntimeDescriptors.InterestIsRegistry | src/core/runtime.cpp:67-119 | over every run that loses no handle the interest set is the map of registered handles, each with the mask of its kind |
| RuntimeLoop.WatchedEvents | src/core/runtime.cpp:69-73 | over every run that loses no handle: an acceptor is watched for EPOLLIN and EPOLLRDHUP, a socket for these and EPOLLPRI, EPOLLOUT and EPOLLET, so each event the loop tests for is watched |
| RuntimeLoop.ReplacementIsDead | src/core/runtime.cpp:77-96 | where the replace branch is taken on a handle not closed before, the new handle ends up registered with a closed and unwatched descriptor |
| RuntimeDescriptors.ClosesOwnDescriptor | src/core/handle.cpp:11-16 | over every run that registers each handle and closes each acceptor once, and has not replaced, `::close` closes the handle's own descriptor, never one that has been handed out again |
| TcpTask.TcpReadTask.ExecRead | src/core/tcp_socket.cpp:23-44 | one call on the object and its buffer is the specification's step, with its error code |
| TcpTask.TcpWriteTask.ExecWrite | src/core/tcp_socket.cpp:72-93 | the same for sending, which leaves the buffer alone |
| TcpTask.ExecExtendsPrefix | src/core/tcp_socket.cpp:23-44 | a call extends the moved prefix by the bytes moved, leaves the rest of the buffer alone, never passes the end, and finishes exactly as the strategy says |
| TcpTask.RunAccumulates | src/core/tcp_socket.cpp:23-44 | over any calls on one object the first `pos_` bytes are the concatenation of the bytes moved; UNTIL_FINISHED with a non-empty buffer has finished if and only if it is full, TRY if and only if anything moved |
| TcpSocket.TcpSocket.AsyncRead | src/core/tcp_socket.cpp:125-143 | accepted exactly when not closed; by value the queue is the old one and a new task without progress |
| TcpSocket.TcpSocket.AsyncWrite | src/core/tcp_socket.cpp:145-163 | the same for writes |
| TcpSocket.TcpSocket.DoRead | src/core/tcp_socket.cpp:207-226 | EAGAIN tells nobody and leaves the queue; any other error, and a closed peer as EBADF, ends the front task with it; a transfer ends it with the new position if it was to be tried once or its buffer is full; a partial one changes the buffer and not the position; unless buffers are shared the queue becomes what the step of SocketSystem makes of it |
| TcpSocket.TcpSocket.DoWrite | src/core/tcp_socket.cpp:228-247 | the same for writes |
| TcpSocket.TcpSocket.DrainReads | src/core/tcp_socket.cpp:181-190 | the loop tells every queued read EBADF and its position, in queue order, and ends with an empty queue |
| TcpSocket.TcpSocket.DrainWrites | src/core/tcp_socket.cpp:191-200 | the same for writes |
| TcpSocket.TcpSocket.Close | src/core/tcp_socket.cpp:175-201 | the first close closes the handle, then tells every queued read and then every queued write; a later one does nothing |
| SocketAccounting.RunKeepsInv | src/core/tcp_socket.cpp:125-247 | every interleaving of pushes, cancels, transfers, callbacks and the drain loops keeps order, places, bytes and the hand-over between flag and locks |
| SocketAccounting.EachTaskIsInOnePlace | src/core/tcp_socket.cpp:125-247 | exactly-once accounting: in every reachable state each accepted task is once in exactly one of queued, callback due, called back, cancelled |
| TaskQueue.OutcomeAnswers | src/core/tcp_socket.cpp:217-225 | for a task that has not finished, what is told is given by cases on what the transfer did |
| SocketAnswers.TransfersAreAnswered | src/core/tcp_socket.cpp:207-247 | in every reachable state: after EAGAIN nothing changes and nobody is told; after any other error, or a closed peer (EBADF), the front task has left with that error and no bytes; after a transfer that makes it done it has left with the bytes moved; otherwise it stays without progress |
| SocketAnswers.DrainsAreAnswered | src/core/tcp_socket.cpp:183-199 | in every reachable state a drained task is told EBADF and that nothing was moved |
| SocketAnswers.EachCallbackHasItsArguments | src/core/tcp_socket.cpp:175-247 | in every reachable state each callback that is due or has been called has its arguments exactly once, and no other has any |
| SocketAnswers.OpenSocketsAccept | src/core/tcp_socket.cpp:125-163 | an open socket accepts a task at the end of the queue, a closed one changes nothing |
| SocketAnswers.CancelTellsNobody | src/core/tcp_socket.cpp:165-169 | `cancel` empties both queues and makes no callback due |
| SocketAnswers.SentIsFrontOfBuffer | src/core/tcp_socket.cpp:72-93 | in every reachable state what is sent is the front of the buffer, from its first byte on |
| SocketAccounting.TasksLeaveInOrder | src/core/tcp_socket.cpp:125-247 | in every reachable state the tasks that have left and the tasks queued are the accepted ones in order |
| SocketAccounting.NothingIsStranded | src/core/tcp_socket.cpp:175-201 | once the winning close has returned, both queues are empty in every later state, whatever raced it |
| SocketAccounting.DrainLoopsEnd | src/core/tcp_socket.cpp:181-200 | over every run after the flag is set, whatever else happens, a drain loop turns at most as often as there are tasks queued or past the flag at that moment |
| SocketAnswers.CallbacksComeBeforeReturn | src/core/tcp_socket.cpp:181-200 | `close` does not return before the callback of each task that it drained has been called |
| SocketAnswers.CloseCanReturn | src/core/tcp_socket.cpp:175-201 | from every reachable state in which `close` has begun there is a continuation in which it returns |
| SocketAnswers.NoTransferAfterClose | src/core/tcp_socket.cpp:207-234 | once the flag is set and the transfers under way are over, nothing is received or sent |
| SocketAccounting.BytesReportedAreBytesMoved | src/core/tcp_socket.cpp:207-247 | in every reachable state the successful callbacks' buffers concatenate to the bytes moved if and only if no UNTIL_FINISHED transfer moved a part only |
| SocketAccounting.PartialReceiveLosesBytes | src/core/tcp_socket.cpp:215-217 | a run in which a byte is received and never reported |
| Timer.Timer.TakeDue | src/timer.cpp:56-69 | a round takes the whole queue, latest deadline first, if all of it is due, and nothing otherwise |
| TimerSystem.DueOperationCanStarve | include/spinet/timer.h:33-35 | for every n there is a run with n rounds, at ever later times, each of which finds an operation due and leaves it queued |
| TimerSystem.RunKeepsInv | src/timer.cpp:52-107 | every interleaving of the timer thread with callers and stop keeps the counts, the deadlines and the blocking condition |
| TimerSystem.EachOperationIsInOnePlace | src/timer.cpp:52-107 | in every reachable state each accepted operation is once in exactly one of queued, taken, fired, discarded |
| TimerSystem.OnlyStopEnds | src/timer.cpp:53-93 | over every run: from a start on, the thread does not end and nothing is discarded before `stop` is called |
| TimerSystem.NothingIsDiscardedWithoutStop | src/timer.cpp:52-107 | in a run without `stop` each accepted operation is queued, taken or fired, once |
| TimerSystem.StoppedThreadCanEnd | src/timer.cpp:70-93 | a stopped thread can end by itself: it fires what it has taken, in order, and discards what is queued |
| TimerSystem.NoRoundAfterStop | src/timer.cpp:54-81 | after `stop` no round begins before the next start, and a blocked thread has been notified |
| TimerSystem.RoundFiresInOrder | src/timer.cpp:70-72 | a round fires what it has taken, all of it and in that order |
| TimerSystem.NoRoundBeforeWake | src/timer.cpp:74-77 | a thread that finds the queue empty begins no round before it is woken |
| TimerSystem.ThreadGoesOn | src/timer.cpp:52-93 | in every state the thread has a step of its own, so that it is never stuck |
| TimerSystem.NothingFiresEarly | src/timer.cpp:57-72 | no callback has run before its deadline |
| TimerSystem.NeverBlockedWithWork | src/timer.cpp:75-80 | the thread is never blocked without a notification under way while operations are queued |

## Left out

- System calls and the kernel (epoll, recv, send, accept, fcntl, getaddrinfo): their results are part of the actions; EINTR
  and short event arrays are no different from other results.
- Liveness of `run` and `stop`: `exec` resets `stopped_` when its thread starts, and `stop` may fall between the timer's
  look at `stopped_` and its wait, so "stop always returns" does not hold.
- The loops of `Runtime::exec` and `Timer::exec` as methods: they are the event loop's steps in RuntimeSystem and the
  timer thread's in TimerSystem, because other threads act between any two of them.
- Data races on the weak pointer `runtime_`, and the mutexes themselves: a region under a mutex is one step, except that
  `epoll_wait` may fall between the `epoll_ctl` call and the insertion of a registration.
- Re-entrancy from callbacks while the replace branch holds `handles_mtx_`: there the close of the previous handle is part
  of the registering step.
- More than one close, or more than one registration, of the same handle under way at the same time; `compare_exchange_weak`
  is taken not to fail spuriously.
- ReplaceBranch.ReplaceBranchExactly: about runs that register each handle once and close each acceptor once (a socket's
  flag sees to its part), since an acceptor that is closed twice can close somebody else's descriptor.
- What `do_accept`, `do_read` and `do_write` do inside the event loop's dispatch: their effect on a socket is SocketSystem's,
  their effect on the runtime is that of the register and close steps, which may happen at any point.
- Two queued tasks that share memory: in SocketSystem each task has its own buffer. The classes of TcpSocket may share
  arrays; there `DoRead` is tied to SocketSystem's step only if no queued read shares the front task's buffer.
- Callbacks that throw or never return, and callbacks destroyed by `cancel` without being called.
- Use of a parser after completion or an error: it has no reset, and `Parse` says only that it goes on from the fields it has.
- Memory exhaustion in `reserve`, and the growth policy of strings and vectors.
- `inspect()` of requests and responses, which is not parsed by anything.
- IPv6 hosts in URLs: `abort()` is an outcome of its own.
- The orders in which equal deadlines leave the priority queue: any is allowed.
- Durations, precision and sleeping of the timer, and clocks: `now` is an input of each round.
- Server, Client, Address, Result, worker selection, and the example servers and their header buffering.
