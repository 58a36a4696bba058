/**
  Framing, chunks and the image of the response parser: the request parser's results, carried over by the
  bisimulation. A response is read like a POST request from its first header on.
 */
module HttpResponseFraming {
  import opened Ascii
  import opened Numerals
  import opened HttpMessage
  import opened HttpChunks
  import opened HttpResponseParser
  import opened HttpBisimulation
  import opened HttpResponseRoundTrip
  import Req = HttpRequestParser
  import ReqInv = HttpRequestInvariant
  import ReqRuns = HttpRequestRuns
  import ReqBody = HttpRequestBody
  import ReqTrip = HttpRequestRoundTrip
  import ReqFraming = HttpRequestFraming
  import ReqImage = HttpRequestImage
  import opened Options

  function AsPost(s: Config): Req.Config
    requires !InStatusLine(s.state)
  {
    Twin(s, "POST", "/")
  }

  /** Some continuation line of a Transfer-Encoding header is read from `s` on. */
  predicate FoldsTransferEncoding(s: Config, input: string)
    decreases |input|
  {
    if !InStatusLine(s.state) then ReqFraming.FoldsTransferEncoding(AsPost(s), input)
    else
      input != "" &&
      match Step(s, input[0])
      case More(t) => FoldsTransferEncoding(t, input[1..])
      case Stop(_, _) => false
  }

  predicate NoFoldInv(s: Config) {
    !InStatusLine(s.state) ==> ReqFraming.NoFoldInv(AsPost(s))
  }

  predicate NoFoldVerdict(v: Verdict) {
    match v
    case More(t) => NoFoldInv(t)
    case Stop(result, last) => result == ParsingCompleted ==> Framed(last.resp)
  }

  lemma NotYetChunked(s: Config)
    requires StatusLineInv(s)
    ensures !s.chunked
  {
  }

  lemma StatusLineNoFold(s: Config, c: char)
    requires Inv(s) && InStatusLine(s.state)
    ensures match Step(s, c) case More(t) => Inv(t) && NoFoldInv(t) case Stop(result, _) => result != ParsingCompleted
  {
    hide StepHeaders, StepBody, StatusLineInv, ReqInv.Inv, SaysChunked, ReqInv.RequestRules, StatusDone;
    StatusLineStep(s, c);
    NotYetChunked(s);
  }

  lemma MessageNoFold(s: Config, input: string)
    requires Inv(s) && NoFoldInv(s) && !InStatusLine(s.state) && !FoldsTransferEncoding(s, input)
    ensures NoFoldVerdict(Consume(s, input))
  {
    hide Consume, Req.Consume, ReqInv.Inv, ReqFraming.NoFoldInv, ReqFraming.FoldsTransferEncoding, SaysChunked,
         ContentLength;
    Bisimulation(s, "POST", "/", input);
    ReqFraming.NoFoldRun(AsPost(s), input);
  }

  lemma {:induction false} NoFoldRun(s: Config, input: string)
    requires Inv(s) && NoFoldInv(s) && !FoldsTransferEncoding(s, input)
    ensures NoFoldVerdict(Consume(s, input))
    decreases |input|
  {
    hide Step, Inv, NoFoldInv, Framed;
    if !InStatusLine(s.state) {
      MessageNoFold(s, input);
    } else if input != "" {
      StatusLineNoFold(s, input[0]);
      match Step(s, input[0]) {
        case More(t) => NoFoldRun(t, input[1..]);
        case Stop(_, _) =>
      }
    }
  }

  /** Without a continuation line on a Transfer-Encoding header, the fixpoint holds outright. */
  lemma ResponseFixpointWithoutFolds(input: string, r: Response)
    requires Completes(input, r) && !FoldsTransferEncoding(Fresh, input)
    ensures Completes(PrintResponse(r), r)
  {
    hide Consume, PrintResponse, FoldsTransferEncoding;
    NoFoldRun(Fresh, input);
    ResponseFixpoint(input, r);
  }

  lemma KeepAliveOf(s: Config)
    requires !s.resp.keepAlive
    ensures DecideKeepAlive(s.resp).keepAlive == KeepsAlive(s.resp.versionMajor, s.resp.versionMinor, s.resp.headers)
  {
  }

  /** Framing is a function of the headers: what the parser has decided when the block of headers ends. */
  lemma HeadersDecideFraming(input: string, s: Config)
    requires Consume(Fresh, input) == More(s) && s.state == ExpectingNewline_3
    ensures s.contentSize == ContentLength(s.resp.headers)
    ensures SaysChunked(s.resp.headers) ==> s.chunked
    ensures !FoldsTransferEncoding(Fresh, input) ==> (s.chunked <==> SaysChunked(s.resp.headers))
    ensures DecideKeepAlive(s.resp).keepAlive == KeepsAlive(s.resp.versionMajor, s.resp.versionMinor, s.resp.headers)
  {
    hide Consume, FoldsTransferEncoding, DecideKeepAlive, KeepsAlive, SaysChunked, ContentLength;
    ConsumeKeepsInv(Fresh, input);
    if !FoldsTransferEncoding(Fresh, input) {
      NoFoldRun(Fresh, input);
    }
    KeepAliveOf(s);
  }

  /** After the zero chunk no input changes the response any more. */
  lemma NothingAfterZeroChunk(s: Config, input: string)
    requires s.chunkSizeStr == "" && |s.resp.content| <= LONG_MAX
    requires s.state in {ChunkSizeNewLine, ChunkSizeNewLine_2, ChunkSizeNewLine_3, ChunkTrailerName, ChunkTrailerValue}
    ensures
      match Consume(s, input)
      case More(t) => t.resp == s.resp
      case Stop(_, last) => last.resp == s.resp
  {
    hide Consume, Req.Consume;
    Bisimulation(s, "POST", "/", input);
    ReqFraming.NothingAfterZeroChunk(AsPost(s), input);
  }

  lemma StatusLineAbortCause(s: Config, c: char)
    requires Inv(s) && InStatusLine(s.state) && Step(s, c).Stop? && Step(s, c).result == ParsingAborted
    ensures
      || (s.state == ResponseHttpVersion_major && s.resp.versionMajor * 10 + c as int > INT_MAX)
      || (s.state == ResponseHttpVersion_minor && s.resp.versionMinor * 10 + c as int > INT_MAX)
  {
    hide StepHeaders, StepBody, Inv;
  }

  /** In a reachable state a step aborts for these reasons only. */
  lemma AbortCauses(s: Config, c: char)
    requires Inv(s) && Step(s, c).Stop? && Step(s, c).result == ParsingAborted
    ensures
      || (s.state == ResponseHttpVersion_major && s.resp.versionMajor * 10 + c as int > INT_MAX)
      || (s.state == ResponseHttpVersion_minor && s.resp.versionMinor * 10 + c as int > INT_MAX)
      || (s.state == HeaderValue && s.resp.headers != [] &&
          var h := s.resp.headers[|s.resp.headers| - 1]; IsContentLength(h) && Atoi(h.value) < 0)
      || (s.state == ChunkSizeNewLine && |s.resp.content| + Strtol(s.chunkSizeStr, 16) > LONG_MAX)
  {
    hide Step, Req.Step, Atoi, Strtol, IsContentLength, ReqInv.Inv, StatusLineInv;
    if InStatusLine(s.state) {
      StatusLineAbortCause(s, c);
    } else {
      StepBisimulation(s, "POST", "/", c);
      ReqFraming.AbortCauses(AsPost(s), c);
    }
  }

  /** The parse completes, and it does so on the last byte of the input. */
  predicate CompletesExactly(s: Config, input: string, last: Config) {
    && input != ""
    && Consume(s, input[..|input| - 1]).More?
    && Consume(s, input) == Stop(ParsingCompleted, last)
  }

  lemma CarryOver(s: Config, input: string, t: Req.Config) returns (last: Config)
    requires !InStatusLine(s.state) && ReqRuns.CompletesExactly(AsPost(s), input, t)
    ensures CompletesExactly(s, input, last) && !InStatusLine(last.state) && AsPost(last) == t
    ensures last.resp.statusCode == s.resp.statusCode && last.resp.status == s.resp.status
  {
    hide Consume, Req.Consume;
    Bisimulation(s, "POST", "/", input);
    Bisimulation(s, "POST", "/", input[..|input| - 1]);
    last := Consume(s, input).last;
  }

  /** A chunked body is read back whole, however it is cut. */
  lemma ChunkedRun(s: Config, body: ChunkedBody) returns (last: Config)
    requires s.state == ChunkSize && s.chunkSizeStr == "" && s.chunkSize == 0
    requires BodyOk(body) && |s.resp.content| + |Data(body.chunks)| <= LONG_MAX
    ensures CompletesExactly(s, PrintChunked(body), last)
    ensures last.resp == s.resp.(content := s.resp.content + Data(body.chunks))
  {
    hide CompletesExactly, ReqRuns.CompletesExactly, PrintChunked;
    var twin := AsPost(s);
    ReqBody.ChunkedRun(twin, body);
    var t := twin.(state := Req.ChunkSizeNewLine_3,
                   req := twin.req.(content := twin.req.content + Data(body.chunks)));
    last := CarryOver(s, PrintChunked(body), t);
  }

  /** And whatever completes from there starts with a chunked body. */
  lemma ChunkedBack(s: Config, input: string) returns (body: ChunkedBody, leftover: string)
    requires s.state == ChunkSize && s.chunkSizeStr == "" && s.chunkSize == 0 && |s.resp.content| <= LONG_MAX
    requires Consume(s, input).Stop? && Consume(s, input).result == ParsingCompleted
    ensures BodyOk(body) && |s.resp.content| + |Data(body.chunks)| <= LONG_MAX
    ensures input == PrintChunked(body) + leftover
    ensures Consume(s, input).last.resp.content == s.resp.content + Data(body.chunks)
  {
    hide Consume, Req.Consume, PrintChunked;
    Bisimulation(s, "POST", "/", input);
    body, leftover := ReqBody.ChunkedBack(AsPost(s), input);
  }

  /** After a status line, what completes the message completes the response. */
  lemma AfterStatusLine(r: Response, message: string, t: Req.Config)
    requires StatusDone(r) && ReqInv.VersionOk(r.versionMajor) && ReqInv.VersionOk(r.versionMinor)
    requires ReqRuns.CompletesExactly(AsPost(LineRead(r)), message, t)
    requires t.req.versionMajor == r.versionMajor && t.req.versionMinor == r.versionMinor
    ensures Completes(PrintStatusLine(r) + message,
                      r.(headers := t.req.headers, content := t.req.content, keepAlive := t.req.keepAlive))
  {
    hide Consume, CompletesExactly, ReqRuns.CompletesExactly, PrintStatusLine, StatusOk;
    StatusLineRun(r);
    ConsumeConcat(Fresh, PrintStatusLine(r), message);
    var last := CarryOver(LineRead(r), message, t);
    ExactEnd(LineRead(r), message, last);
  }

  lemma ExactEnd(s: Config, input: string, last: Config)
    requires CompletesExactly(s, input, last)
    ensures Consume(s, input) == Stop(ParsingCompleted, last)
  {
  }

  /** Chunking does not matter for responses either. */
  lemma ChunkingDoesNotMatter(r: Response, chunkedHeaders: seq<Header>, body: ChunkedBody, lengthHeaders: seq<Header>)
    returns (chunked: Response, plain: Response)
    requires StatusDone(r) && ReqInv.VersionOk(r.versionMajor) && ReqInv.VersionOk(r.versionMinor)
    requires HeadersOk(chunkedHeaders) && LengthsOk(chunkedHeaders) && SaysChunked(chunkedHeaders)
    requires BodyOk(body) && |Data(body.chunks)| <= LONG_MAX
    requires HeadersOk(lengthHeaders) && LengthsOk(lengthHeaders) && !SaysChunked(lengthHeaders)
    requires ContentLength(lengthHeaders) == |Data(body.chunks)|
    ensures Completes(PrintStatusLine(r) + (PrintHeaders(chunkedHeaders) + "\r\n" + PrintChunked(body)), chunked)
    ensures Completes(PrintStatusLine(r) + (PrintHeaders(lengthHeaders) + "\r\n" + Data(body.chunks)), plain)
    ensures chunked.content == plain.content == Data(body.chunks)
  {
    hide Completes, ReqRuns.CompletesExactly, PrintStatusLine, PrintChunked, SaysChunked, LengthsOk, KeepsAlive,
         ContentLength, StatusOk, PrintHeaders, HeadersOk;
    var s := AsPost(LineRead(r));
    var t := ReqTrip.ChunkedMessageRun(s, chunkedHeaders, body);
    AfterStatusLine(r, PrintHeaders(chunkedHeaders) + "\r\n" + PrintChunked(body), t);
    chunked := r.(headers := t.req.headers, content := t.req.content, keepAlive := t.req.keepAlive);
    var u := ReqTrip.MessageRun(s, lengthHeaders, Data(body.chunks));
    AfterStatusLine(r, ReqTrip.PrintMessage(false, lengthHeaders, Data(body.chunks)), u);
    plain := r.(headers := u.req.headers, content := u.req.content, keepAlive := u.req.keepAlive);
  }

  /** Every response that obeys the rules results from some input: from its print, or from its print with a fold. */
  lemma ResponseResults(r: Response) returns (input: string)
    requires ResponseRules(r)
    ensures Completes(input, r)
  {
    hide Completes, PrintResponse, ReqImage.PrintFoldedMessage, PrintStatusLine, KeepsAlive, ContentLength, LengthsOk,
         EqualIgnoreCase, ReqRuns.CompletesExactly, StatusOk;
    if Framed(r) {
      PrintedResponseCompletes(r);
      input := PrintResponse(r);
    } else {
      var i :| 0 <= i < |r.headers| && StartsChunked(r.headers[i]);
      ReqImage.SevenSaysChunked(r.headers[i]);
      var t := ReqImage.FoldedMessageRun(AsPost(LineRead(r)), r.headers, i, r.content);
      AfterStatusLine(r, ReqImage.PrintFoldedMessage(r.headers, i, r.content), t);
      input := PrintStatusLine(r) + ReqImage.PrintFoldedMessage(r.headers, i, r.content);
    }
  }

  /** Which responses, of all there are, come back from their print; and which result from any input at all. */
  lemma CanonicalResponses(r: Response)
    ensures Completes(PrintResponse(r), r) <==> ResponseRules(r) && Framed(r)
    ensures (exists input :: Completes(input, r)) <==> ResponseRules(r)
  {
    hide ResponseRules, Framed, Completes, PrintResponse;
    if ResponseRules(r) {
      var input := ResponseResults(r);
      if Framed(r) {
        PrintedResponseCompletes(r);
      }
    }
    forall input | Completes(input, r) ensures ResponseRules(r) {
      ResponseFixpoint(input, r);
    }
    if Completes(PrintResponse(r), r) {
      ResponseFixpoint(PrintResponse(r), r);
    }
  }
}
