/** How the headers decide the framing of the body, and what a continuation line can do to it. */
module HttpRequestFraming {
  import opened Ascii
  import opened Numerals
  import opened HttpMessage
  import opened HttpChunks
  import opened HttpRequestParser
  import opened HttpRequestInvariant
  import opened HttpRequestRuns
  import opened HttpRequestBody
  import opened HttpRequestRoundTrip
  import opened Options

  /** The next byte would start a continuation line of a Transfer-Encoding header. */
  predicate StartsFold(s: Config, c: char) {
    && s.state == HeaderLineStart
    && (c == ' ' || c == '\t')
    && s.req.headers != []
    && IsTransferEncoding(s.req.headers[|s.req.headers| - 1])
  }

  /** Some continuation line of a Transfer-Encoding header is read from `s` on. */
  predicate FoldsTransferEncoding(s: Config, input: string)
    decreases |input|
  {
    input != "" &&
    (StartsFold(s, input[0]) ||
     match Step(s, input[0])
     case More(t) => FoldsTransferEncoding(t, input[1..])
     case Stop(_, _) => false)
  }

  /** Without such a line, `chunked` is set only if a header that has ended says so. */
  predicate NoFoldInv(s: Config) {
    var n := |s.req.headers| - 1;
    match s.state
    case HeaderLineStart => s.chunked ==> SaysChunked(s.req.headers)
    case ExpectingNewline_2 => s.chunked ==> SaysChunked(s.req.headers)
    case ExpectingNewline_3 => s.chunked ==> SaysChunked(s.req.headers)
    case HeaderLws => s.req.headers != [] && !IsTransferEncoding(s.req.headers[n]) &&
                      (s.chunked ==> SaysChunked(s.req.headers[..n]))
    case HeaderName => s.req.headers != [] && (s.chunked ==> SaysChunked(s.req.headers[..n]))
    case SpaceBeforeHeaderValue => s.req.headers != [] && (s.chunked ==> SaysChunked(s.req.headers[..n]))
    case HeaderValue => s.req.headers != [] && (s.chunked ==> SaysChunked(s.req.headers[..n]))
    case Post => true
    case _ => !InRequestLine(s.state) ==> SaysChunked(s.req.headers)
  }

  lemma NoFoldValueStep(s: Config, c: char)
    requires s.state in {HeaderValue, HeaderLws} && Inv(s) && NoFoldInv(s)
    ensures match Step(s, c) case More(t) => NoFoldInv(t) case Stop(_, _) => true
  {
    hide VerbOk, UriOk, VersionOk, LengthsOk, SaysChunked, MayHaveSaidChunked, StartsChunked, EqualIgnoreCase,
         ContentLength, Atoi, StepRequestLine, StepBody, LineInv, BodyInv;
    SplitLast(s.req.headers);
    if !IsControl(c) {
      PushValueKeeps(s, c);
    }
  }

  lemma NoFoldLineStartStep(s: Config, c: char)
    requires s.state == HeaderLineStart && Inv(s) && NoFoldInv(s) && !StartsFold(s, c)
    ensures match Step(s, c) case More(t) => NoFoldInv(t) case Stop(_, _) => true
  {
    hide VerbOk, UriOk, VersionOk, LengthsOk, SaysChunked, MayHaveSaidChunked, StartsChunked, EqualIgnoreCase,
         ContentLength, Atoi, StepRequestLine, StepBody, LineInv, BodyInv;
    if s.req.headers != [] {
      SplitLast(s.req.headers);
    }
    assert (s.req.headers + [Header([c], "")])[..|s.req.headers|] == s.req.headers;
  }

  lemma NoFoldStep(s: Config, c: char)
    requires Inv(s) && NoFoldInv(s) && !StartsFold(s, c)
    ensures
      match Step(s, c)
      case More(t) => NoFoldInv(t)
      case Stop(result, last) => result == ParsingCompleted ==> Framed(last.req)
  {
    hide VerbOk, UriOk, VersionOk, HeadersOk, LengthsOk, SaysChunked, MayHaveSaidChunked, EqualIgnoreCase,
         ContentLength, Atoi, Strtol, KeepsAlive;
    match s.state {
      case HeaderValue => NoFoldValueStep(s, c);
      case HeaderLws => NoFoldValueStep(s, c);
      case HeaderLineStart => NoFoldLineStartStep(s, c);
      case HeaderName =>
        if c != ':' && IsToken(c) {
          assert PushName(s, c).req.headers[..|s.req.headers| - 1] == s.req.headers[..|s.req.headers| - 1];
        }
      case _ => NoFoldOtherStep(s, c);
    }
  }

  lemma NoFoldOtherStep(s: Config, c: char)
    requires Inv(s) && NoFoldInv(s) && s.state !in {HeaderValue, HeaderLws, HeaderLineStart, HeaderName}
    ensures
      match Step(s, c)
      case More(t) => NoFoldInv(t)
      case Stop(result, last) => result == ParsingCompleted ==> Framed(last.req)
  {
    hide VerbOk, UriOk, VersionOk, HeadersOk, LengthsOk, SaysChunked, MayHaveSaidChunked, EqualIgnoreCase,
         Atoi, Strtol, KeepsAlive, StepRequestLine, StepBody;
    if InRequestLine(s.state) {
      NoFoldLineStep(s, c);
    } else if !InHeaders(s.state) {
      NoFoldBodyStep(s, c);
    }
  }

  lemma NoFoldLineStep(s: Config, c: char)
    requires Inv(s) && InRequestLine(s.state)
    ensures
      match Step(s, c)
      case More(t) => NoFoldInv(t)
      case Stop(result, last) => result == ParsingCompleted ==> Framed(last.req)
  {
    hide VerbOk, UriOk, VersionOk, HeadersOk, LengthsOk, SaysChunked, MayHaveSaidChunked, EqualIgnoreCase,
         Atoi, Strtol, KeepsAlive, StepHeaders, StepBody, BodyInv, HeadersInv;
  }

  lemma NoFoldBodyStep(s: Config, c: char)
    requires Inv(s) && NoFoldInv(s) && !InRequestLine(s.state) && !InHeaders(s.state)
    ensures
      match Step(s, c)
      case More(t) => NoFoldInv(t)
      case Stop(result, last) => result == ParsingCompleted ==> Framed(last.req)
  {
    hide VerbOk, UriOk, VersionOk, HeadersOk, LengthsOk, SaysChunked, MayHaveSaidChunked, EqualIgnoreCase,
         ContentLength, Atoi, Strtol, KeepsAlive, StepRequestLine, StepHeaders, LineInv, HeadersInv;
  }

  lemma {:induction false} NoFoldRun(s: Config, input: string)
    requires Inv(s) && NoFoldInv(s) && !FoldsTransferEncoding(s, input)
    ensures
      match Consume(s, input)
      case More(t) => NoFoldInv(t)
      case Stop(result, last) => result == ParsingCompleted ==> Framed(last.req)
    decreases |input|
  {
    hide VerbOk, UriOk, VersionOk, HeadersOk, LengthsOk, SaysChunked, MayHaveSaidChunked, EqualIgnoreCase,
         ContentLength, Atoi, Strtol, KeepsAlive, NoFoldInv, Inv;
    if input != "" {
      NoFoldStep(s, input[0]);
      StepKeepsInv(s, input[0]);
      match Step(s, input[0]) {
        case More(t) => NoFoldRun(t, input[1..]);
        case Stop(_, _) =>
      }
    }
  }

  /** With no continuation line on a Transfer-Encoding header, the fixpoint holds outright. */
  lemma RequestFixpointWithoutFolds(input: string, r: Request)
    requires Completes(input, r) && !FoldsTransferEncoding(Fresh, input)
    ensures Completes(PrintRequest(r), r)
  {
    ConsumeKeepsInv(Fresh, input);
    NoFoldRun(Fresh, input);
    RequestFixpoint(input, r);
  }

  /** Framing is a function of the headers: what the parser has decided when the block of headers ends. */
  lemma HeadersDecideFraming(input: string, s: Config)
    requires Consume(Fresh, input) == More(s) && s.state == ExpectingNewline_3
    ensures s.contentSize == if TakesBody(s.req.verb) then ContentLength(s.req.headers) else 0
    ensures s.chunked ==> TakesBody(s.req.verb)
    ensures TakesBody(s.req.verb) && SaysChunked(s.req.headers) ==> s.chunked
    ensures !FoldsTransferEncoding(Fresh, input) ==>
              (s.chunked <==> TakesBody(s.req.verb) && SaysChunked(s.req.headers))
    ensures DecideKeepAlive(s.req).keepAlive == KeepsAlive(s.req.versionMajor, s.req.versionMinor, s.req.headers)
  {
    ConsumeKeepsInv(Fresh, input);
    if !FoldsTransferEncoding(Fresh, input) {
      NoFoldRun(Fresh, input);
    }
    DecideKeepAliveFresh(s.req);
  }

  /** After the zero chunk no byte is added to the content any more, whatever trailers follow. */
  lemma {:induction false} NothingAfterZeroChunk(s: Config, input: string)
    requires s.chunkSizeStr == "" && |s.req.content| <= LONG_MAX
    requires s.state in {ChunkSizeNewLine, ChunkSizeNewLine_2, ChunkSizeNewLine_3, ChunkTrailerName, ChunkTrailerValue}
    ensures
      match Consume(s, input)
      case More(t) => t.req == s.req
      case Stop(_, last) => last.req == s.req
    decreases |input|
  {
    if input != "" {
      StrtolOfAlnum("");
      hide Strtol;
      match Step(s, input[0]) {
        case More(t) => NothingAfterZeroChunk(t, input[1..]);
        case Stop(_, _) =>
      }
    }
  }

  lemma BodyAbortCause(s: Config, c: char)
    requires !InRequestLine(s.state) && !InHeaders(s.state) && BodyInv(s)
    requires Step(s, c).Stop? && Step(s, c).result == ParsingAborted
    ensures s.state == ChunkSizeNewLine && |s.req.content| + Strtol(s.chunkSizeStr, 16) > LONG_MAX
  {
    hide Strtol, KeepsAlive, ContentLength, LineDone, HeadersOk, LengthsOk, SaysChunked, MayHaveSaidChunked,
         StepRequestLine, StepHeaders;
    if s.state == ChunkSizeNewLine {
      StrtolOfAlnum(s.chunkSizeStr);
    }
  }

  /** A call on a fresh parser aborts for three reasons only; `headers.back()` of an empty list is not one of them. */
  lemma AbortCauses(s: Config, c: char)
    requires Inv(s) && Step(s, c).Stop? && Step(s, c).result == ParsingAborted
    ensures
      || (s.state == RequestHttpVersion_major && s.req.versionMajor * 10 + c as int > INT_MAX)
      || (s.state == RequestHttpVersion_minor && s.req.versionMinor * 10 + c as int > INT_MAX)
      || (s.state == HeaderValue && s.req.headers != [] &&
          var h := s.req.headers[|s.req.headers| - 1]; IsContentLength(h) && Atoi(h.value) < 0)
      || (s.state == ChunkSizeNewLine && |s.req.content| + Strtol(s.chunkSizeStr, 16) > LONG_MAX)
  {
    hide EqualIgnoreCase, KeepsAlive, ContentLength, VerbOk, UriOk, HeadersOk, LengthsOk, SaysChunked,
         MayHaveSaidChunked, StartsChunked, Atoi, Strtol;
    if !InRequestLine(s.state) && !InHeaders(s.state) {
      BodyAbortCause(s, c);
    }
  }
}
