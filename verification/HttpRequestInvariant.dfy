/** What every run of a fresh request parser keeps, and what it has made of the request when it completes. */
module HttpRequestInvariant {
  import opened Ascii
  import opened Numerals
  import opened HttpMessage
  import opened HttpRequestParser

  predicate VerbOk(verb: string) {
    verb != "" && forall i :: 0 <= i < |verb| ==> IsToken(verb[i])
  }

  /** Only the first byte of a uri may be a space: RequestUriStart does not look for one. */
  predicate UriOk(uri: string) {
    && uri != ""
    && !IsControl(uri[0])
    && forall i :: 1 <= i < |uri| ==> !IsControl(uri[i]) && uri[i] != ' '
  }

  /** The source adds the digit's code before it takes '0' off, so the last 48 ints are out of reach. */
  predicate VersionOk(n: nat) {
    n <= INT_MAX - 48
  }

  predicate LineInv(s: Config) {
    && s.contentSize == 0 && s.chunkSizeStr == "" && s.chunkSize == 0 && !s.chunked
    && s.req.headers == [] && s.req.content == "" && !s.req.keepAlive
    && VersionOk(s.req.versionMajor) && VersionOk(s.req.versionMinor)
    && (if s.state == RequestMethodStart then s.req.verb == "" else VerbOk(s.req.verb))
    && (if s.state in {RequestMethodStart, RequestMethod, RequestUriStart} then s.req.uri == "" else UriOk(s.req.uri))
  }

  /** The parser's framing fields agree with the header lines that have ended. */
  predicate FramingInv(s: Config, headers: seq<Header>) {
    if TakesBody(s.req.verb) then
      && LengthsOk(headers)
      && s.contentSize == ContentLength(headers)
      && (SaysChunked(headers) ==> s.chunked)
      && (s.chunked ==> MayHaveSaidChunked(headers))
    else s.contentSize == 0 && !s.chunked
  }

  /** The same while the last header's value is being read, for the first time or in a continuation line. */
  predicate OpenFramingInv(s: Config, front: seq<Header>, last: Header) {
    if TakesBody(s.req.verb) then
      && LengthsOk(front)
      && (!IsContentLength(last) ==> s.contentSize == ContentLength(front))
      && (SaysChunked(front) ==> s.chunked)
      && (s.chunked ==> MayHaveSaidChunked(front) || (StartsChunked(last) && |last.value| > 7))
    else s.contentSize == 0 && !s.chunked
  }

  predicate LineDone(r: Request) {
    VerbOk(r.verb) && UriOk(r.uri) && VersionOk(r.versionMajor) && VersionOk(r.versionMinor)
  }

  predicate HeadersInv(s: Config) {
    && LineDone(s.req)
    && s.chunkSizeStr == "" && s.chunkSize == 0
    && s.req.content == "" && !s.req.keepAlive
    && HeadersOk(s.req.headers)
    && match s.state
       case HeaderLineStart => FramingInv(s, s.req.headers)
       case ExpectingNewline_3 => FramingInv(s, s.req.headers)
       case HeaderLws => s.req.headers != [] && FramingInv(s, s.req.headers)
       case ExpectingNewline_2 => s.req.headers != [] && FramingInv(s, s.req.headers)
       case HeaderValue =>
         && s.req.headers != []
         && OpenFramingInv(s, s.req.headers[..|s.req.headers| - 1], s.req.headers[|s.req.headers| - 1])
       case _ =>
         && s.req.headers != []
         && s.req.headers[|s.req.headers| - 1].value == ""
         && FramingInv(s, s.req.headers[..|s.req.headers| - 1])
  }

  predicate BodyInv(s: Config) {
    && LineDone(s.req)
    && HeadersOk(s.req.headers)
    && TakesBody(s.req.verb)
    && LengthsOk(s.req.headers)
    && s.req.keepAlive == KeepsAlive(s.req.versionMajor, s.req.versionMinor, s.req.headers)
    && if s.state == Post then
         && !SaysChunked(s.req.headers)
         && s.contentSize > 0
         && |s.req.content| + s.contentSize == ContentLength(s.req.headers)
       else
         && MayHaveSaidChunked(s.req.headers)
         && |s.req.content| + s.chunkSize <= LONG_MAX
         && (s.state == ChunkData <==> s.chunkSize > 0)
         && (s.state in {ChunkSize, ChunkExtensionName, ChunkExtensionValue, ChunkSizeNewLine} || s.chunkSizeStr == "")
         && forall i :: 0 <= i < |s.chunkSizeStr| ==> IsAlnum(s.chunkSizeStr[i])
  }

  /** The invariant of every configuration a fresh parser can be in between two bytes. */
  predicate Inv(s: Config) {
    if InRequestLine(s.state) then LineInv(s)
    else if InHeaders(s.state) then HeadersInv(s)
    else BodyInv(s)
  }

  /** What holds of the request once parsing has completed. */
  predicate RequestRules(r: Request) {
    && LineDone(r)
    && HeadersOk(r.headers)
    && r.keepAlive == KeepsAlive(r.versionMajor, r.versionMinor, r.headers)
    && |r.content| <= LONG_MAX
    && if TakesBody(r.verb) then
         LengthsOk(r.headers) && (|r.content| == ContentLength(r.headers) || MayHaveSaidChunked(r.headers))
       else r.content == ""
  }

  predicate GoodVerdict(v: Verdict) {
    match v
    case More(t) => Inv(t)
    case Stop(result, last) => result == ParsingCompleted ==> RequestRules(last.req)
  }

  lemma LineStep(s: Config, c: char)
    requires InRequestLine(s.state) && LineInv(s)
    ensures GoodVerdict(Step(s, c))
  {
    hide StepHeaders, StepBody, BodyInv, Atoi, EqualIgnoreCase;
  }

  lemma {:induction false} ContentLengthRange(headers: seq<Header>)
    ensures -INT_MAX - 1 <= ContentLength(headers) <= INT_MAX
    ensures LengthsOk(headers) ==> ContentLength(headers) >= 0
  {
    if headers != [] {
      ContentLengthRange(headers[..|headers| - 1]);
    }
  }

  /** Appending a byte to the last header leaves the headers before it, and a prefix already read, as they are. */
  lemma PushValueKeeps(s: Config, c: char)
    requires s.req.headers != [] && HeadersOk(s.req.headers) && !IsControl(c)
    ensures
      var n := |s.req.headers| - 1;
      var headers := PushValue(s, c).req.headers;
      && |headers| == n + 1 && headers[..n] == s.req.headers[..n]
      && headers[n] == s.req.headers[n].(value := s.req.headers[n].value + [c])
      && HeadersOk(headers)
      && (StartsChunked(s.req.headers[n]) ==> |headers[n].value| > 7)
      && (StartsChunked(s.req.headers[n]) && (|s.req.headers[n].value| > 7 || c != ' ') ==> StartsChunked(headers[n]))
  {
    var last := s.req.headers[|s.req.headers| - 1];
    assert HeaderOk(last);
    if StartsChunked(last) {
      assert (last.value + [c])[..7] == last.value[..7];
    }
  }

  lemma SplitSaysChunked(headers: seq<Header>)
    requires headers != []
    ensures
      var front, last := headers[..|headers| - 1], headers[|headers| - 1];
      SaysChunked(headers) <==> SaysChunked(front) || IsChunkedCoding(last)
  {
    hide IsChunkedCoding;
    var n := |headers| - 1;
    var front, last := headers[..n], headers[n];
    if SaysChunked(headers) && !IsChunkedCoding(last) {
      var i :| 0 <= i < |headers| && IsChunkedCoding(headers[i]);
      assert IsChunkedCoding(front[i]);
    }
    if SaysChunked(front) {
      var i :| 0 <= i < |front| && IsChunkedCoding(front[i]);
      assert IsChunkedCoding(headers[i]);
    }
  }

  lemma SplitMayHaveSaid(headers: seq<Header>)
    requires headers != []
    ensures
      var front, last := headers[..|headers| - 1], headers[|headers| - 1];
      MayHaveSaidChunked(headers) <==> MayHaveSaidChunked(front) || StartsChunked(last)
  {
    hide StartsChunked;
    var n := |headers| - 1;
    var front, last := headers[..n], headers[n];
    if MayHaveSaidChunked(headers) && !StartsChunked(last) {
      var i :| 0 <= i < |headers| && StartsChunked(headers[i]);
      assert StartsChunked(front[i]);
    }
    if MayHaveSaidChunked(front) {
      var i :| 0 <= i < |front| && StartsChunked(front[i]);
      assert StartsChunked(headers[i]);
    }
  }

  lemma ChunkedStartsChunked(h: Header)
    ensures IsChunkedCoding(h) ==> StartsChunked(h)
    ensures IsContentLength(h) ==> !IsTransferEncoding(h)
  {
    if IsChunkedCoding(h) {
      assert h.value[..7] == h.value;
    }
  }

  lemma SplitLast(headers: seq<Header>)
    requires headers != []
    ensures
      var front, last := headers[..|headers| - 1], headers[|headers| - 1];
      && (SaysChunked(headers) <==> SaysChunked(front) || IsChunkedCoding(last))
      && (MayHaveSaidChunked(headers) <==> MayHaveSaidChunked(front) || StartsChunked(last))
      && (IsChunkedCoding(last) ==> StartsChunked(last))
      && (LengthsOk(headers) <==> LengthsOk(front) && (IsContentLength(last) ==> Atoi(last.value) >= 0))
      && (IsContentLength(last) ==> !IsTransferEncoding(last))
  {
    hide SaysChunked, MayHaveSaidChunked, IsChunkedCoding, StartsChunked, IsContentLength, IsTransferEncoding, Atoi;
    var n := |headers| - 1;
    var front, last := headers[..n], headers[n];
    SplitSaysChunked(headers);
    SplitMayHaveSaid(headers);
    ChunkedStartsChunked(last);
    assert forall i :: 0 <= i < n ==> front[i] == headers[i];
  }

  lemma EndHeaderLineStep(s: Config)
    requires s.state == HeaderValue && HeadersInv(s)
    ensures GoodVerdict(EndHeaderLine(s))
  {
    hide Atoi, VerbOk, UriOk, VersionOk, HeadersOk, LengthsOk, SaysChunked, MayHaveSaidChunked, StartsChunked,
         EqualIgnoreCase;
    var h := s.req.headers[|s.req.headers| - 1];
    SplitLast(s.req.headers);
    AtoiRange(h.value);
  }

  lemma ValueStep(s: Config, c: char)
    requires s.state == HeaderValue && HeadersInv(s)
    ensures GoodVerdict(Step(s, c))
  {
    if c == '\r' {
      EndHeaderLineStep(s);
    } else if !IsControl(c) {
      PushValueKeeps(s, c);
    }
  }

  lemma SplitContentLength(headers: seq<Header>)
    requires headers != []
    ensures IsContentLength(headers[|headers| - 1]) ||
            ContentLength(headers) == ContentLength(headers[..|headers| - 1])
  {
  }

  lemma LwsStep(s: Config, c: char)
    requires s.state == HeaderLws && HeadersInv(s)
    ensures GoodVerdict(Step(s, c))
  {
    hide Atoi, EqualIgnoreCase, VerbOk, UriOk, VersionOk, LengthsOk, SaysChunked, MayHaveSaidChunked, StartsChunked,
         ContentLength, RequestRules, StepRequestLine, StepBody, LineInv, BodyInv;
    if !IsControl(c) {
      SplitContentLength(s.req.headers);
      PushValueKeeps(s, c);
      SplitLast(s.req.headers);
    }
  }

  lemma LineStartStep(s: Config, c: char)
    requires s.state == HeaderLineStart && HeadersInv(s)
    ensures GoodVerdict(Step(s, c))
  {
    hide VerbOk, UriOk, VersionOk, LengthsOk, SaysChunked, MayHaveSaidChunked, ContentLength, StepRequestLine, StepBody,
         LineInv, BodyInv, StartsChunked, EqualIgnoreCase;
    if IsToken(c) {
      assert (s.req.headers + [Header([c], "")])[..|s.req.headers|] == s.req.headers;
    }
  }

  lemma NameStep(s: Config, c: char)
    requires s.state == HeaderName && HeadersInv(s)
    ensures GoodVerdict(Step(s, c))
  {
    hide VerbOk, UriOk, VersionOk, LengthsOk, SaysChunked, MayHaveSaidChunked, ContentLength, StepRequestLine, StepBody,
         LineInv, BodyInv;
    if IsToken(c) {
      var n := |s.req.headers| - 1;
      assert HeaderOk(s.req.headers[n]);
      assert PushName(s, c).req.headers[..n] == s.req.headers[..n];
    }
  }

  lemma LastHeadersStep(s: Config, c: char)
    requires s.state in {SpaceBeforeHeaderValue, ExpectingNewline_2, ExpectingNewline_3} && HeadersInv(s)
    ensures GoodVerdict(Step(s, c))
  {
    ContentLengthRange(s.req.headers);
    hide ContentLength, VerbOk, UriOk, VersionOk, HeadersOk, LengthsOk, SaysChunked, MayHaveSaidChunked,
         EqualIgnoreCase, StepRequestLine, StepBody, LineInv;
  }

  lemma ChunkSizeStep(s: Config, c: char)
    requires s.state == ChunkSizeNewLine && BodyInv(s)
    ensures GoodVerdict(Step(s, c))
  {
    hide Strtol, KeepsAlive, ContentLength, VerbOk, UriOk, VersionOk, HeadersOk, LengthsOk, SaysChunked,
         MayHaveSaidChunked, StepRequestLine, StepHeaders, LineInv, HeadersInv, RequestRules, LineDone;
    StrtolOfAlnum(s.chunkSizeStr);
  }

  lemma BodyStep(s: Config, c: char)
    requires !InRequestLine(s.state) && !InHeaders(s.state) && s.state != ChunkSizeNewLine && BodyInv(s)
    ensures GoodVerdict(Step(s, c))
  {
    ContentLengthRange(s.req.headers);
    hide Strtol, KeepsAlive, ContentLength, VerbOk, UriOk, VersionOk, HeadersOk, LengthsOk, SaysChunked,
         MayHaveSaidChunked, StepRequestLine, StepHeaders, LineInv, HeadersInv;
  }

  lemma StepKeepsInv(s: Config, c: char)
    requires Inv(s)
    ensures GoodVerdict(Step(s, c))
  {
    if InRequestLine(s.state) {
      LineStep(s, c);
    } else {
      match s.state {
        case HeaderValue => ValueStep(s, c);
        case HeaderLws => LwsStep(s, c);
        case HeaderLineStart => LineStartStep(s, c);
        case HeaderName => NameStep(s, c);
        case SpaceBeforeHeaderValue => LastHeadersStep(s, c);
        case ExpectingNewline_2 => LastHeadersStep(s, c);
        case ExpectingNewline_3 => LastHeadersStep(s, c);
        case ChunkSizeNewLine => ChunkSizeStep(s, c);
        case _ => BodyStep(s, c);
      }
    }
  }

  lemma StrtolOfAlnum(s: string)
    requires forall i :: 0 <= i < |s| ==> IsAlnum(s[i])
    ensures 0 <= Strtol(s, 16) <= LONG_MAX
    ensures s == "" ==> Strtol(s, 16) == 0
  {
    assert SkipSpaces(s) == s;
  }

  /** The invariant holds throughout a call, and a call that completes leaves a request that obeys the rules. */
  lemma {:induction false} ConsumeKeepsInv(s: Config, input: string)
    requires Inv(s)
    ensures GoodVerdict(Consume(s, input))
    decreases |input|
  {
    if input != "" {
      StepKeepsInv(s, input[0]);
      match Step(s, input[0]) {
        case More(t) => ConsumeKeepsInv(t, input[1..]);
        case Stop(_, _) =>
      }
    }
  }
}
