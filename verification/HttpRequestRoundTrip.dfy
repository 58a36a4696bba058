/** Parsing, printing and parsing again: when the second request is the first. */
module HttpRequestRoundTrip {
  import opened Ascii
  import opened Numerals
  import opened HttpMessage
  import opened HttpChunks
  import opened HttpRequestParser
  import opened HttpRequestInvariant
  import opened HttpRequestRuns
  import opened HttpRequestBody

  function PrintRequestLine(r: Request): string {
    r.verb + " " + r.uri + " HTTP/" + Print(r.versionMajor, 10) + "." + Print(r.versionMinor, 10) + "\r\n"
  }

  /** The canonical form of a request. */
  function PrintRequest(r: Request): string {
    PrintRequestLine(r) + PrintMessage(TakesBody(r.verb) && SaysChunked(r.headers), r.headers, r.content)
  }

  function PrintMessage(chunked: bool, headers: seq<Header>, content: string): string {
    PrintHeaders(headers) + "\r\n" + PrintBody(chunked, content)
  }

  /** The headers say how the content is framed: as chunks, or by its length. */
  predicate Framed(r: Request) {
    TakesBody(r.verb) ==> SaysChunked(r.headers) || ContentLength(r.headers) == |r.content|
  }

  predicate Completes(input: string, r: Request) {
    var v := Consume(Fresh, input);
    v.Stop? && v.result == ParsingCompleted && v.last.req == r
  }

  /** The parser after the LF of the request line. */
  predicate AtFirstHeader(s: Config) {
    && s.state == HeaderLineStart && s.contentSize == 0 && s.chunkSizeStr == "" && s.chunkSize == 0 && !s.chunked
    && s.req.headers == [] && s.req.content == "" && !s.req.keepAlive
  }

  lemma HeaderBlockRun(s: Config, headers: seq<Header>) returns (t: Config)
    requires AtFirstHeader(s) && HeadersOk(headers) && (TakesBody(s.req.verb) ==> LengthsOk(headers))
    ensures TakesBody(s.req.verb) ==> ContentLength(headers) >= 0
    ensures t == s.(state := ExpectingNewline_3,
                    req := s.req.(headers := headers),
                    contentSize := if TakesBody(s.req.verb) then ContentLength(headers) else 0,
                    chunked := TakesBody(s.req.verb) && SaysChunked(headers))
    ensures Consume(s, PrintHeaders(headers) + "\r") == More(t)
  {
    hide ContentLength;
    HeadersRun(s, headers);
    var u := Consume(s, PrintHeaders(headers)).next;
    OneByte(u, '\r');
    t := u.(state := ExpectingNewline_3);
    hide Consume;
    RunThenRun(s, PrintHeaders(headers), u, "\r", t);
  }

  lemma DecideKeepAliveFresh(req: Request)
    requires !req.keepAlive
    ensures DecideKeepAlive(req) == req.(keepAlive := KeepsAlive(req.versionMajor, req.versionMinor, req.headers))
  {
  }

  lemma PostCompletes(s: Config, content: string)
    requires s.state == Post && s.contentSize == |content| > 0
    ensures CompletesExactly(s, content, s.(contentSize := 0, req := s.req.(content := s.req.content + content)))
  {
    PostRun(s, content);
    PostRun(s, content[..|content| - 1]);
    assert content[..|content|] == content;
  }

  /** From the LF after the header block to the end of a chunked body, however it is cut. */
  lemma ChunksRun(s: Config, body: ChunkedBody) returns (last: Config)
    requires s.state == ExpectingNewline_3 && s.chunkSizeStr == "" && s.chunkSize == 0 && s.chunked
    requires s.req.content == "" && !s.req.keepAlive
    requires BodyOk(body) && |Data(body.chunks)| <= LONG_MAX
    ensures CompletesExactly(s, "\n" + PrintChunked(body), last)
    ensures last.req == s.req.(content := Data(body.chunks),
                               keepAlive := KeepsAlive(s.req.versionMajor, s.req.versionMinor, s.req.headers))
  {
    DecideKeepAliveFresh(s.req);
    OneByte(s, '\n');
    hide KeepsAlive, FirstConnection, DecideKeepAlive, Strtol;
    var t := s.(state := ChunkSize, req := DecideKeepAlive(s.req));
    ChunkedRun(t, body);
    last := t.(state := ChunkSizeNewLine_3, req := t.req.(content := "" + Data(body.chunks)));
    assert "" + Data(body.chunks) == Data(body.chunks);
    RunThenComplete(s, "\n", t, PrintChunked(body), last);
  }

  /** From the LF after the header block to the end of the canonical body. */
  lemma BodyRun(s: Config, content: string) returns (last: Config)
    requires s.state == ExpectingNewline_3 && s.chunkSizeStr == "" && s.chunkSize == 0
    requires s.req.content == "" && !s.req.keepAlive
    requires if s.chunked then |content| <= LONG_MAX else s.contentSize == |content|
    ensures CompletesExactly(s, "\n" + PrintBody(s.chunked, content), last)
    ensures last.req ==
            s.req.(content := content, keepAlive := KeepsAlive(s.req.versionMajor, s.req.versionMinor, s.req.headers))
  {
    DecideKeepAliveFresh(s.req);
    OneByte(s, '\n');
    hide KeepsAlive, FirstConnection, DecideKeepAlive, Strtol;
    var req := DecideKeepAlive(s.req);
    if s.chunked {
      OneChunkOk(content);
      last := ChunksRun(s, OneChunk(content));
    } else if content == "" {
      last := s.(req := req);
      assert "\n" + "" == "\n" && "\n"[..0] == "";
    } else {
      var t := s.(state := Post, req := req);
      PostCompletes(t, content);
      last := t.(contentSize := 0, req := req.(content := "" + content));
      assert "" + content == content;
      RunThenComplete(s, "\n", t, content, last);
    }
  }

  /** Headers and body as `PrintMessage` writes them are read back as they are. */
  lemma MessageRun(s: Config, headers: seq<Header>, content: string) returns (last: Config)
    requires AtFirstHeader(s) && HeadersOk(headers) && |content| <= LONG_MAX
    requires TakesBody(s.req.verb) ==> LengthsOk(headers)
    requires if TakesBody(s.req.verb) then SaysChunked(headers) || ContentLength(headers) == |content|
             else content == ""
    ensures CompletesExactly(s, PrintMessage(TakesBody(s.req.verb) && SaysChunked(headers), headers, content), last)
    ensures last.req == s.req.(headers := headers, content := content,
                               keepAlive := KeepsAlive(s.req.versionMajor, s.req.versionMinor, headers))
  {
    hide Consume, CompletesExactly, PrintBody, SaysChunked, LengthsOk, KeepsAlive, ContentLength;
    var t := HeaderBlockRun(s, headers);
    last := BodyRun(t, content);
    RunThenComplete(s, PrintHeaders(headers) + "\r", t, "\n" + PrintBody(t.chunked, content), last);
    assert PrintHeaders(headers) + "\r" + ("\n" + PrintBody(t.chunked, content)) ==
           PrintMessage(t.chunked, headers, content);
  }

  lemma WrongLengthBody(s: Config, content: string)
    requires s.state == ExpectingNewline_3 && !s.chunked && s.contentSize >= 0 && s.contentSize != |content|
    requires s.req.content == ""
    ensures var v := Consume(s, "\n" + content); v.Stop? ==> v.last.req.content != content
  {
    hide StepRequestLine, StepBody, KeepsAlive;
    ConsumeConcat(s, "\n", content);
    OneByte(s, '\n');
    if s.contentSize > 0 {
      PostRun(Step(s, '\n').next, content);
    }
  }

  /** A body cut off or left over: without chunks and with another length the content cannot come back. */
  lemma WrongLength(s: Config, headers: seq<Header>, content: string)
    requires AtFirstHeader(s) && HeadersOk(headers) && LengthsOk(headers) && TakesBody(s.req.verb)
    requires !SaysChunked(headers) && ContentLength(headers) != |content|
    ensures var v := Consume(s, PrintMessage(false, headers, content)); v.Stop? ==> v.last.req.content != content
  {
    hide SaysChunked, LengthsOk, ContentLength, HeadersOk, Consume;
    var t := HeaderBlockRun(s, headers);
    WrongLengthBody(t, content);
    ConsumeConcat(s, PrintHeaders(headers) + "\r", "\n" + content);
    assert PrintHeaders(headers) + "\r" + ("\n" + content) == PrintMessage(false, headers, content);
  }

  lemma VerbStart(verb: string)
    requires VerbOk(verb)
    ensures Consume(Fresh, verb + " ") == More(Fresh.(state := RequestUriStart, req := FreshRequest.(verb := verb)))
  {
    var s1 := Fresh.(state := RequestMethod, req := FreshRequest.(verb := [verb[0]]));
    assert "" + [verb[0]] == [verb[0]];
    OneByte(Fresh, verb[0]);
    VerbRun(s1, verb[1..]);
    assert [verb[0]] + verb[1..] == verb;
    var s2 := s1.(req := FreshRequest.(verb := verb));
    OneByte(s2, ' ');
    hide Consume, Step;
    RunThenRun(Fresh, [verb[0]], s1, verb[1..], s2);
    RunThenRun(Fresh, verb, s2, " ", s2.(state := RequestUriStart));
  }

  lemma UriStart(s: Config, uri: string)
    requires s.state == RequestUriStart && s.req.uri == "" && UriOk(uri)
    ensures Consume(s, uri) == More(s.(state := RequestUri, req := s.req.(uri := uri)))
  {
    var s1 := s.(state := RequestUri, req := s.req.(uri := [uri[0]]));
    assert "" + [uri[0]] == [uri[0]];
    OneByte(s, uri[0]);
    UriRun(s1, uri[1..]);
    assert [uri[0]] + uri[1..] == uri;
    hide Consume, Step;
    RunThenRun(s, [uri[0]], s1, uri[1..], s1.(req := s.req.(uri := uri)));
  }

  lemma DotRun(s: Config)
    requires s.state == RequestHttpVersion_major
    ensures Consume(s, ".") == More(s.(state := RequestHttpVersion_minorStart))
  {
    hide Consume, StepHeaders, StepBody;
    OneByte(s, '.');
  }

  lemma LineEndRun(s: Config)
    requires s.state == RequestHttpVersion_minor
    ensures Consume(s, "\r\n") == More(s.(state := HeaderLineStart))
  {
    hide Consume, StepHeaders, StepBody;
    TwoBytes(s, '\r', s.(state := ResponseHttpVersion_newLine), '\n');
  }

  lemma VersionRun(s: Config, major: nat, minor: nat)
    requires s.state == RequestHttpVersion_majorStart && VersionOk(major) && VersionOk(minor)
    ensures Consume(s, Print(major, 10) + "." + Print(minor, 10) + "\r\n") ==
            More(s.(state := HeaderLineStart, req := s.req.(versionMajor := major, versionMinor := minor)))
  {
    hide Consume, Step, Print, Value, DigitValue;
    PrintIsDigits(major, 10);
    PrintIsDigits(minor, 10);
    MajorRun(s, Print(major, 10));
    var s1 := s.(state := RequestHttpVersion_major, req := s.req.(versionMajor := major));
    DotRun(s1);
    var s2 := s1.(state := RequestHttpVersion_minorStart);
    MinorRun(s2, Print(minor, 10));
    var s3 := s2.(state := RequestHttpVersion_minor, req := s1.req.(versionMinor := minor));
    LineEndRun(s3);
    RunThenRun(s, Print(major, 10), s1, ".", s2);
    RunThenRun(s, Print(major, 10) + ".", s2, Print(minor, 10), s3);
    RunThenRun(s, Print(major, 10) + "." + Print(minor, 10), s3, "\r\n", s3.(state := HeaderLineStart));
  }

  /** The configuration after a printed request line. */
  function LineRead(r: Request): Config {
    Config(HeaderLineStart, 0, "", 0, false, r.(headers := [], content := "", keepAlive := false))
  }

  lemma RequestLineRun(r: Request)
    requires LineDone(r)
    ensures Consume(Fresh, PrintRequestLine(r)) == More(LineRead(r))
  {
    hide Consume, Step, Print, VerbOk, UriOk;
    VerbStart(r.verb);
    var s1 := Fresh.(state := RequestUriStart, req := FreshRequest.(verb := r.verb));
    UriStart(s1, r.uri);
    var s2 := s1.(state := RequestUri, req := s1.req.(uri := r.uri));
    RunThenRun(Fresh, r.verb + " ", s1, r.uri, s2);
    HttpSlashRun(s2);
    var s3 := s2.(state := RequestHttpVersion_majorStart);
    RunThenRun(Fresh, r.verb + " " + r.uri, s2, " HTTP/", s3);
    VersionRun(s3, r.versionMajor, r.versionMinor);
    var version := Print(r.versionMajor, 10) + "." + Print(r.versionMinor, 10) + "\r\n";
    RunThenRun(Fresh, r.verb + " " + r.uri + " HTTP/", s3, version, LineRead(r));
    assert r.verb + " " + r.uri + " HTTP/" + version == PrintRequestLine(r);
  }

  /** Every request that obeys the rules and is framed is what parsing its print yields, on the last byte. */
  lemma PrintedRequestCompletes(r: Request) returns (last: Config)
    requires RequestRules(r) && Framed(r)
    ensures CompletesExactly(Fresh, PrintRequest(r), last) && last.req == r
  {
    hide Consume, CompletesExactly, PrintRequestLine, PrintMessage, SaysChunked, LengthsOk, KeepsAlive, ContentLength,
         MayHaveSaidChunked, HeadersOk;
    RequestLineRun(r);
    last := MessageRun(LineRead(r), r.headers, r.content);
    RunThenComplete(Fresh, PrintRequestLine(r), LineRead(r),
                    PrintMessage(TakesBody(r.verb) && SaysChunked(r.headers), r.headers, r.content), last);
  }

  /**
    The parse/serialize fixpoint, for every byte string a fresh parser completes: parsing the print of the request
    yields the request again exactly if its headers frame its content.
   */
  lemma RequestFixpoint(input: string, r: Request)
    requires Completes(input, r)
    ensures RequestRules(r)
    ensures Completes(PrintRequest(r), r) <==> Framed(r)
  {
    ConsumeKeepsInv(Fresh, input);
    if Framed(r) {
      var last := PrintedRequestCompletes(r);
    } else {
      RequestLineRun(r);
      WrongLength(LineRead(r), r.headers, r.content);
      ConsumeConcat(Fresh, PrintRequestLine(r), PrintMessage(false, r.headers, r.content));
    }
  }

  lemma PrintOfFramed(r: Request)
    requires RequestRules(r) && Framed(r)
    ensures Completes(PrintRequest(r), r)
  {
    hide RequestRules, Framed, PrintRequest, Consume;
    var last := PrintedRequestCompletes(r);
  }

  /** A header block that announces chunks, and a body cut in any way. */
  lemma ChunkedMessageRun(s: Config, headers: seq<Header>, body: ChunkedBody) returns (last: Config)
    requires AtFirstHeader(s) && TakesBody(s.req.verb)
    requires HeadersOk(headers) && LengthsOk(headers) && SaysChunked(headers)
    requires BodyOk(body) && |Data(body.chunks)| <= LONG_MAX
    ensures CompletesExactly(s, PrintHeaders(headers) + "\r\n" + PrintChunked(body), last)
    ensures last.req == s.req.(headers := headers, content := Data(body.chunks),
                               keepAlive := KeepsAlive(s.req.versionMajor, s.req.versionMinor, headers))
  {
    hide Consume, CompletesExactly, PrintChunked, SaysChunked, LengthsOk, KeepsAlive, ContentLength;
    var t := HeaderBlockRun(s, headers);
    last := ChunksRun(t, body);
    RunThenComplete(s, PrintHeaders(headers) + "\r", t, "\n" + PrintChunked(body), last);
    assert PrintHeaders(headers) + "\r" + ("\n" + PrintChunked(body)) ==
           PrintHeaders(headers) + "\r\n" + PrintChunked(body);
  }

  /**
    Chunking does not matter: for any header blocks that announce chunks and a length, and any cut of a content into
    non-empty chunks with any extensions and trailers, both messages complete on their last byte with that content.
   */
  lemma ChunkingDoesNotMatter(r: Request, chunkedHeaders: seq<Header>, body: ChunkedBody, lengthHeaders: seq<Header>)
    returns (chunked: Config, plain: Config)
    requires LineDone(r) && TakesBody(r.verb)
    requires HeadersOk(chunkedHeaders) && LengthsOk(chunkedHeaders) && SaysChunked(chunkedHeaders)
    requires BodyOk(body) && |Data(body.chunks)| <= LONG_MAX
    requires HeadersOk(lengthHeaders) && LengthsOk(lengthHeaders) && !SaysChunked(lengthHeaders)
    requires ContentLength(lengthHeaders) == |Data(body.chunks)|
    ensures CompletesExactly(
              Fresh, PrintRequestLine(r) + (PrintHeaders(chunkedHeaders) + "\r\n" + PrintChunked(body)), chunked)
    ensures CompletesExactly(
              Fresh, PrintRequestLine(r) + (PrintHeaders(lengthHeaders) + "\r\n" + Data(body.chunks)), plain)
    ensures chunked.req.content == plain.req.content == Data(body.chunks)
  {
    hide Consume, CompletesExactly, PrintRequestLine, PrintChunked, SaysChunked, LengthsOk, KeepsAlive, ContentLength;
    RequestLineRun(r);
    var s := LineRead(r);
    chunked := ChunkedMessageRun(s, chunkedHeaders, body);
    RunThenComplete(Fresh, PrintRequestLine(r), s, PrintHeaders(chunkedHeaders) + "\r\n" + PrintChunked(body), chunked);
    plain := MessageRun(s, lengthHeaders, Data(body.chunks));
    RunThenComplete(Fresh, PrintRequestLine(r), s, PrintMessage(false, lengthHeaders, Data(body.chunks)), plain);
  }

  function ChunkedCoding(): Header {
    Header("Transfer-Encoding", "chunked")
  }

  function LengthOf(content: string): Header {
    Header("Content-Length", Print(|content|, 10))
  }

  lemma LettersAreHeader(h: Header)
    requires h.name != "" && forall i :: 0 <= i < |h.name| ==> IsAlpha(h.name[i]) || h.name[i] == '-'
    requires forall i :: 0 <= i < |h.value| ==> IsAlnum(h.value[i])
    ensures HeaderOk(h)
  {
  }

  lemma CodingAnnouncesChunks(headers: seq<Header>)
    requires HeadersOk(headers) && LengthsOk(headers)
    ensures
      var all := headers + [ChunkedCoding()];
      HeadersOk(all) && LengthsOk(all) && SaysChunked(all)
  {
    var h, all := ChunkedCoding(), headers + [ChunkedCoding()];
    assert forall i :: 0 <= i < |h.name| ==> IsAlpha(h.name[i]) || h.name[i] == '-';
    assert forall i :: 0 <= i < |h.value| ==> IsAlnum(h.value[i]);
    LettersAreHeader(h);
    OneKindOfFraming(h);
    assert IsChunkedCoding(all[|headers|]);
  }

  lemma LengthAnnouncesContent(headers: seq<Header>, content: string)
    requires HeadersOk(headers) && LengthsOk(headers) && !SaysChunked(headers) && |content| <= INT_MAX
    ensures
      var all := headers + [LengthOf(content)];
      HeadersOk(all) && LengthsOk(all) && !SaysChunked(all) && ContentLength(all) == |content|
  {
    hide Atoi, Print;
    var h, all := LengthOf(content), headers + [LengthOf(content)];
    assert forall i :: 0 <= i < |h.name| ==> IsAlpha(h.name[i]) || h.name[i] == '-';
    PrintIsDigits(|content|, 10);
    AtoiReadsPrint(|content|);
    LettersAreHeader(h);
    OneKindOfFraming(h);
    assert all[..|headers|] == headers;
    SplitLast(all);
  }

  /** So either framing can be put after any headers that have none, and the two requests have the same content. */
  lemma EitherFraming(r: Request, headers: seq<Header>, body: ChunkedBody) returns (chunked: Config, plain: Config)
    requires LineDone(r) && TakesBody(r.verb)
    requires HeadersOk(headers) && LengthsOk(headers) && !SaysChunked(headers)
    requires BodyOk(body) && |Data(body.chunks)| <= INT_MAX
    ensures CompletesExactly(
              Fresh,
              PrintRequestLine(r) + (PrintHeaders(headers + [ChunkedCoding()]) + "\r\n" + PrintChunked(body)),
              chunked)
    ensures CompletesExactly(
              Fresh,
              PrintRequestLine(r) +
              (PrintHeaders(headers + [LengthOf(Data(body.chunks))]) + "\r\n" + Data(body.chunks)),
              plain)
    ensures chunked.req.content == plain.req.content == Data(body.chunks)
  {
    hide Consume, CompletesExactly, PrintRequestLine, PrintChunked, SaysChunked, LengthsOk, ContentLength, HeadersOk,
         PrintHeaders, ChunkedCoding, LengthOf;
    CodingAnnouncesChunks(headers);
    LengthAnnouncesContent(headers, Data(body.chunks));
    chunked, plain :=
      ChunkingDoesNotMatter(r, headers + [ChunkedCoding()], body, headers + [LengthOf(Data(body.chunks))]);
  }
}
