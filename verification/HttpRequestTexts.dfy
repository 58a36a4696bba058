/** Requests written out byte by byte, and what each header line means, in whatever case it is written. */
module HttpRequestTexts {
  import opened Ascii
  import opened Numerals
  import opened HttpMessage
  import opened HttpChunks
  import opened HttpNames
  import opened HttpRequestParser
  import opened HttpRequestInvariant
  import opened HttpRequestRuns
  import opened HttpRequestBody
  import opened HttpRequestRoundTrip
  import opened Options

  /** A header line is read as it is written. For POST and PUT a length in it is the framing from then on ... */
  lemma LengthLine(s: Config, name: string, k: nat)
    requires s.state == HeaderLineStart && (s.req.verb == "POST" || s.req.verb == "PUT")
    requires TokenText(name) && k <= 0x7FFF_FFFF
    ensures Consume(s, name + ": " + Print(k, 10) + "\r\n") ==
            More(s.(req := s.req.(headers := s.req.headers + [Header(name, Print(k, 10))]),
                    contentSize := if SpellsContentLength(name) then k else s.contentSize))
  {
    var h := Header(name, Print(k, 10));
    PrintIsDigits(k, 10);
    AtoiReadsPrint(k);
    DigitsAreNoCoding(k);
    HeaderTexts(h);
    HeaderSpelling(h);
    hide Consume, Atoi, Print, IsContentLength, IsChunkedCoding, SpellsContentLength, TokenText, HeaderOk;
    HeaderRun(s, h);
  }

  lemma DigitsAreNoCoding(k: nat)
    ensures !SpellsChunked(Print(k, 10)) && FieldText(Print(k, 10))
  {
    PrintIsDigits(k, 10);
    hide Print;
    if SpellsChunked(Print(k, 10)) {
      ChunkedStartsWithLetter(Print(k, 10));
      assert false;
    }
  }

  lemma ChunkedStartsWithLetter(text: string)
    requires SpellsChunked(text)
    ensures text != "" && !IsDigit(text[0])
  {
  }

  /** ... and so is the coding "chunked", which no later line takes back; other lines change nothing. */
  lemma CodingLine(s: Config, name: string, value: string)
    requires s.state == HeaderLineStart && (s.req.verb == "POST" || s.req.verb == "PUT")
    requires TokenText(name) && FieldText(value) && !SpellsContentLength(name)
    ensures Consume(s, name + ": " + value + "\r\n") ==
            More(s.(req := s.req.(headers := s.req.headers + [Header(name, value)]),
                    chunked := s.chunked || (SpellsTransferEncoding(name) && SpellsChunked(value))))
  {
    var h := Header(name, value);
    HeaderTexts(h);
    HeaderSpelling(h);
    hide Consume, Atoi, IsContentLength, IsChunkedCoding, SpellsContentLength, TokenText, FieldText, HeaderOk;
    HeaderRun(s, h);
  }

  /** For other methods no header line frames anything. */
  lemma UnframedLine(s: Config, name: string, value: string)
    requires s.state == HeaderLineStart && s.req.verb != "POST" && s.req.verb != "PUT"
    requires TokenText(name) && FieldText(value)
    ensures Consume(s, name + ": " + value + "\r\n") ==
            More(s.(req := s.req.(headers := s.req.headers + [Header(name, value)])))
  {
    var h := Header(name, value);
    HeaderTexts(h);
    hide Consume, Atoi, TokenText, FieldText, HeaderOk;
    HeaderRun(s, h);
  }

  /** No header of the list is a Connection header, in any case. */
  predicate NoConnection(headers: seq<Header>) {
    forall i :: 0 <= i < |headers| ==> !SpellsConnection(headers[i].name)
  }

  lemma {:induction false} FirstIsConnection(front: seq<Header>, h: Header, back: seq<Header>)
    requires NoConnection(front) && SpellsConnection(h.name)
    ensures FirstConnection(front + [h] + back) == Some(h)
    decreases |front|
  {
    hide SpellsConnection, IsConnection;
    HeaderSpelling(h);
    var all := front + [h] + back;
    if front != [] {
      HeaderSpelling(front[0]);
      assert all[1..] == front[1..] + [h] + back;
      FirstIsConnection(front[1..], h, back);
    }
  }

  lemma {:induction false} NoneIsConnection(headers: seq<Header>)
    requires NoConnection(headers)
    ensures FirstConnection(headers) == None
    decreases |headers|
  {
    hide SpellsConnection, IsConnection;
    if headers != [] {
      HeaderSpelling(headers[0]);
      NoneIsConnection(headers[1..]);
    }
  }

  /** The first Connection header decides, and only "keep-alive" keeps the connection ... */
  lemma FirstConnectionDecides(major: nat, minor: nat, front: seq<Header>, h: Header, back: seq<Header>)
    requires NoConnection(front) && SpellsConnection(h.name)
    ensures KeepsAlive(major, minor, front + [h] + back) <==> SpellsKeepAlive(h.value)
  {
    hide SpellsConnection, SpellsKeepAlive, EqualIgnoreCase;
    FirstIsConnection(front, h, back);
    HeaderSpelling(h);
  }

  /** ... and without one the version does: 1.1 and everything from 2.0 on. */
  lemma VersionDecides(major: nat, minor: nat, headers: seq<Header>)
    requires NoConnection(headers)
    ensures KeepsAlive(major, minor, headers) <==> major > 1 || (major == 1 && minor == 1)
  {
    NoneIsConnection(headers);
  }

  /** Over every input that completes: `keepAlive` follows the first Connection header. */
  lemma ConnectionDecidesKeepAlive(input: string, r: Request, front: seq<Header>, h: Header, back: seq<Header>)
    requires Completes(input, r) && r.headers == front + [h] + back && NoConnection(front) && SpellsConnection(h.name)
    ensures r.keepAlive <==> SpellsKeepAlive(h.value)
  {
    hide Completes, KeepsAlive, SpellsConnection, SpellsKeepAlive;
    RequestFixpoint(input, r);
    FirstConnectionDecides(r.versionMajor, r.versionMinor, front, h, back);
  }

  /** Over every input that completes: `keepAlive` follows the version if there is no Connection header. */
  lemma VersionDecidesKeepAlive(input: string, r: Request)
    requires Completes(input, r) && NoConnection(r.headers)
    ensures r.keepAlive <==> r.versionMajor > 1 || (r.versionMajor == 1 && r.versionMinor == 1)
  {
    hide Completes, KeepsAlive, NoConnection;
    RequestFixpoint(input, r);
    VersionDecides(r.versionMajor, r.versionMinor, r.headers);
  }

  /** A request with one header, and what the header must be for it to be framed as it is. */
  lemma OneHeaderRules(r: Request)
    requires TokenText(r.verb) && UriText(r.uri) && |r.headers| == 1 && |r.content| <= LONG_MAX
    requires r.versionMajor <= 0x7FFF_FFFF - 48 && r.versionMinor <= 0x7FFF_FFFF - 48
    requires TokenText(r.headers[0].name) && FieldText(r.headers[0].value)
    requires r.keepAlive == KeepsAlive(r.versionMajor, r.versionMinor, r.headers)
    ensures LineDone(r) && HeadersOk(r.headers)
  {
    hide TokenChar, IsToken, KeepsAlive;
    forall c: char ensures IsToken(c) <==> TokenChar(c) {
      TokenCharacters(c);
    }
    HeaderTexts(r.headers[0]);
  }

  lemma OneHeaderPrint(r: Request)
    requires |r.headers| == 1
    ensures PrintHeaders(r.headers) == r.headers[0].name + ": " + r.headers[0].value + "\r\n"
  {
    assert r.headers[..0] == [];
    assert "" + PrintHeader(r.headers[0]) == PrintHeader(r.headers[0]);
  }

  lemma OneHeaderKeepAlive(h: Header, major: nat, minor: nat)
    ensures KeepsAlive(major, minor, [h]) ==
            if SpellsConnection(h.name) then SpellsKeepAlive(h.value) else major > 1 || (major == 1 && minor == 1)
  {
    hide SpellsConnection, SpellsKeepAlive, KeepsAlive;
    if SpellsConnection(h.name) {
      FirstConnectionDecides(major, minor, [], h, []);
      assert [] + [h] + [] == [h];
    } else {
      VersionDecides(major, minor, [h]);
    }
  }

  /** Whether a request is alive after one header. */
  predicate KeptBy(name: string, value: string, major: nat, minor: nat) {
    if SpellsConnection(name) then SpellsKeepAlive(value) else major > 1 || (major == 1 && minor == 1)
  }

  lemma OneHeaderText(r: Request)
    requires |r.headers| == 1
    ensures
      PrintRequest(r) ==
      r.verb + " " + r.uri + " HTTP/" + Print(r.versionMajor, 10) + "." + Print(r.versionMinor, 10) + "\r\n"
      + (r.headers[0].name + ": " + r.headers[0].value + "\r\n" + "\r\n"
         + PrintBody(TakesBody(r.verb) && SaysChunked(r.headers), r.content))
  {
    hide Print, PrintBody, SaysChunked, TakesBody, PrintHeaders;
    OneHeaderPrint(r);
  }

  /** A request without a body, written out: completed as it was written. */
  lemma PlainRequest(verb: string, uri: string, major: nat, minor: nat, name: string, value: string)
    requires TokenText(verb) && verb != "POST" && verb != "PUT" && UriText(uri)
    requires major <= 0x7FFF_FFFF - 48 && minor <= 0x7FFF_FFFF - 48 && TokenText(name) && FieldText(value)
    ensures Completes(
              verb + " " + uri + " HTTP/" + Print(major, 10) + "." + Print(minor, 10) + "\r\n"
              + (name + ": " + value + "\r\n" + "\r\n"),
              Request(verb, uri, major, minor, [Header(name, value)], "", KeptBy(name, value, major, minor)))
  {
    var h := Header(name, value);
    var r := Request(verb, uri, major, minor, [h], "", KeptBy(name, value, major, minor));
    hide Completes, Print, SpellsConnection, SpellsKeepAlive, KeepsAlive, TokenText, UriText, FieldText, LineDone,
         HeadersOk, PrintHeaders, PrintRequest;
    OneHeaderKeepAlive(h, major, minor);
    OneHeaderRules(r);
    OneHeaderText(r);
    PrintOfFramed(r);
    assert name + ": " + value + "\r\n" + "\r\n" + "" == name + ": " + value + "\r\n" + "\r\n";
  }

  lemma VersionOneOne(line: string)
    ensures line + " HTTP/" + Print(1, 10) + "." + Print(1, 10) + "\r\n" == line + " HTTP/1.1\r\n"
  {
    assert Print(1, 10) == "1";
    assert " HTTP/" + "1" + "." + "1" + "\r\n" == " HTTP/1.1\r\n";
    hide Print;
    assert line + " HTTP/" + "1" + "." + "1" + "\r\n" == line + (" HTTP/" + "1" + "." + "1" + "\r\n");
  }

  lemma VerbTexts()
    ensures TokenText("POST") && TokenText("PUT")
  {
  }

  lemma LengthHeader(h: Header, n: nat)
    requires SpellsContentLength(h.name) && h.value == Print(n, 10) && n <= 0x7FFF_FFFF
    ensures LengthsOk([h]) && ContentLength([h]) == n && !SaysChunked([h]) && !SpellsConnection(h.name)
  {
    hide Atoi, Print, EqualIgnoreCase, IsContentLength, IsChunkedCoding, IsTransferEncoding;
    AtoiReadsPrint(n);
    HeaderSpelling(h);
    NotBothSpellings(h.name);
    ChunkedIsTransferEncoding(h);
  }

  lemma NotBothSpellings(name: string)
    ensures !(SpellsContentLength(name) && SpellsConnection(name))
    ensures !(SpellsContentLength(name) && SpellsTransferEncoding(name))
    ensures !(SpellsTransferEncoding(name) && SpellsConnection(name))
  {
  }

  lemma ChunkedIsTransferEncoding(h: Header)
    ensures IsChunkedCoding(h) ==> SpellsTransferEncoding(h.name)
  {
    hide SpellsTransferEncoding, EqualIgnoreCase;
    HeaderSpelling(h);
  }

  lemma LengthRules(r: Request, h: Header)
    requires (r.verb == "POST" || r.verb == "PUT") && UriText(r.uri)
    requires r.versionMajor <= 0x7FFF_FFFF - 48 && r.versionMinor <= 0x7FFF_FFFF - 48
    requires r.headers == [h] && TokenText(h.name) && SpellsContentLength(h.name)
    requires h.value == Print(|r.content|, 10) && |r.content| <= 0x7FFF_FFFF
    requires r.keepAlive == (r.versionMajor > 1 || (r.versionMajor == 1 && r.versionMinor == 1))
    ensures RequestRules(r) && Framed(r) && !SaysChunked(r.headers)
  {
    hide Print, KeepsAlive, TokenText, UriText, FieldText, LineDone, HeadersOk, SpellsContentLength, SpellsConnection,
         ContentLength, LengthsOk, SaysChunked, MayHaveSaidChunked;
    DigitsAreNoCoding(|r.content|);
    VerbTexts();
    LengthHeader(h, |r.content|);
    OneHeaderKeepAlive(h, r.versionMajor, r.versionMinor);
    OneHeaderRules(r);
  }

  /** A body with its length, written out, whatever case the header's name is written in. */
  lemma LengthRequest(verb: string, uri: string, name: string, content: string)
    requires (verb == "POST" || verb == "PUT") && UriText(uri)
    requires TokenText(name) && SpellsContentLength(name) && |content| <= 0x7FFF_FFFF
    ensures Completes(
              verb + " " + uri + " HTTP/1.1\r\n" + (name + ": " + Print(|content|, 10) + "\r\n" + "\r\n" + content),
              Request(verb, uri, 1, 1, [Header(name, Print(|content|, 10))], content, true))
  {
    hide *;
    var h := Header(name, Print(|content|, 10));
    var r := Request(verb, uri, 1, 1, [h], content, true);
    LengthRules(r, h);
    OneHeaderText(r);
    VersionOneOne(verb + " " + uri);
    PlainBody(content);
    PrintOfFramed(r);
  }

  lemma PlainBody(content: string)
    ensures PrintBody(false, content) == content
  {
  }

  lemma CodingHeader(h: Header)
    requires SpellsTransferEncoding(h.name) && SpellsChunked(h.value)
    ensures LengthsOk([h]) && SaysChunked([h]) && MayHaveSaidChunked([h]) && !SpellsConnection(h.name)
  {
    HeaderSpelling(h);
    NotBothSpellings(h.name);
    hide EqualIgnoreCase, SpellsTransferEncoding, SpellsContentLength, SpellsConnection, SpellsChunked;
    SplitLast([h]);
    assert IsChunkedCoding([h][0]);
  }

  lemma ChunkedIsText(value: string)
    requires SpellsChunked(value)
    ensures FieldText(value)
  {
    assert forall i :: 0 <= i < |value| ==> 67 <= value[i] as int <= 117;
  }

  lemma CodingRules(r: Request, h: Header)
    requires (r.verb == "POST" || r.verb == "PUT") && UriText(r.uri)
    requires r.versionMajor <= 0x7FFF_FFFF - 48 && r.versionMinor <= 0x7FFF_FFFF - 48
    requires r.headers == [h] && TokenText(h.name) && SpellsTransferEncoding(h.name) && SpellsChunked(h.value)
    requires |r.content| <= LONG_MAX
    requires r.keepAlive == (r.versionMajor > 1 || (r.versionMajor == 1 && r.versionMinor == 1))
    ensures RequestRules(r) && Framed(r) && TakesBody(r.verb) && SaysChunked(r.headers)
  {
    hide KeepsAlive, TokenText, UriText, FieldText, LineDone, HeadersOk, SpellsTransferEncoding, SpellsChunked,
         SpellsConnection, LengthsOk, SaysChunked, MayHaveSaidChunked, ContentLength;
    VerbTexts();
    ChunkedIsText(h.value);
    CodingHeader(h);
    OneHeaderKeepAlive(h, r.versionMajor, r.versionMinor);
    OneHeaderRules(r);
  }

  /** The same body as one chunk, whatever case the header is written in. */
  lemma ChunkedRequest(verb: string, uri: string, name: string, value: string, content: string)
    requires (verb == "POST" || verb == "PUT") && UriText(uri)
    requires TokenText(name) && SpellsTransferEncoding(name) && SpellsChunked(value)
    requires content != "" && |content| <= LONG_MAX
    ensures Completes(
              verb + " " + uri + " HTTP/1.1\r\n"
              + (name + ": " + value + "\r\n" + "\r\n"
                 + (Print(|content|, 16) + "\r\n" + content + "\r\n" + "0\r\n\r\n")),
              Request(verb, uri, 1, 1, [Header(name, value)], content, true))
  {
    hide *;
    var h := Header(name, value);
    var r := Request(verb, uri, 1, 1, [h], content, true);
    CodingRules(r, h);
    OneHeaderText(r);
    VersionOneOne(verb + " " + uri);
    OneChunkText(content);
    PrintOfFramed(r);
  }

  lemma ZeroChunkText(ext: Extension, trailers: seq<Trailer>)
    requires ext == NoExtension
    ensures PrintChunked(ChunkedBody([], "0", ext, trailers)) == "0\r\n" + PrintTrailers(trailers)
  {
    assert "0" + "" + "\r\n" == "0\r\n";
  }

  lemma LastChunkText(chunk: Chunk, trailers: seq<Trailer>)
    ensures PrintChunked(ChunkedBody([chunk], "0", NoExtension, trailers)) ==
            PrintChunk(chunk) + ("0\r\n" + PrintTrailers(trailers))
  {
    hide PrintChunk, PrintTrailers, PrintSizeLine;
    ZeroChunkText(NoExtension, trailers);
    assert [chunk][1..] == [];
  }

  lemma OneChunkText(content: string)
    requires content != ""
    ensures PrintBody(true, content) == Print(|content|, 16) + "\r\n" + content + "\r\n" + "0\r\n\r\n"
  {
    hide Print, PrintTrailers, PrintChunk, PrintChunked;
    var size := Print(|content|, 16);
    LastChunkText(Chunk(size, NoExtension, content), []);
    NoTrailersText();
    ChunkText(size, content);
    assert "0\r\n" + "\r\n" == "0\r\n\r\n";
  }

  lemma NoTrailersText()
    ensures PrintTrailers([]) == "\r\n"
  {
  }

  lemma ChunkText(size: string, data: string)
    ensures PrintChunk(Chunk(size, NoExtension, data)) == size + "\r\n" + data + "\r\n"
  {
    assert size + "" + "\r\n" == size + "\r\n";
  }

  lemma TrailerText(trailer: string, text: string)
    requires trailer != ""
    ensures PrintTrailers([Trailer(trailer[0], trailer[1..], text)]) == trailer + ":" + text + "\r\n" + "\r\n"
  {
    var end := Trailer(trailer[0], trailer[1..], text);
    assert [end][1..] == [];
    assert [trailer[0]] + trailer[1..] == trailer;
  }

  lemma ExtendedChunkText(size: string, name: string, value: string, data: string)
    ensures PrintChunk(Chunk(size, Valued(name, value), data)) ==
            size + ";" + name + "=" + value + "\r\n" + data + "\r\n"
  {
    assert size + (";" + name + "=" + value) == size + ";" + name + "=" + value;
  }

  /** A chunk with an extension, the zero chunk, and a trailer, written out. */
  lemma ExtendedBody(s: Config, data: string, name: string, value: string, trailer: string, text: string)
    requires s.state == ChunkSize && s.chunkSizeStr == "" && s.chunkSize == 0
    requires data != "" && |s.req.content| + |data| <= LONG_MAX
    requires AllAlnumOrSpace(name) && AllAlnumOrSpace(value) && AllAlnumOrSpace(text)
    requires trailer != "" && AllAlnum(trailer) && IsAlpha(trailer[0])
    ensures
      var body := Print(|data|, 16) + ";" + name + "=" + value + "\r\n" + data + "\r\n"
                  + ("0\r\n" + (trailer + ":" + text + "\r\n" + "\r\n"));
      CompletesExactly(s, body, s.(state := ChunkSizeNewLine_3, req := s.req.(content := s.req.content + data)))
  {
    hide CompletesExactly, Consume, Strtol, Print, PrintChunk, PrintTrailers, PrintChunked;
    var chunk := Chunk(Print(|data|, 16), Valued(name, value), data);
    var end := Trailer(trailer[0], trailer[1..], text);
    var body := ChunkedBody([chunk], "0", NoExtension, [end]);
    PrintIsDigits(|data|, 16);
    StrtolReadsPrint(|data|, 16);
    ZeroSize();
    assert body.chunks[1..] == [];
    assert Data(body.chunks) == data + "";
    assert data + "" == data;
    ChunkedRun(s, body);
    TrailerText(trailer, text);
    ExtendedChunkText(Print(|data|, 16), name, value, data);
    LastChunkText(chunk, [end]);
  }

  lemma ZeroSize()
    ensures SizeOk("0", 0)
  {
    PrintIsDigits(0, 16);
    StrtolReadsPrint(0, 16);
    assert Print(0, 16) == "0";
  }

  /** The simple request of version 0.9: it ends at the first CR after the uri. */
  lemma SimpleRequest(verb: string, uri: string)
    requires TokenText(verb) && UriText(uri)
    ensures Completes(verb + " " + uri + "\r", Request(verb, uri, 0, 9, [], "", false))
  {
    TokenChars(verb);
    VerbStart(verb);
    var s := Fresh.(state := RequestUriStart, req := FreshRequest.(verb := verb));
    UriStart(s, uri);
    var t := s.(state := RequestUri, req := s.req.(uri := uri));
    SimpleEnd(t);
    hide Consume, TokenText, UriText;
    RunThenRun(Fresh, verb + " ", s, uri, t);
    ConsumeConcat(Fresh, verb + " " + uri, "\r");
  }

  lemma TokenChars(verb: string)
    requires TokenText(verb)
    ensures VerbOk(verb)
  {
    hide TokenChar, IsToken;
    forall c: char ensures IsToken(c) <==> TokenChar(c) {
      TokenCharacters(c);
    }
  }

  lemma SimpleEnd(s: Config)
    requires s.state == RequestUri
    ensures Consume(s, "\r") == Stop(ParsingCompleted, s.(req := s.req.(versionMajor := 0, versionMinor := 9)))
  {
    hide Consume, StepHeaders, StepBody;
    OneByte(s, '\r');
  }

  /** The byte after the CR of the empty line: with a body to come it is any byte, without one it must be the LF. */
  lemma ByteAfterLastCr(s: Config, c: char)
    requires s.state == ExpectingNewline_3
    ensures s.chunked || s.contentSize != 0 ==> Step(s, c).More? && Step(s, c) == Step(s, '\n')
    ensures !s.chunked && s.contentSize == 0 ==>
              Step(s, c).Stop? && Step(s, c).result == if c == '\n' then ParsingCompleted else ParsingError
  {
    hide KeepsAlive, EqualIgnoreCase, StepRequestLine, StepBody;
  }

  lemma {:induction false} BlanksRun(s: Config, blanks: string)
    requires s.state == HeaderLws && forall i :: 0 <= i < |blanks| ==> blanks[i] == ' ' || blanks[i] == '\t'
    ensures Consume(s, blanks) == More(s)
    decreases |blanks|
  {
    if blanks != "" {
      assert Step(s, blanks[0]) == More(s) by {
        hide StepRequestLine, StepBody, EndHeaderLine;
      }
      hide Step;
      BlanksRun(s, blanks[1..]);
    }
  }

  lemma ContinuationSteps(s: Config, blank: char, c: char, front: seq<Header>, h: Header)
    requires s.state == HeaderLineStart && s.req.headers == front + [h]
    requires (blank == ' ' || blank == '\t') && 32 < c as int && c as int != 127
    ensures Step(s, blank) == More(s.(state := HeaderLws))
    ensures Step(s.(state := HeaderLws), c) ==
            More(s.(state := HeaderValue, req := s.req.(headers := front + [h.(value := h.value + [c])])))
  {
    hide StepRequestLine, StepBody, EndHeaderLine, IsToken;
    assert s.req.headers[..|front|] == front;
  }

  /** A line that starts with spaces or tabs goes on with the value of the last header, without them. */
  lemma ContinuationLine(s: Config, blanks: string, c: char, front: seq<Header>, h: Header)
    requires s.state == HeaderLineStart && s.req.headers == front + [h]
    requires blanks != "" && forall i :: 0 <= i < |blanks| ==> blanks[i] == ' ' || blanks[i] == '\t'
    requires 32 < c as int && c as int != 127
    ensures Consume(s, blanks + [c]) ==
            More(s.(state := HeaderValue, req := s.req.(headers := front + [h.(value := h.value + [c])])))
  {
    var t := s.(state := HeaderLws);
    ContinuationSteps(s, blanks[0], c, front, h);
    hide Step, Consume;
    OneByte(s, blanks[0]);
    BlanksRun(t, blanks[1..]);
    OneByte(t, c);
    RunThenRun(s, [blanks[0]], t, blanks[1..], t);
    assert [blanks[0]] + blanks[1..] == blanks;
    RunThenRun(s, blanks, t, [c], Step(t, c).next);
  }
}
