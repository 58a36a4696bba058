/** Responses written out byte by byte, and what each header line means for them, in whatever case it is written. */
module HttpResponseTexts {
  import opened Ascii
  import opened Numerals
  import opened HttpMessage
  import opened HttpChunks
  import opened HttpNames
  import opened HttpResponseParser
  import opened HttpBisimulation
  import opened HttpResponseRoundTrip
  import opened HttpResponseFraming
  import Req = HttpRequestParser
  import ReqInv = HttpRequestInvariant
  import ReqTrip = HttpRequestRoundTrip
  import ReqTexts = HttpRequestTexts
  import opened Options

  lemma SameAfterLine(s: Config, input: string, t: Config)
    requires s.state == HeaderLineStart && t.state == HeaderLineStart
    requires t.resp.statusCode == s.resp.statusCode && t.resp.status == s.resp.status
    requires Req.Consume(AsPost(s), input) == Req.More(AsPost(t))
    ensures Consume(s, input) == More(t)
  {
    hide Consume, Req.Consume;
    Bisimulation(s, "POST", "/", input);
  }

  /** A length in a header line is the framing from then on ... */
  lemma LengthLine(s: Config, name: string, k: nat)
    requires s.state == HeaderLineStart && TokenText(name) && k <= 0x7FFF_FFFF
    ensures Consume(s, name + ": " + Print(k, 10) + "\r\n") ==
            More(s.(resp := s.resp.(headers := s.resp.headers + [Header(name, Print(k, 10))]),
                    contentSize := if SpellsContentLength(name) then k else s.contentSize))
  {
    hide Consume, Req.Consume, Print, SpellsContentLength, TokenText;
    ReqTexts.LengthLine(AsPost(s), name, k);
    SameAfterLine(s, name + ": " + Print(k, 10) + "\r\n",
                  s.(resp := s.resp.(headers := s.resp.headers + [Header(name, Print(k, 10))]),
                     contentSize := if SpellsContentLength(name) then k else s.contentSize));
  }

  /** ... and so is the coding "chunked", which no later line takes back; other lines change nothing. */
  lemma CodingLine(s: Config, name: string, value: string)
    requires s.state == HeaderLineStart && TokenText(name) && FieldText(value) && !SpellsContentLength(name)
    ensures Consume(s, name + ": " + value + "\r\n") ==
            More(s.(resp := s.resp.(headers := s.resp.headers + [Header(name, value)]),
                    chunked := s.chunked || (SpellsTransferEncoding(name) && SpellsChunked(value))))
  {
    hide Consume, Req.Consume, SpellsContentLength, SpellsTransferEncoding, SpellsChunked, TokenText, FieldText;
    ReqTexts.CodingLine(AsPost(s), name, value);
    SameAfterLine(s, name + ": " + value + "\r\n",
                  s.(resp := s.resp.(headers := s.resp.headers + [Header(name, value)]),
                     chunked := s.chunked || (SpellsTransferEncoding(name) && SpellsChunked(value))));
  }

  /** Over every input that completes: `keepAlive` follows the first Connection header. */
  lemma ConnectionDecidesKeepAlive(input: string, r: Response, front: seq<Header>, h: Header, back: seq<Header>)
    requires Completes(input, r) && r.headers == front + [h] + back
    requires ReqTexts.NoConnection(front) && SpellsConnection(h.name)
    ensures r.keepAlive <==> SpellsKeepAlive(h.value)
  {
    hide Completes, KeepsAlive, SpellsConnection, SpellsKeepAlive;
    ResponseFixpoint(input, r);
    ReqTexts.FirstConnectionDecides(r.versionMajor, r.versionMinor, front, h, back);
  }

  /** Over every input that completes: `keepAlive` follows the version if there is no Connection header. */
  lemma VersionDecidesKeepAlive(input: string, r: Response)
    requires Completes(input, r) && ReqTexts.NoConnection(r.headers)
    ensures r.keepAlive <==> r.versionMajor > 1 || (r.versionMajor == 1 && r.versionMinor == 1)
  {
    hide Completes, KeepsAlive, ReqTexts.NoConnection;
    ResponseFixpoint(input, r);
    ReqTexts.VersionDecides(r.versionMajor, r.versionMinor, r.headers);
  }

  lemma ReasonIsOk(reason: string)
    requires ReasonText(reason)
    ensures StatusOk(reason)
  {
  }

  lemma SlashIsUri()
    ensures UriText("/")
  {
  }

  lemma Join(a: string, b: string, c: string)
    ensures a + (b + c) == a + b + c
  {
  }

  lemma OneHeaderText(r: Response)
    requires |r.headers| == 1
    ensures
      PrintResponse(r) ==
      "HTTP/" + Print(r.versionMajor, 10) + "." + Print(r.versionMinor, 10) + " " + Print(r.statusCode, 10) + " "
      + r.status + "\r\n"
      + (r.headers[0].name + ": " + r.headers[0].value + "\r\n" + "\r\n"
         + PrintBody(SaysChunked(r.headers), r.content))
  {
    hide Print, PrintBody, SaysChunked, PrintHeaders;
    ReqTexts.OneHeaderPrint(TwinMessage(r, "POST", "/"));
    var version := "HTTP/" + Print(r.versionMajor, 10) + "." + Print(r.versionMinor, 10) + " ";
    Join(version, Print(r.statusCode, 10), " ");
    Join(version + Print(r.statusCode, 10) + " ", r.status, "\r\n");
  }

  /** Version, code and reason of a response, and whether its version keeps the connection. */
  predicate LineText(r: Response) {
    && r.versionMajor <= 0x7FFF_FFFF - 48 && r.versionMinor <= 0x7FFF_FFFF - 48
    && 100 <= r.statusCode <= 999 && ReasonText(r.status)
    && r.keepAlive == (r.versionMajor > 1 || (r.versionMajor == 1 && r.versionMinor == 1))
  }

  lemma LengthRules(r: Response, h: Header)
    requires LineText(r) && r.headers == [h] && TokenText(h.name) && SpellsContentLength(h.name)
    requires h.value == Print(|r.content|, 10) && |r.content| <= 0x7FFF_FFFF
    ensures ResponseRules(r) && Framed(r) && !SaysChunked(r.headers)
  {
    hide Print, ReqInv.RequestRules, TokenText, SpellsContentLength, ReasonText, UriText, SaysChunked, ContentLength,
         StatusOk;
    ReasonIsOk(r.status);
    SlashIsUri();
    ReqTexts.LengthRules(TwinMessage(r, "POST", "/"), h);
  }

  lemma CodingRules(r: Response, h: Header)
    requires LineText(r) && r.headers == [h] && TokenText(h.name) && SpellsTransferEncoding(h.name)
    requires SpellsChunked(h.value) && |r.content| <= LONG_MAX
    ensures ResponseRules(r) && Framed(r) && SaysChunked(r.headers)
  {
    hide ReqInv.RequestRules, TokenText, SpellsTransferEncoding, SpellsChunked, ReasonText, UriText, SaysChunked,
         ContentLength, StatusOk;
    ReasonIsOk(r.status);
    SlashIsUri();
    ReqTexts.CodingRules(TwinMessage(r, "POST", "/"), h);
  }

  /** A body with its length, written out, whatever case the header's name is written in. */
  lemma LengthResponse(major: nat, minor: nat, code: nat, reason: string, name: string, content: string)
    requires major <= 0x7FFF_FFFF - 48 && minor <= 0x7FFF_FFFF - 48 && 100 <= code <= 999 && ReasonText(reason)
    requires TokenText(name) && SpellsContentLength(name) && |content| <= 0x7FFF_FFFF
    ensures Completes(
              "HTTP/" + Print(major, 10) + "." + Print(minor, 10) + " " + Print(code, 10) + " " + reason + "\r\n"
              + (name + ": " + Print(|content|, 10) + "\r\n" + "\r\n" + content),
              Response(major, minor, [Header(name, Print(|content|, 10))], content,
                       major > 1 || (major == 1 && minor == 1), code, reason))
  {
    var h := Header(name, Print(|content|, 10));
    var r := Response(major, minor, [h], content, major > 1 || (major == 1 && minor == 1), code, reason);
    hide Completes, Print, TokenText, SpellsContentLength, SpellsTransferEncoding, SpellsChunked, ReasonText, PrintBody,
         PrintResponse, SaysChunked, ResponseRules, Framed;
    LengthRules(r, h);
    OneHeaderText(r);
    ReqTexts.PlainBody(content);
    PrintedResponseCompletes(r);
  }

  /** The same body as one chunk, whatever case the header is written in. */
  lemma ChunkedResponse(
      major: nat, minor: nat, code: nat, reason: string, name: string, value: string, content: string)
    requires major <= 0x7FFF_FFFF - 48 && minor <= 0x7FFF_FFFF - 48 && 100 <= code <= 999 && ReasonText(reason)
    requires TokenText(name) && SpellsTransferEncoding(name) && SpellsChunked(value)
    requires content != "" && |content| <= LONG_MAX
    ensures Completes(
              "HTTP/" + Print(major, 10) + "." + Print(minor, 10) + " " + Print(code, 10) + " " + reason + "\r\n"
              + (name + ": " + value + "\r\n" + "\r\n"
                 + (Print(|content|, 16) + "\r\n" + content + "\r\n" + "0\r\n\r\n")),
              Response(major, minor, [Header(name, value)], content,
                       major > 1 || (major == 1 && minor == 1), code, reason))
  {
    var h := Header(name, value);
    var r := Response(major, minor, [h], content, major > 1 || (major == 1 && minor == 1), code, reason);
    hide Completes, Print, TokenText, SpellsContentLength, SpellsTransferEncoding, SpellsChunked, ReasonText, PrintBody,
         PrintResponse, SaysChunked, ResponseRules, Framed;
    CodingRules(r, h);
    OneHeaderText(r);
    ReqTexts.OneChunkText(content);
    PrintedResponseCompletes(r);
  }

  /** The byte after the CR of the empty line: with a body to come it is any byte, without one it must be the LF. */
  lemma ByteAfterLastCr(s: Config, c: char)
    requires s.state == ExpectingNewline_3
    ensures s.chunked || s.contentSize != 0 ==> Step(s, c).More? && Step(s, c) == Step(s, '\n')
    ensures !s.chunked && s.contentSize == 0 ==>
              Step(s, c).Stop? && Step(s, c).result == if c == '\n' then ParsingCompleted else ParsingError
  {
    hide KeepsAlive, EqualIgnoreCase, StepStatusLine, StepBody;
  }
}
