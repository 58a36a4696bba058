/**
  Which requests can result from parsing. The unframed ones among them come from a continuation line: they are
  printed here with one, after "chunked".
 */
module HttpRequestImage {
  import opened Ascii
  import opened Numerals
  import opened HttpMessage
  import opened HttpChunks
  import opened HttpRequestParser
  import opened HttpRequestInvariant
  import opened HttpRequestRuns
  import opened HttpRequestBody
  import opened HttpRequestRoundTrip
  import opened Options

  /** A header whose value says "chunked" at the end of its first line and goes on in a second. */
  predicate Foldable(h: Header) {
    HeaderOk(h) && StartsChunked(h) && |h.value| > 7
  }

  function FirstLine(h: Header): Header
    requires |h.value| > 7
  {
    h.(value := h.value[..7])
  }

  function PrintFolded(h: Header): string
    requires |h.value| > 7
  {
    PrintHeader(FirstLine(h)) + " " + h.value[7..] + "\r\n"
  }

  /** The header block with the header at `i` in two lines. */
  function PrintHeadersFolded(headers: seq<Header>, i: nat): string
    requires i < |headers| && |headers[i].value| > 7
  {
    var n := |headers| - 1;
    if i == n then PrintHeaders(headers[..n]) + PrintFolded(headers[n])
    else PrintHeadersFolded(headers[..n], i) + PrintHeader(headers[n])
  }

  function PrintFoldedMessage(headers: seq<Header>, i: nat, content: string): string
    requires i < |headers| && |headers[i].value| > 7
  {
    PrintHeadersFolded(headers, i) + "\r" + ("\n" + PrintBody(true, content))
  }

  lemma FirstLineSaysChunked(h: Header)
    requires Foldable(h)
    ensures HeaderOk(FirstLine(h)) && IsChunkedCoding(FirstLine(h)) && !IsContentLength(h)
    ensures !IsContentLength(FirstLine(h))
  {
    OneKindOfFraming(h);
    OneKindOfFraming(FirstLine(h));
    hide EqualIgnoreCase;
  }

  lemma ContinuationSteps(s: Config, c: char)
    requires s.state == HeaderLineStart && s.req.headers != [] && !IsControl(c) && c != ' '
    ensures Step(s, ' ') == More(s.(state := HeaderLws))
    ensures Step(s.(state := HeaderLws), c) == More(PushValue(s, c).(state := HeaderValue))
  {
    hide StepRequestLine, StepBody, IsToken;
  }

  /** The space that starts a continuation line, and the first byte after it. */
  lemma ContinuationRun(s: Config, c: char)
    requires s.state == HeaderLineStart && s.req.headers != [] && !IsControl(c) && c != ' '
    ensures Consume(s, [' ', c]) == More(PushValue(s, c).(state := HeaderValue))
  {
    hide Step, Consume, PushValue, IsControl;
    ContinuationSteps(s, c);
    TwoBytes(s, ' ', s.(state := HeaderLws), c);
  }

  /** A second line is appended to the value of the last header; `chunked` stays set. */
  lemma SecondLineRun(s: Config, front: seq<Header>, h: Header)
    requires s.state == HeaderLineStart && s.chunked && TakesBody(s.req.verb) && Foldable(h)
    requires s.req.headers == front + [FirstLine(h)]
    ensures Consume(s, " " + h.value[7..] + "\r\n") == More(s.(req := s.req.(headers := front + [h])))
  {
    hide Consume, Step, EqualIgnoreCase, IsContentLength, Atoi, TakesBody, IsChunkedCoding;
    FirstLineSaysChunked(h);
    var c, rest, n := h.value[7], h.value[8..], |front|;
    ContinuationRun(s, c);
    var s1 := PushValue(s, c).(state := HeaderValue);
    assert s.req.headers[..n] == front;
    assert s1.req.headers[..n] == front && s1.req.headers[n] == h.(value := h.value[..7] + [c]);
    ValueRun(s1, rest);
    assert h.value[..7] + [c] + rest == h.value;
    var s2 := s1.(req := s.req.(headers := front + [h]));
    RunThenRun(s, [' ', c], s1, rest, s2);
    assert [' ', c] + rest == " " + h.value[7..];
    HeaderEndRun(s2, h);
    RunThenRun(s, " " + h.value[7..], s2, "\r\n", s2.(state := HeaderLineStart));
  }

  lemma FoldedHeaderRun(s: Config, h: Header)
    requires s.state == HeaderLineStart && TakesBody(s.req.verb) && Foldable(h)
    ensures Consume(s, PrintFolded(h)) ==
            More(s.(chunked := true, req := s.req.(headers := s.req.headers + [h])))
  {
    hide Consume, EqualIgnoreCase, IsContentLength, IsChunkedCoding, Atoi, TakesBody, PrintHeader;
    FirstLineSaysChunked(h);
    HeaderRun(s, FirstLine(h));
    var s1 := s.(chunked := true, req := s.req.(headers := s.req.headers + [FirstLine(h)]));
    SecondLineRun(s1, s.req.headers, h);
    RunThenRun(s, PrintHeader(FirstLine(h)), s1, " " + h.value[7..] + "\r\n",
               s1.(req := s.req.(headers := s.req.headers + [h])));
    assert PrintHeader(FirstLine(h)) + (" " + h.value[7..] + "\r\n") == PrintFolded(h);
  }

  /** The parser after a header block of which one header was folded. */
  function AfterFolded(s: Config, headers: seq<Header>): Config
    requires ContentLength(headers) >= 0
  {
    s.(req := s.req.(headers := headers), contentSize := ContentLength(headers), chunked := true)
  }

  lemma {:induction false} FoldedHeadersRun(s: Config, headers: seq<Header>, i: nat)
    requires AtFirstHeader(s) && TakesBody(s.req.verb) && HeadersOk(headers) && LengthsOk(headers)
    requires i < |headers| && Foldable(headers[i])
    ensures ContentLength(headers) >= 0
    ensures Consume(s, PrintHeadersFolded(headers, i)) == More(AfterFolded(s, headers))
    decreases |headers|
  {
    hide Atoi, EqualIgnoreCase, Consume, IsContentLength, IsChunkedCoding, PrintHeader, PrintFolded, TakesBody;
    ContentLengthRange(headers);
    var n := |headers| - 1;
    var front, last := headers[..n], headers[n];
    assert headers == front + [last];
    SplitLast(headers);
    if i == n {
      HeadersRun(s, front);
      var t := Consume(s, PrintHeaders(front)).next;
      FirstLineSaysChunked(last);
      FoldedHeaderRun(t, last);
      RunThenRun(s, PrintHeaders(front), t, PrintFolded(last), AfterFolded(s, headers));
    } else {
      FoldedHeadersRun(s, front, i);
      var t := AfterFolded(s, front);
      HeaderRun(t, last);
      RunThenRun(s, PrintHeadersFolded(front, i), t, PrintHeader(last), AfterHeader(t, last));
    }
  }

  /** A message with such a header completes whatever its content, since it can be sent as a chunk. */
  lemma FoldedMessageRun(s: Config, headers: seq<Header>, i: nat, content: string) returns (last: Config)
    requires AtFirstHeader(s) && TakesBody(s.req.verb) && HeadersOk(headers) && LengthsOk(headers)
    requires |content| <= LONG_MAX && i < |headers| && Foldable(headers[i])
    ensures CompletesExactly(s, PrintFoldedMessage(headers, i, content), last)
    ensures last.req == s.req.(headers := headers, content := content,
                               keepAlive := KeepsAlive(s.req.versionMajor, s.req.versionMinor, headers))
  {
    hide Consume, CompletesExactly, PrintHeadersFolded, PrintBody, KeepsAlive, TakesBody;
    FoldedHeadersRun(s, headers, i);
    var t := AfterFolded(s, headers);
    var u := t.(state := ExpectingNewline_3);
    BlockEndRun(t);
    RunThenRun(s, PrintHeadersFolded(headers, i), t, "\r", u);
    last := BodyRun(u, content);
    RunThenComplete(s, PrintHeadersFolded(headers, i) + "\r", u, "\n" + PrintBody(true, content), last);
  }

  lemma BlockEndRun(s: Config)
    requires s.state == HeaderLineStart
    ensures Consume(s, "\r") == More(s.(state := ExpectingNewline_3))
  {
    hide Consume, StepRequestLine, StepBody;
    OneByte(s, '\r');
  }

  /** Every request that obeys the rules results from some input: from its print, or from its print with a fold. */
  lemma RequestResults(r: Request) returns (input: string)
    requires RequestRules(r)
    ensures Completes(input, r)
  {
    hide Consume, PrintRequest, PrintFoldedMessage, PrintRequestLine, KeepsAlive, ContentLength, LengthsOk,
         EqualIgnoreCase;
    if Framed(r) {
      var last := PrintedRequestCompletes(r);
      input := PrintRequest(r);
    } else {
      var i :| 0 <= i < |r.headers| && StartsChunked(r.headers[i]);
      SevenSaysChunked(r.headers[i]);
      RequestLineRun(r);
      var last := FoldedMessageRun(LineRead(r), r.headers, i, r.content);
      input := PrintRequestLine(r) + PrintFoldedMessage(r.headers, i, r.content);
      RunThenComplete(Fresh, PrintRequestLine(r), LineRead(r), PrintFoldedMessage(r.headers, i, r.content), last);
    }
  }

  lemma SevenSaysChunked(h: Header)
    requires StartsChunked(h)
    ensures |h.value| > 7 || IsChunkedCoding(h)
  {
    if |h.value| == 7 {
      assert h.value[..7] == h.value;
    }
  }

  /**
    Which requests, of all there are, come back from their print; and which result from any input at all: those that
    obey the rules, a condition on each component alone and on the framing.
   */
  lemma CanonicalRequests(r: Request)
    ensures Completes(PrintRequest(r), r) <==> RequestRules(r) && Framed(r)
    ensures (exists input :: Completes(input, r)) <==> RequestRules(r)
  {
    hide RequestRules, Framed, Completes, PrintRequest;
    if RequestRules(r) {
      var input := RequestResults(r);
      if Framed(r) {
        PrintOfFramed(r);
      }
    }
    forall input | Completes(input, r) ensures RequestRules(r) {
      RequestFixpoint(input, r);
    }
    if Completes(PrintRequest(r), r) {
      RequestFixpoint(PrintRequest(r), r);
    }
  }

  lemma TransferEncodingIsAName()
    ensures forall i :: 0 <= i < |"Transfer-Encoding"| ==> IsToken("Transfer-Encoding"[i])
  {
    var name := "Transfer-Encoding";
    assert forall i :: 0 <= i < |name| ==> IsAlpha(name[i]) || name[i] == '-';
  }

  lemma FoldedHeader(h: Header)
    requires h == Header("Transfer-Encoding", "chunkedx")
    ensures HeaderOk(h) && StartsChunked(h) && !IsChunkedCoding(h) && !IsContentLength(h) && !IsConnection(h)
  {
    TransferEncodingIsAName();
    hide IsToken;
    assert forall i :: 0 <= i < |h.value| ==> IsAlpha(h.value[i]);
    assert h.value[..7] == "chunked";
  }

  lemma FoldedRequest(r: Request)
    requires r == Request("POST", "/", 1, 1, [Header("Transfer-Encoding", "chunkedx")], "a", true)
    ensures RequestRules(r) && !Framed(r)
  {
    hide EqualIgnoreCase, IsContentLength, IsChunkedCoding, StartsChunked, IsConnection, HeaderOk, Atoi;
    FoldedHeader(r.headers[0]);
    assert r.headers[..0] == [] && r.headers[1..] == [];
    assert ContentLength(r.headers) == 0;
    assert FirstConnection(r.headers) == None;
    assert StartsChunked(r.headers[0]);
  }

  /** `chunked` survives a continuation line that changes the header's value: here the fixpoint fails. */
  lemma FoldedCodingBreaksFixpoint() returns (input: string, r: Request)
    ensures Completes(input, r) && !Completes(PrintRequest(r), r)
  {
    hide RequestRules, Framed, Completes, PrintRequest;
    r := Request("POST", "/", 1, 1, [Header("Transfer-Encoding", "chunkedx")], "a", true);
    FoldedRequest(r);
    input := RequestResults(r);
    RequestFixpoint(input, r);
  }
}
