/** How the request parser reads the pieces a message is made of. */
module HttpRequestRuns {
  import opened Ascii
  import opened Numerals
  import opened HttpMessage
  import opened HttpChunks
  import opened HttpRequestParser
  import opened HttpRequestInvariant

  /** Feeding a buffer in two calls is feeding it in one. */
  lemma {:induction false} ConsumeConcat(s: Config, a: string, b: string)
    ensures Consume(s, a + b) == match Consume(s, a)
                                 case More(t) => Consume(t, b)
                                 case Stop(result, last) => Stop(result, last)
    decreases |a|
  {
    if a == "" {
      assert a + b == b;
    } else {
      assert (a + b)[0] == a[0] && (a + b)[1..] == a[1..] + b;
      match Step(s, a[0]) {
        case More(t) => ConsumeConcat(t, a[1..], b);
        case Stop(_, _) =>
      }
    }
  }

  /** Successive `parse` calls, given up at the first one that does not return ParsingIncompleted. */
  function Feed(s: Config, pieces: seq<string>): Verdict
    decreases |pieces|
  {
    if pieces == [] then More(s)
    else
      match Consume(s, pieces[0])
      case More(t) => Feed(t, pieces[1..])
      case Stop(result, last) => Stop(result, last)
  }

  function Concat(pieces: seq<string>): string {
    if pieces == [] then "" else pieces[0] + Concat(pieces[1..])
  }

  /** Split invariance: however the bytes are cut, result, parser fields and request are those of one call. */
  lemma {:induction false} FeedIsConsume(s: Config, pieces: seq<string>)
    ensures Feed(s, pieces) == Consume(s, Concat(pieces))
    decreases |pieces|
  {
    if pieces != [] {
      ConsumeConcat(s, pieces[0], Concat(pieces[1..]));
      match Consume(s, pieces[0]) {
        case More(t) => FeedIsConsume(t, pieces[1..]);
        case Stop(_, _) =>
      }
    }
  }

  /** The parse completes, and it does so on the last byte of the input. */
  predicate CompletesExactly(s: Config, input: string, last: Config) {
    && input != ""
    && Consume(s, input[..|input| - 1]).More?
    && Consume(s, input) == Stop(ParsingCompleted, last)
  }

  lemma RunThenComplete(s: Config, a: string, t: Config, b: string, last: Config)
    requires Consume(s, a) == More(t) && CompletesExactly(t, b, last)
    ensures CompletesExactly(s, a + b, last)
  {
    ConsumeConcat(s, a, b);
    ConsumeConcat(s, a, b[..|b| - 1]);
    assert (a + b)[..|a + b| - 1] == a + b[..|b| - 1];
  }

  lemma RunThenRun(s: Config, a: string, t: Config, b: string, u: Config)
    requires Consume(s, a) == More(t) && Consume(t, b) == More(u)
    ensures Consume(s, a + b) == More(u)
  {
    ConsumeConcat(s, a, b);
  }

  lemma OneByte(s: Config, c: char)
    ensures Consume(s, [c]) == Step(s, c)
  {
    assert [c][1..] == "";
    match Step(s, c) {
      case More(t) => assert Consume(t, [c][1..]) == More(t);
      case Stop(_, _) =>
    }
  }

  lemma TwoBytes(s: Config, c: char, t: Config, d: char)
    requires Step(s, c) == More(t)
    ensures Consume(s, [c, d]) == Step(t, d)
  {
    OneByte(s, c);
    OneByte(t, d);
    ConsumeConcat(s, [c], [d]);
    assert [c] + [d] == [c, d];
  }

  lemma {:induction false} VerbRun(s: Config, text: string)
    requires s.state == RequestMethod && forall i :: 0 <= i < |text| ==> IsToken(text[i])
    ensures Consume(s, text) == More(s.(req := s.req.(verb := s.req.verb + text)))
    decreases |text|
  {
    if text == "" {
      assert s.req.verb + text == s.req.verb;
    } else {
      VerbRun(Step(s, text[0]).next, text[1..]);
      assert s.req.verb + [text[0]] + text[1..] == s.req.verb + text;
    }
  }

  lemma {:induction false} UriRun(s: Config, text: string)
    requires s.state == RequestUri && forall i :: 0 <= i < |text| ==> !IsControl(text[i]) && text[i] != ' '
    ensures Consume(s, text) == More(s.(req := s.req.(uri := s.req.uri + text)))
    decreases |text|
  {
    if text == "" {
      assert s.req.uri + text == s.req.uri;
    } else {
      UriRun(Step(s, text[0]).next, text[1..]);
      assert s.req.uri + [text[0]] + text[1..] == s.req.uri + text;
    }
  }

  /** Two bytes that move the request line on by two states and change nothing else. */
  lemma TwoLettersRun(s: Config, c: char, middle: State, d: char, to: State)
    requires (s.state, c, middle, d, to) in {
               (RequestUri, ' ', RequestHttpVersion_h, 'H', RequestHttpVersion_ht),
               (RequestHttpVersion_ht, 'T', RequestHttpVersion_htt, 'T', RequestHttpVersion_http)}
    ensures Consume(s, [c, d]) == More(s.(state := to))
  {
    hide StepHeaders, StepBody, Consume;
    TwoBytes(s, c, s.(state := middle), d);
  }

  lemma SlashRun(s: Config)
    requires s.state == RequestHttpVersion_http
    ensures Consume(s, "P/") ==
            More(s.(state := RequestHttpVersion_majorStart, req := s.req.(versionMajor := 0, versionMinor := 0)))
  {
    hide StepHeaders, StepBody, Consume;
    TwoBytes(s, 'P', s.(state := RequestHttpVersion_slash), '/');
  }

  lemma HttpSlashRun(s: Config)
    requires s.state == RequestUri
    ensures Consume(s, " HTTP/") ==
            More(s.(state := RequestHttpVersion_majorStart, req := s.req.(versionMajor := 0, versionMinor := 0)))
  {
    hide Consume, Step;
    TwoLettersRun(s, ' ', RequestHttpVersion_h, 'H', RequestHttpVersion_ht);
    var s1 := s.(state := RequestHttpVersion_ht);
    TwoLettersRun(s1, 'T', RequestHttpVersion_htt, 'T', RequestHttpVersion_http);
    var s2 := s.(state := RequestHttpVersion_http);
    SlashRun(s2);
    RunThenRun(s, " H", s1, "TT", s2);
    assert " H" + "TT" == " HTT";
    RunThenRun(s, " HTT", s2, "P/", Consume(s2, "P/").next);
    assert " HTT" + "P/" == " HTTP/";
  }

  lemma {:induction false} MajorRun(s: Config, digits: string)
    requires s.state == RequestHttpVersion_majorStart
    requires digits != "" && forall i :: 0 <= i < |digits| ==> IsDigit(digits[i])
    requires VersionOk(Value(digits, 10))
    ensures Consume(s, digits) ==
            More(s.(state := RequestHttpVersion_major, req := s.req.(versionMajor := Value(digits, 10))))
    decreases |digits|
  {
    hide StepHeaders, StepBody, VerbOk, UriOk;
    var n := |digits| - 1;
    var front, last := digits[..n], digits[n];
    assert digits == front + [last];
    if front == "" {
      OneByte(s, last);
      assert digits == [last];
    } else {
      MajorRun(s, front);
      ConsumeConcat(s, front, [last]);
      OneByte(Consume(s, front).next, last);
    }
  }

  lemma {:induction false} MinorRun(s: Config, digits: string)
    requires s.state == RequestHttpVersion_minorStart
    requires digits != "" && forall i :: 0 <= i < |digits| ==> IsDigit(digits[i])
    requires VersionOk(Value(digits, 10))
    ensures Consume(s, digits) ==
            More(s.(state := RequestHttpVersion_minor, req := s.req.(versionMinor := Value(digits, 10))))
    decreases |digits|
  {
    hide StepHeaders, StepBody, VerbOk, UriOk;
    var n := |digits| - 1;
    var front, last := digits[..n], digits[n];
    assert digits == front + [last];
    if front == "" {
      OneByte(s, last);
      assert digits == [last];
    } else {
      MinorRun(s, front);
      ConsumeConcat(s, front, [last]);
      OneByte(Consume(s, front).next, last);
    }
  }

  lemma {:induction false} NameRun(s: Config, text: string)
    requires s.state == HeaderName && s.req.headers != [] && forall i :: 0 <= i < |text| ==> IsToken(text[i])
    ensures
      var n := |s.req.headers| - 1;
      var h := s.req.headers[n];
      Consume(s, text) ==
      More(s.(req := s.req.(headers := s.req.headers[..n] + [h.(name := h.name + text)])))
    decreases |text|
  {
    hide StepRequestLine, StepBody, EndHeaderLine, DecideKeepAlive, LengthsOk;
    var n := |s.req.headers| - 1;
    var h := s.req.headers[n];
    if text == "" {
      assert h.name + text == h.name;
      assert s.req.headers == s.req.headers[..n] + [h];
    } else {
      var t := PushName(s, text[0]);
      assert t.req.headers[..n] == s.req.headers[..n];
      NameRun(t, text[1..]);
      assert h.name + [text[0]] + text[1..] == h.name + text;
    }
  }

  lemma {:induction false} ValueRun(s: Config, text: string)
    requires s.state == HeaderValue && s.req.headers != [] && forall i :: 0 <= i < |text| ==> !IsControl(text[i])
    ensures
      var n := |s.req.headers| - 1;
      var h := s.req.headers[n];
      Consume(s, text) ==
      More(s.(req := s.req.(headers := s.req.headers[..n] + [h.(value := h.value + text)])))
    decreases |text|
  {
    hide StepRequestLine, StepBody, EndHeaderLine, DecideKeepAlive, LengthsOk;
    var n := |s.req.headers| - 1;
    var h := s.req.headers[n];
    if text == "" {
      assert h.value + text == h.value;
      assert s.req.headers == s.req.headers[..n] + [h];
    } else {
      var t := PushValue(s, text[0]);
      assert t.req.headers[..n] == s.req.headers[..n];
      ValueRun(t, text[1..]);
      assert h.value + [text[0]] + text[1..] == h.value + text;
    }
  }

  /** What a header line without continuation makes of the parser. */
  function AfterHeader(s: Config, h: Header): Config
    requires TakesBody(s.req.verb) && IsContentLength(h) ==> Atoi(h.value) >= 0
  {
    s.(req := s.req.(headers := s.req.headers + [h]),
       contentSize := if TakesBody(s.req.verb) && IsContentLength(h) then Atoi(h.value) else s.contentSize,
       chunked := s.chunked || (TakesBody(s.req.verb) && IsChunkedCoding(h)))
  }

  lemma NameStartRun(s: Config, c: char)
    requires s.state == HeaderLineStart && IsToken(c)
    ensures Consume(s, [c]) ==
            More(s.(state := HeaderName, req := s.req.(headers := s.req.headers + [Header([c], "")])))
  {
    OneByte(s, c);
  }

  lemma ColonRun(s: Config)
    requires s.state == HeaderName
    ensures Consume(s, ": ") == More(s.(state := HeaderValue))
  {
    TwoBytes(s, ':', s.(state := SpaceBeforeHeaderValue), ' ');
  }

  lemma HeaderNameRun(s: Config, h: Header)
    requires s.state == HeaderLineStart && HeaderOk(h)
    ensures Consume(s, h.name + ": ") ==
            More(s.(state := HeaderValue, req := s.req.(headers := s.req.headers + [Header(h.name, "")])))
  {
    hide Consume;
    var before := s.req.headers;
    var s1 := s.(state := HeaderName, req := s.req.(headers := before + [Header([h.name[0]], "")]));
    NameStartRun(s, h.name[0]);
    NameRun(s1, h.name[1..]);
    assert s1.req.headers[..|before|] == before;
    assert [h.name[0]] + h.name[1..] == h.name;
    var s2 := s1.(req := s.req.(headers := before + [Header(h.name, "")]));
    RunThenRun(s, [h.name[0]], s1, h.name[1..], s2);
    ColonRun(s2);
    RunThenRun(s, h.name, s2, ": ", s2.(state := HeaderValue));
  }

  lemma HeaderRun(s: Config, h: Header)
    requires s.state == HeaderLineStart && HeaderOk(h)
    requires TakesBody(s.req.verb) && IsContentLength(h) ==> Atoi(h.value) >= 0
    ensures Consume(s, PrintHeader(h)) == More(AfterHeader(s, h))
  {
    hide Atoi, EqualIgnoreCase, TakesBody, Consume;
    var before := s.req.headers;
    HeaderNameRun(s, h);
    var s3 := s.(state := HeaderValue, req := s.req.(headers := before + [Header(h.name, "")]));
    ValueRun(s3, h.value);
    assert s3.req.headers[..|before|] == before;
    assert "" + h.value == h.value;
    var s4 := s3.(req := s.req.(headers := before + [h]));
    RunThenRun(s, h.name + ": ", s3, h.value, s4);
    HeaderEndRun(s4, h);
    RunThenRun(s, h.name + ": " + h.value, s4, "\r\n", AfterHeader(s, h));
  }

  lemma OneKindOfFraming(h: Header)
    ensures !(IsContentLength(h) && IsTransferEncoding(h))
  {
    assert |"Content-Length"| != |"Transfer-Encoding"|;
  }

  lemma HeaderEndRun(s: Config, h: Header)
    requires s.state == HeaderValue && s.req.headers != [] && s.req.headers[|s.req.headers| - 1] == h
    requires TakesBody(s.req.verb) && IsContentLength(h) ==> Atoi(h.value) >= 0
    ensures Consume(s, "\r\n") ==
            More(s.(state := HeaderLineStart,
                    contentSize := if TakesBody(s.req.verb) && IsContentLength(h) then Atoi(h.value) else s.contentSize,
                    chunked := s.chunked || (TakesBody(s.req.verb) && IsChunkedCoding(h))))
  {
    hide Atoi, EqualIgnoreCase, StepRequestLine, StepBody, Consume;
    OneKindOfFraming(h);
    AtoiRange(h.value);
    TwoBytes(s, '\r', Step(s, '\r').next, '\n');
  }

  /** The header block of a message, as `PrintHeaders` writes it. */
  lemma {:induction false} HeadersRun(s: Config, headers: seq<Header>)
    requires s.state == HeaderLineStart && s.req.headers == [] && s.contentSize == 0 && !s.chunked
    requires HeadersOk(headers) && (TakesBody(s.req.verb) ==> LengthsOk(headers))
    ensures TakesBody(s.req.verb) ==> ContentLength(headers) >= 0
    ensures Consume(s, PrintHeaders(headers)) ==
            More(s.(req := s.req.(headers := headers),
                    contentSize := if TakesBody(s.req.verb) then ContentLength(headers) else 0,
                    chunked := TakesBody(s.req.verb) && SaysChunked(headers)))
    decreases |headers|
  {
    hide Atoi, EqualIgnoreCase;
    ContentLengthRange(headers);
    if headers != [] {
      var n := |headers| - 1;
      var front, last := headers[..n], headers[n];
      assert headers == front + [last];
      SplitLast(headers);
      HeadersRun(s, front);
      var t := Consume(s, PrintHeaders(front)).next;
      HeaderRun(t, last);
      RunThenRun(s, PrintHeaders(front), t, PrintHeader(last), AfterHeader(t, last));
    }
  }

  /** A Content-Length body: the parse completes on the byte that makes up the length. */
  lemma {:induction false} PostRun(s: Config, text: string)
    requires s.state == Post && s.contentSize > 0
    ensures
      var n := s.contentSize;
      Consume(s, text) ==
      if |text| < n
      then More(s.(contentSize := n - |text|, req := s.req.(content := s.req.content + text)))
      else Stop(ParsingCompleted, s.(contentSize := 0, req := s.req.(content := s.req.content + text[..n])))
    decreases |text|
  {
    if text == "" {
      assert s.req.content + text == s.req.content;
    } else {
      assert s.req.content + [text[0]] + text[1..] == s.req.content + text;
      if s.contentSize > 1 {
        PostRun(Step(s, text[0]).next, text[1..]);
        if |text| >= s.contentSize {
          assert [text[0]] + text[1..][..s.contentSize - 1] == text[..s.contentSize];
          assert s.req.content + [text[0]] + text[1..][..s.contentSize - 1] == s.req.content + text[..s.contentSize];
        }
      } else {
        assert text[..1] == [text[0]];
      }
    }
  }
}
