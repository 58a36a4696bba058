/** The chunked body states of the request parser read exactly the chunked coding of HttpChunks. */
module HttpRequestBody {
  import opened Ascii
  import opened Numerals
  import opened HttpMessage
  import opened HttpChunks
  import opened HttpRequestParser
  import opened HttpRequestInvariant
  import opened HttpRequestRuns

  lemma {:induction false} SizeTextRun(s: Config, text: string)
    requires s.state == ChunkSize && AllAlnum(text)
    ensures Consume(s, text) == More(s.(chunkSizeStr := s.chunkSizeStr + text))
    decreases |text|
  {
    if text == "" {
      assert s.chunkSizeStr + text == s.chunkSizeStr;
    } else {
      SizeTextRun(Step(s, text[0]).next, text[1..]);
      assert s.chunkSizeStr + [text[0]] + text[1..] == s.chunkSizeStr + text;
    }
  }

  /** Extensions, trailer names and trailer values are skipped. */
  lemma {:induction false} SkipRun(s: Config, text: string)
    requires s.state in {ChunkExtensionName, ChunkExtensionValue, ChunkTrailerName, ChunkTrailerValue}
    requires if s.state == ChunkTrailerName then AllAlnum(text) else AllAlnumOrSpace(text)
    ensures Consume(s, text) == More(s)
    decreases |text|
  {
    if text != "" {
      assert Step(s, text[0]) == More(s);
      SkipRun(s, text[1..]);
    }
  }

  lemma CarriageReturnRun(s: Config)
    requires s.state in {ChunkSize, ChunkExtensionName, ChunkExtensionValue}
    ensures Consume(s, "\r") == More(s.(state := ChunkSizeNewLine))
  {
    OneByte(s, '\r');
  }

  lemma NamedRun(s: Config, name: string)
    requires s.state == ChunkSize && AllAlnumOrSpace(name)
    ensures Consume(s, ";" + name) == More(s.(state := ChunkExtensionName))
  {
    OneByte(s, ';');
    hide Consume;
    SkipRun(s.(state := ChunkExtensionName), name);
    RunThenRun(s, ";", s.(state := ChunkExtensionName), name, s.(state := ChunkExtensionName));
  }

  lemma ValuedRun(s: Config, value: string)
    requires s.state == ChunkExtensionName && AllAlnumOrSpace(value)
    ensures Consume(s, "=" + value) == More(s.(state := ChunkExtensionValue))
  {
    OneByte(s, '=');
    hide Consume;
    SkipRun(s.(state := ChunkExtensionValue), value);
    RunThenRun(s, "=", s.(state := ChunkExtensionValue), value, s.(state := ChunkExtensionValue));
  }

  lemma ExtensionRun(s: Config, ext: Extension)
    requires s.state == ChunkSize && ExtensionOk(ext)
    ensures Consume(s, PrintExtension(ext) + "\r") == More(s.(state := ChunkSizeNewLine))
  {
    hide Consume;
    var end := s.(state := ChunkSizeNewLine);
    match ext {
      case NoExtension =>
        CarriageReturnRun(s);
        assert "" + "\r" == "\r";
      case Named(name) =>
        NamedRun(s, name);
        CarriageReturnRun(s.(state := ChunkExtensionName));
        RunThenRun(s, ";" + name, s.(state := ChunkExtensionName), "\r", end);
      case Valued(name, value) =>
        NamedRun(s, name);
        ValuedRun(s.(state := ChunkExtensionName), value);
        RunThenRun(s, ";" + name, s.(state := ChunkExtensionName), "=" + value, s.(state := ChunkExtensionValue));
        assert PrintExtension(ext) == ";" + name + ("=" + value);
        CarriageReturnRun(s.(state := ChunkExtensionValue));
        RunThenRun(s, PrintExtension(ext), s.(state := ChunkExtensionValue), "\r", end);
    }
  }

  /** The LF after a size: the state the parser goes on in. */
  lemma SizeEndRun(s: Config, n: nat)
    requires s.state == ChunkSizeNewLine && SizeOk(s.chunkSizeStr, n) && |s.req.content| + n <= LONG_MAX
    ensures Consume(s, "\n") ==
            More(s.(state := if n == 0 then ChunkSizeNewLine_2 else ChunkData, chunkSize := n, chunkSizeStr := ""))
  {
    OneByte(s, '\n');
    hide Strtol;
  }

  lemma SizeLineRun(s: Config, size: string, ext: Extension, n: nat)
    requires s.state == ChunkSize && s.chunkSizeStr == ""
    requires SizeOk(size, n) && ExtensionOk(ext) && |s.req.content| + n <= LONG_MAX
    ensures Consume(s, PrintSizeLine(size, ext)) ==
            More(s.(state := if n == 0 then ChunkSizeNewLine_2 else ChunkData, chunkSize := n))
  {
    hide Consume, Strtol;
    SizeTextRun(s, size);
    assert "" + size == size;
    var t := s.(chunkSizeStr := size);
    ExtensionRun(t, ext);
    RunThenRun(s, size, t, PrintExtension(ext) + "\r", t.(state := ChunkSizeNewLine));
    SizeEndRun(t.(state := ChunkSizeNewLine), n);
    RunThenRun(s, size + (PrintExtension(ext) + "\r"), t.(state := ChunkSizeNewLine), "\n",
               s.(state := if n == 0 then ChunkSizeNewLine_2 else ChunkData, chunkSize := n));
    assert size + (PrintExtension(ext) + "\r") + "\n" == PrintSizeLine(size, ext);
  }

  lemma {:induction false} DataRun(s: Config, text: string)
    requires s.state == ChunkData && |text| <= s.chunkSize
    ensures Consume(s, text) ==
            if text == "" then More(s)
            else More(s.(state := if |text| == s.chunkSize then ChunkDataNewLine_1 else ChunkData,
                         chunkSize := s.chunkSize - |text|,
                         req := s.req.(content := s.req.content + text)))
    decreases |text|
  {
    if text != "" {
      assert s.req.content + [text[0]] + text[1..] == s.req.content + text;
      var t := Step(s, text[0]).next;
      if |text| == 1 {
        assert text[1..] == "";
        assert text == [text[0]];
      } else {
        DataRun(t, text[1..]);
      }
    }
  }

  lemma DataEndRun(s: Config)
    requires s.state == ChunkDataNewLine_1
    ensures Consume(s, "\r\n") == More(s.(state := ChunkSize))
  {
    hide Consume, StepRequestLine, StepHeaders, Strtol;
    TwoBytes(s, '\r', s.(state := ChunkDataNewLine_2), '\n');
  }

  lemma ChunkRun(s: Config, chunk: Chunk)
    requires s.state == ChunkSize && s.chunkSizeStr == "" && s.chunkSize == 0
    requires ChunkOk(chunk) && |s.req.content| + |chunk.data| <= LONG_MAX
    ensures Consume(s, PrintChunk(chunk)) == More(s.(req := s.req.(content := s.req.content + chunk.data)))
  {
    hide Consume, Strtol;
    var n := |chunk.data|;
    SizeLineRun(s, chunk.size, chunk.ext, n);
    var t := s.(state := ChunkData, chunkSize := n);
    DataRun(t, chunk.data);
    var u := s.(state := ChunkDataNewLine_1, req := s.req.(content := s.req.content + chunk.data));
    RunThenRun(s, PrintSizeLine(chunk.size, chunk.ext), t, chunk.data, u);
    DataEndRun(u);
    RunThenRun(s, PrintSizeLine(chunk.size, chunk.ext) + chunk.data, u, "\r\n", u.(state := ChunkSize));
  }

  lemma TrailerEndRun(s: Config)
    requires s.state == ChunkTrailerValue && s.chunkSizeStr == "" && s.chunkSize == 0 && |s.req.content| <= LONG_MAX
    ensures Consume(s, "\r\n") == More(s.(state := ChunkSizeNewLine_2))
  {
    StrtolOfAlnum("");
    OneByte(s, '\r');
    SizeEndRun(s.(state := ChunkSizeNewLine), 0);
    hide Consume, Strtol;
    RunThenRun(s, "\r", s.(state := ChunkSizeNewLine), "\n", s.(state := ChunkSizeNewLine_2));
    assert "\r" + "\n" == "\r\n";
  }

  lemma TrailerRun(s: Config, trailer: Trailer)
    requires s.state == ChunkSizeNewLine_2 && s.chunkSizeStr == "" && s.chunkSize == 0 && |s.req.content| <= LONG_MAX
    requires TrailerOk(trailer)
    ensures Consume(s, PrintTrailer(trailer)) == More(s)
  {
    var name, value := s.(state := ChunkTrailerName), s.(state := ChunkTrailerValue);
    OneByte(s, trailer.first);
    OneByte(name, ':');
    hide Consume;
    SkipRun(name, trailer.name);
    RunThenRun(s, [trailer.first], name, trailer.name, name);
    RunThenRun(s, [trailer.first] + trailer.name, name, ":", value);
    SkipRun(value, trailer.value);
    RunThenRun(s, [trailer.first] + trailer.name + ":", value, trailer.value, value);
    TrailerEndRun(value);
    RunThenRun(s, [trailer.first] + trailer.name + ":" + trailer.value, value, "\r\n", s);
  }

  lemma {:induction false} TrailersRun(s: Config, trailers: seq<Trailer>)
    requires s.state == ChunkSizeNewLine_2 && s.chunkSizeStr == "" && s.chunkSize == 0 && |s.req.content| <= LONG_MAX
    requires forall i :: 0 <= i < |trailers| ==> TrailerOk(trailers[i])
    ensures CompletesExactly(s, PrintTrailers(trailers), s.(state := ChunkSizeNewLine_3))
    decreases |trailers|
  {
    if trailers == [] {
      TwoBytes(s, '\r', s.(state := ChunkSizeNewLine_3), '\n');
      OneByte(s, '\r');
      assert "\r\n"[..1] == "\r";
    } else {
      TrailerRun(s, trailers[0]);
      TrailersRun(s, trailers[1..]);
      RunThenComplete(s, PrintTrailer(trailers[0]), s, PrintTrailers(trailers[1..]), s.(state := ChunkSizeNewLine_3));
    }
  }

  lemma LastChunkRun(s: Config, body: ChunkedBody)
    requires s.state == ChunkSize && s.chunkSizeStr == "" && s.chunkSize == 0
    requires BodyOk(body) && body.chunks == [] && |s.req.content| <= LONG_MAX
    ensures CompletesExactly(s, PrintChunked(body), s.(state := ChunkSizeNewLine_3))
  {
    hide Consume, Strtol, CompletesExactly, PrintSizeLine, PrintTrailers;
    var t := s.(state := ChunkSizeNewLine_2);
    SizeLineRun(s, body.size, body.ext, 0);
    TrailersRun(t, body.trailers);
    RunThenComplete(s, PrintSizeLine(body.size, body.ext), t,
                    PrintTrailers(body.trailers), s.(state := ChunkSizeNewLine_3));
  }

  /** However a content is cut into chunks, and whatever extensions and trailers go with it, it is read back whole. */
  lemma {:induction false} ChunkedRun(s: Config, body: ChunkedBody)
    requires s.state == ChunkSize && s.chunkSizeStr == "" && s.chunkSize == 0
    requires BodyOk(body) && |s.req.content| + |Data(body.chunks)| <= LONG_MAX
    ensures CompletesExactly(s, PrintChunked(body),
                             s.(state := ChunkSizeNewLine_3,
                                req := s.req.(content := s.req.content + Data(body.chunks))))
    decreases |body.chunks|
  {
    hide Consume, Strtol, CompletesExactly, PrintSizeLine;
    if body.chunks == [] {
      LastChunkRun(s, body);
      assert s.req.content + "" == s.req.content;
    } else {
      var chunk, rest := body.chunks[0], body.(chunks := body.chunks[1..]);
      ChunkRun(s, chunk);
      var t := s.(req := s.req.(content := s.req.content + chunk.data));
      ChunkedRun(t, rest);
      assert s.req.content + chunk.data + Data(rest.chunks) == s.req.content + Data(body.chunks);
      RunThenComplete(s, PrintChunk(chunk), t, PrintChunked(rest),
                      s.(state := ChunkSizeNewLine_3, req := s.req.(content := s.req.content + Data(body.chunks))));
    }
  }

  predicate Completed(v: Verdict) {
    v.Stop? && v.result == ParsingCompleted
  }

  /** The longest prefix of alphanumerics, and of spaces where those are skipped too. */
  function Span(input: string, spaces: bool): (text: string)
    ensures text <= input
    ensures if spaces then AllAlnumOrSpace(text) else AllAlnum(text)
    ensures |text| < |input| ==> !IsAlnum(input[|text|]) && !(spaces && input[|text|] == ' ')
  {
    if input == "" || !(IsAlnum(input[0]) || (spaces && input[0] == ' ')) then ""
    else [input[0]] + Span(input[1..], spaces)
  }

  lemma ConsumeFirst(s: Config, a: string, t: Config, rest: string)
    requires Consume(s, a) == More(t)
    ensures Consume(s, a + rest) == Consume(t, rest)
  {
    ConsumeConcat(s, a, rest);
  }

  /** A run that completes, but not on its first byte, completes from the next state on the other bytes. */
  lemma FirstByte(s: Config, input: string)
    requires Completed(Consume(s, input)) && s.state !in {RequestUri, ExpectingNewline_3, Post, ChunkSizeNewLine_3}
    ensures input != "" && Step(s, input[0]).More?
    ensures Consume(s, input) == Consume(Step(s, input[0]).next, input[1..])
  {
  }

  /** The byte that leaves a skipping state, and the state it leads to. */
  predicate Leaves(s: Config, c: char, t: Config) {
    match s.state
    case ChunkExtensionName =>
      (c == '=' && t == s.(state := ChunkExtensionValue)) || (c == '\r' && t == s.(state := ChunkSizeNewLine))
    case ChunkExtensionValue => c == '\r' && t == s.(state := ChunkSizeNewLine)
    case ChunkTrailerName => c == ':' && t == s.(state := ChunkTrailerValue)
    case _ => c == '\r' && t == s.(state := ChunkSizeNewLine)
  }

  /** A completing run from a skipping state skips a span, and then a byte must come that leaves the state. */
  lemma SkipBack(s: Config, input: string) returns (text: string, c: char, t: Config, rest: string)
    requires s.state in {ChunkExtensionName, ChunkExtensionValue, ChunkTrailerName, ChunkTrailerValue}
    requires Completed(Consume(s, input))
    ensures if s.state == ChunkTrailerName then AllAlnum(text) else AllAlnumOrSpace(text)
    ensures input == text + [c] + rest
    ensures Leaves(s, c, t) && Consume(s, input) == Consume(t, rest)
  {
    hide Step, Consume;
    text := Span(input, s.state != ChunkTrailerName);
    var after := input[|text|..];
    SkipRun(s, text);
    ConsumeFirst(s, text, s, after);
    assert text + after == input;
    c, t, rest := LeaveBack(s, after);
  }

  lemma LeaveBack(s: Config, after: string) returns (c: char, t: Config, rest: string)
    requires s.state in {ChunkExtensionName, ChunkExtensionValue, ChunkTrailerName, ChunkTrailerValue}
    requires Completed(Consume(s, after))
    requires after != "" ==> !IsAlnum(after[0]) && !(s.state != ChunkTrailerName && after[0] == ' ')
    ensures after == [c] + rest && Leaves(s, c, t) && Consume(s, after) == Consume(t, rest)
  {
    FirstByte(s, after);
    c, rest := after[0], after[1..];
    t := Step(s, c).next;
  }

  lemma ExtensionStartBack(s: Config, input: string)
    requires s.state == ChunkSize && input != "" && !IsAlnum(input[0])
    requires Completed(Consume(s, input))
    ensures input[0] == '\r' || input[0] == ';'
    ensures Consume(s, input) ==
            Consume(s.(state := if input[0] == '\r' then ChunkSizeNewLine else ChunkExtensionName), input[1..])
  {
    FirstByte(s, input);
  }

  /** An extension, and the CR after it. */
  lemma ExtensionBack(s: Config, input: string) returns (ext: Extension, rest: string)
    requires s.state == ChunkSize && input != "" && !IsAlnum(input[0])
    requires Completed(Consume(s, input))
    ensures ExtensionOk(ext) && input == PrintExtension(ext) + "\r" + rest
    ensures Consume(s, input) == Consume(s.(state := ChunkSizeNewLine), rest)
  {
    hide Consume, Step;
    ExtensionStartBack(s, input);
    if input[0] == '\r' {
      ext, rest := NoExtension, input[1..];
    } else {
      var name, c, t, afterName := SkipBack(s.(state := ChunkExtensionName), input[1..]);
      assert input == ";" + input[1..];
      if c == '\r' {
        ext, rest := Named(name), afterName;
        assert input == ";" + name + "\r" + rest;
      } else {
        var value, d, u, afterValue := SkipBack(t, afterName);
        ext, rest := Valued(name, value), afterValue;
        assert input == ";" + name + "=" + value + "\r" + rest;
      }
    }
  }

  lemma SizeEndBack(s: Config, input: string) returns (n: nat)
    requires s.state == ChunkSizeNewLine && AllAlnum(s.chunkSizeStr) && |s.req.content| <= LONG_MAX
    requires Completed(Consume(s, input))
    ensures SizeOk(s.chunkSizeStr, n) && |s.req.content| + n <= LONG_MAX
    ensures input != "" && input[0] == '\n'
    ensures Consume(s, input) ==
            Consume(s.(state := if n == 0 then ChunkSizeNewLine_2 else ChunkData, chunkSize := n, chunkSizeStr := ""),
                    input[1..])
  {
    hide Consume, Strtol;
    FirstByte(s, input);
    StrtolOfAlnum(s.chunkSizeStr);
    n := Strtol(s.chunkSizeStr, 16);
    assert ToSize(n) == n && ToSize(|s.req.content| + n) == |s.req.content| + n;
  }

  /** The alphanumerics of a size, up to the first other byte. */
  lemma SizeTextBack(s: Config, input: string) returns (size: string, rest: string)
    requires s.state == ChunkSize && s.chunkSizeStr == "" && Completed(Consume(s, input))
    ensures AllAlnum(size) && input == size + rest && rest != "" && !IsAlnum(rest[0])
    ensures Consume(s, input) == Consume(s.(chunkSizeStr := size), rest)
  {
    size := Span(input, false);
    rest := input[|size|..];
    SizeTextRun(s, size);
    assert "" + size == size;
    assert size + rest == input;
    ConsumeFirst(s, size, s.(chunkSizeStr := size), rest);
    FirstByte(s.(chunkSizeStr := size), rest);
  }

  lemma SizeLineBack(s: Config, input: string) returns (size: string, ext: Extension, n: nat, rest: string)
    requires s.state == ChunkSize && s.chunkSizeStr == "" && |s.req.content| <= LONG_MAX
    requires Completed(Consume(s, input))
    ensures SizeOk(size, n) && ExtensionOk(ext) && |s.req.content| + n <= LONG_MAX
    ensures input == PrintSizeLine(size, ext) + rest
    ensures Consume(s, input) ==
            Consume(s.(state := if n == 0 then ChunkSizeNewLine_2 else ChunkData, chunkSize := n), rest)
  {
    hide Consume, Step, Strtol, PrintExtension, ExtensionOk;
    var afterSize, afterExt;
    size, afterSize := SizeTextBack(s, input);
    ext, afterExt := ExtensionBack(s.(chunkSizeStr := size), afterSize);
    n := SizeEndBack(s.(state := ChunkSizeNewLine, chunkSizeStr := size), afterExt);
    rest := afterExt[1..];
    assert afterExt == "\n" + rest;
    assert PrintSizeLine(size, ext) == size + PrintExtension(ext) + "\r" + "\n";
    assert input == size + PrintExtension(ext) + "\r" + "\n" + rest;
  }

  lemma TrailerStartBack(s: Config, input: string)
    requires s.state == ChunkSizeNewLine_2 && Completed(Consume(s, input)) && input != "" && input[0] != '\r'
    ensures IsAlpha(input[0]) && Consume(s, input) == Consume(s.(state := ChunkTrailerName), input[1..])
  {
    FirstByte(s, input);
  }

  lemma TrailerBack(s: Config, input: string) returns (trailer: Trailer, rest: string)
    requires s.state == ChunkSizeNewLine_2 && s.chunkSizeStr == "" && s.chunkSize == 0 && |s.req.content| <= LONG_MAX
    requires Completed(Consume(s, input)) && input != "" && input[0] != '\r'
    ensures TrailerOk(trailer) && input == PrintTrailer(trailer) + rest
    ensures Consume(s, input) == Consume(s, rest)
  {
    hide Consume, Step, Strtol;
    TrailerStartBack(s, input);
    StrtolOfAlnum("");
    var name, c, t, afterName := SkipBack(s.(state := ChunkTrailerName), input[1..]);
    var value, d, u, afterValue := SkipBack(t, afterName);
    var n := SizeEndBack(u, afterValue);
    trailer, rest := Trailer(input[0], name, value), afterValue[1..];
    assert afterValue == "\n" + rest;
    assert input == [input[0]] + input[1..];
    assert PrintTrailer(trailer) == [input[0]] + name + ":" + value + "\r" + "\n";
    assert input == [input[0]] + name + ":" + value + "\r" + "\n" + rest;
  }

  lemma TrailersEndBack(s: Config, input: string) returns (leftover: string)
    requires s.state == ChunkSizeNewLine_2 && Completed(Consume(s, input)) && input != "" && input[0] == '\r'
    ensures input == "\r\n" + leftover
  {
    FirstByte(s, input);
    assert input[1..] != "";
    leftover := input[2..];
  }

  lemma {:induction false} TrailersBack(s: Config, input: string) returns (trailers: seq<Trailer>, leftover: string)
    requires s.state == ChunkSizeNewLine_2 && s.chunkSizeStr == "" && s.chunkSize == 0 && |s.req.content| <= LONG_MAX
    requires Completed(Consume(s, input))
    ensures forall i :: 0 <= i < |trailers| ==> TrailerOk(trailers[i])
    ensures input == PrintTrailers(trailers) + leftover
    decreases |input|
  {
    FirstByte(s, input);
    hide Consume;
    if input[0] == '\r' {
      trailers := [];
      leftover := TrailersEndBack(s, input);
    } else {
      var trailer, rest := TrailerBack(s, input);
      var others;
      others, leftover := TrailersBack(s, rest);
      trailers := [trailer] + others;
      assert trailers[1..] == others;
      assert input == PrintTrailer(trailer) + (PrintTrailers(others) + leftover);
    }
  }

  lemma DataEndBack(s: Config, input: string) returns (rest: string)
    requires s.state == ChunkDataNewLine_1 && Completed(Consume(s, input))
    ensures input == "\r\n" + rest && Consume(s, input) == Consume(s.(state := ChunkSize), rest)
  {
    FirstByte(s, input);
    FirstByte(s.(state := ChunkDataNewLine_2), input[1..]);
    rest := input[2..];
  }

  lemma ShortData(s: Config, input: string)
    requires s.state == ChunkData && |input| < s.chunkSize
    ensures !Completed(Consume(s, input))
  {
    DataRun(s, input);
  }

  lemma DataBack(s: Config, input: string) returns (data: string, rest: string)
    requires s.state == ChunkData && s.chunkSize > 0 && Completed(Consume(s, input))
    ensures |data| == s.chunkSize && input == data + "\r\n" + rest
    ensures Consume(s, input) ==
            Consume(s.(state := ChunkSize, chunkSize := 0, req := s.req.(content := s.req.content + data)), rest)
  {
    hide Consume, Step;
    if |input| < s.chunkSize {
      ShortData(s, input);
      assert false;
    } else {
      data := input[..s.chunkSize];
      var afterData := input[s.chunkSize..];
      DataRun(s, data);
      var t := s.(state := ChunkDataNewLine_1, chunkSize := 0, req := s.req.(content := s.req.content + data));
      assert data + afterData == input;
      ConsumeFirst(s, data, t, afterData);
      rest := DataEndBack(t, afterData);
    }
  }

  /**
    The converse of ChunkedRun: whatever completes from a fresh ChunkSize state starts with a chunked body in the
    sense of HttpChunks, so the two together say which inputs complete and with which content.
   */
  lemma {:induction false} ChunkedBack(s: Config, input: string) returns (body: ChunkedBody, leftover: string)
    requires s.state == ChunkSize && s.chunkSizeStr == "" && s.chunkSize == 0 && |s.req.content| <= LONG_MAX
    requires Completed(Consume(s, input))
    ensures BodyOk(body) && |s.req.content| + |Data(body.chunks)| <= LONG_MAX
    ensures input == PrintChunked(body) + leftover
    ensures Consume(s, input).last.req.content == s.req.content + Data(body.chunks)
    decreases |input|
  {
    hide Consume, Strtol, PrintSizeLine, PrintTrailers, ExtensionOk, TrailerOk;
    var size, ext, n, rest := SizeLineBack(s, input);
    if n == 0 {
      var trailers;
      trailers, leftover := TrailersBack(s.(state := ChunkSizeNewLine_2), rest);
      body := ChunkedBody([], size, ext, trailers);
      assert input == PrintSizeLine(size, ext) + (PrintTrailers(trailers) + leftover);
    } else {
      var data, afterChunk := DataBack(s.(state := ChunkData, chunkSize := n), rest);
      var t := s.(req := s.req.(content := s.req.content + data));
      var others;
      others, leftover := ChunkedBack(t, afterChunk);
      var chunk := Chunk(size, ext, data);
      body := others.(chunks := [chunk] + others.chunks);
      assert body.chunks[1..] == others.chunks;
      assert PrintChunked(body) == PrintChunk(chunk) + PrintChunked(others);
      assert input == PrintChunk(chunk) + PrintChunked(others) + leftover;
      assert s.req.content + data + Data(others.chunks) == s.req.content + Data(body.chunks);
    }
    ChunkedEnd(s, body, leftover);
  }

  lemma ChunkedEnd(s: Config, body: ChunkedBody, leftover: string)
    requires s.state == ChunkSize && s.chunkSizeStr == "" && s.chunkSize == 0
    requires BodyOk(body) && |s.req.content| + |Data(body.chunks)| <= LONG_MAX
    ensures Consume(s, PrintChunked(body) + leftover) ==
            Stop(ParsingCompleted,
                 s.(state := ChunkSizeNewLine_3, req := s.req.(content := s.req.content + Data(body.chunks))))
  {
    ChunkedRun(s, body);
    ConsumeConcat(s, PrintChunked(body), leftover);
  }
}
