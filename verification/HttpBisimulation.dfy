/**
  From the first header on, the response parser does what the request parser does for POST and PUT:
  `Twin` maps its configurations to the request parser's, and every step and every run commutes with it.
 */
module HttpBisimulation {
  import opened Ascii
  import opened Numerals
  import opened HttpMessage
  import Req = HttpRequestParser
  import Res = HttpResponseParser

  function TwinState(state: Res.State): Req.State
    requires !Res.InStatusLine(state)
  {
    match state
    case HeaderLineStart => Req.HeaderLineStart
    case HeaderLws => Req.HeaderLws
    case HeaderName => Req.HeaderName
    case SpaceBeforeHeaderValue => Req.SpaceBeforeHeaderValue
    case HeaderValue => Req.HeaderValue
    case ExpectingNewline_2 => Req.ExpectingNewline_2
    case ExpectingNewline_3 => Req.ExpectingNewline_3
    case Post => Req.Post
    case ChunkSize => Req.ChunkSize
    case ChunkExtensionName => Req.ChunkExtensionName
    case ChunkExtensionValue => Req.ChunkExtensionValue
    case ChunkSizeNewLine => Req.ChunkSizeNewLine
    case ChunkSizeNewLine_2 => Req.ChunkSizeNewLine_2
    case ChunkSizeNewLine_3 => Req.ChunkSizeNewLine_3
    case ChunkTrailerName => Req.ChunkTrailerName
    case ChunkTrailerValue => Req.ChunkTrailerValue
    case ChunkDataNewLine_1 => Req.ChunkDataNewLine_1
    case ChunkDataNewLine_2 => Req.ChunkDataNewLine_2
    case ChunkData => Req.ChunkData
  }

  function TwinMessage(r: Res.Response, verb: string, uri: string): Req.Request {
    Req.Request(verb, uri, r.versionMajor, r.versionMinor, r.headers, r.content, r.keepAlive)
  }

  function Twin(s: Res.Config, verb: string, uri: string): Req.Config
    requires !Res.InStatusLine(s.state)
  {
    Req.Config(TwinState(s.state), s.contentSize, s.chunkSizeStr, s.chunkSize, s.chunked,
               TwinMessage(s.resp, verb, uri))
  }

  /** Both parsers go on in corresponding configurations, or both return the same result in such. */
  predicate Match(v: Req.Verdict, w: Res.Verdict, verb: string, uri: string) {
    match w
    case More(t) => !Res.InStatusLine(t.state) && v == Req.More(Twin(t, verb, uri))
    case Stop(result, last) => !Res.InStatusLine(last.state) && v == Req.Stop(result, Twin(last, verb, uri))
  }

  /** The status line is not touched any more. */
  predicate KeepsStatus(s: Res.Config, w: Res.Verdict) {
    var r := match w case More(t) => t.resp case Stop(_, last) => last.resp;
    r.statusCode == s.resp.statusCode && r.status == s.resp.status
  }

  lemma NameBisimulation(s: Res.Config, verb: string, uri: string, c: char)
    requires s.state in {Res.HeaderLineStart, Res.HeaderName, Res.SpaceBeforeHeaderValue} && Req.TakesBody(verb)
    ensures Match(Req.Step(Twin(s, verb, uri), c), Res.Step(s, c), verb, uri) && KeepsStatus(s, Res.Step(s, c))
  {
    hide Req.StepRequestLine, Req.StepBody, Res.StepStatusLine, Res.StepBody, IsContentLength, IsChunkedCoding, Atoi,
         Req.DecideKeepAlive, Res.DecideKeepAlive, Req.EndHeaderLine, Res.EndHeaderLine;
  }

  lemma ValueBisimulation(s: Res.Config, verb: string, uri: string, c: char)
    requires s.state in {Res.HeaderLws, Res.HeaderValue} && Req.TakesBody(verb)
    ensures Match(Req.Step(Twin(s, verb, uri), c), Res.Step(s, c), verb, uri) && KeepsStatus(s, Res.Step(s, c))
  {
    hide Req.StepRequestLine, Req.StepBody, Res.StepStatusLine, Res.StepBody, IsContentLength, IsChunkedCoding, Atoi,
         Req.DecideKeepAlive, Res.DecideKeepAlive;
  }

  lemma HeadersEndBisimulation(s: Res.Config, verb: string, uri: string, c: char)
    requires s.state in {Res.ExpectingNewline_2, Res.ExpectingNewline_3} && Req.TakesBody(verb)
    ensures Match(Req.Step(Twin(s, verb, uri), c), Res.Step(s, c), verb, uri) && KeepsStatus(s, Res.Step(s, c))
  {
    hide Req.StepRequestLine, Req.StepBody, Res.StepStatusLine, Res.StepBody, FirstConnection, EqualIgnoreCase,
         Req.EndHeaderLine, Res.EndHeaderLine;
  }

  lemma HeadersBisimulation(s: Res.Config, verb: string, uri: string, c: char)
    requires Res.InHeaders(s.state) && Req.TakesBody(verb)
    ensures Match(Req.Step(Twin(s, verb, uri), c), Res.Step(s, c), verb, uri) && KeepsStatus(s, Res.Step(s, c))
  {
    hide Req.Step, Res.Step, Match, KeepsStatus;
    if s.state in {Res.HeaderLws, Res.HeaderValue} {
      ValueBisimulation(s, verb, uri, c);
    } else if s.state in {Res.ExpectingNewline_2, Res.ExpectingNewline_3} {
      HeadersEndBisimulation(s, verb, uri, c);
    } else {
      NameBisimulation(s, verb, uri, c);
    }
  }

  predicate InSizeLine(state: Res.State) {
    state.ChunkSize? || state.ChunkExtensionName? || state.ChunkExtensionValue? || state.ChunkSizeNewLine?
  }

  lemma SizeLineBisimulation(s: Res.Config, verb: string, uri: string, c: char)
    requires InSizeLine(s.state) && Req.TakesBody(verb)
    ensures Match(Req.Step(Twin(s, verb, uri), c), Res.Step(s, c), verb, uri) && KeepsStatus(s, Res.Step(s, c))
  {
    hide Req.StepRequestLine, Req.StepHeaders, Res.StepStatusLine, Res.StepHeaders, Strtol, ToSize, Decrement;
  }

  predicate InTrailers(state: Res.State) {
    state.ChunkSizeNewLine_2? || state.ChunkSizeNewLine_3? || state.ChunkTrailerName? || state.ChunkTrailerValue?
  }

  lemma TrailersBisimulation(s: Res.Config, verb: string, uri: string, c: char)
    requires InTrailers(s.state) && Req.TakesBody(verb)
    ensures Match(Req.Step(Twin(s, verb, uri), c), Res.Step(s, c), verb, uri) && KeepsStatus(s, Res.Step(s, c))
  {
    hide Req.StepRequestLine, Req.StepHeaders, Res.StepStatusLine, Res.StepHeaders, Strtol, ToSize, Decrement;
  }

  predicate InData(state: Res.State) {
    state.Post? || state.ChunkData? || state.ChunkDataNewLine_1? || state.ChunkDataNewLine_2?
  }

  lemma DataBisimulation(s: Res.Config, verb: string, uri: string, c: char)
    requires InData(s.state) && Req.TakesBody(verb)
    ensures Match(Req.Step(Twin(s, verb, uri), c), Res.Step(s, c), verb, uri) && KeepsStatus(s, Res.Step(s, c))
  {
    hide Req.StepRequestLine, Req.StepHeaders, Res.StepStatusLine, Res.StepHeaders, Strtol, ToSize, Decrement;
  }

  lemma StepBisimulation(s: Res.Config, verb: string, uri: string, c: char)
    requires !Res.InStatusLine(s.state) && Req.TakesBody(verb)
    ensures Match(Req.Step(Twin(s, verb, uri), c), Res.Step(s, c), verb, uri) && KeepsStatus(s, Res.Step(s, c))
  {
    hide Req.Step, Res.Step;
    if Res.InHeaders(s.state) {
      HeadersBisimulation(s, verb, uri, c);
    } else if InSizeLine(s.state) {
      SizeLineBisimulation(s, verb, uri, c);
    } else if InTrailers(s.state) {
      TrailersBisimulation(s, verb, uri, c);
    } else {
      DataBisimulation(s, verb, uri, c);
    }
  }

  /** The bisimulation over whole inputs. */
  lemma {:induction false} Bisimulation(s: Res.Config, verb: string, uri: string, input: string)
    requires !Res.InStatusLine(s.state) && Req.TakesBody(verb)
    ensures Match(Req.Consume(Twin(s, verb, uri), input), Res.Consume(s, input), verb, uri)
    ensures KeepsStatus(s, Res.Consume(s, input))
    decreases |input|
  {
    hide Req.Step, Res.Step;
    if input != "" {
      StepBisimulation(s, verb, uri, input[0]);
      match Res.Step(s, input[0]) {
        case More(t) => Bisimulation(t, verb, uri, input[1..]);
        case Stop(_, _) =>
      }
    }
  }
}
