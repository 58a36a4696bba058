/**
  The request parser of httprequestparser.h: `Step` is what the source's switch does with one byte,
  `Consume` what its loop does with a buffer, and class `HttpRequestParser` the loop itself.
 */
module HttpRequestParser {
  import opened Ascii
  import opened Numerals
  import opened HttpMessage
  import opened Options

  /** The fields of `struct Request`; `verb` is the source's `method`. */
  datatype Request = Request(
    verb: string,
    uri: string,
    versionMajor: nat,
    versionMinor: nat,
    headers: seq<Header>,
    content: string,
    keepAlive: bool)

  datatype State =
    | RequestMethodStart
    | RequestMethod
    | RequestUriStart
    | RequestUri
    | RequestHttpVersion_h
    | RequestHttpVersion_ht
    | RequestHttpVersion_htt
    | RequestHttpVersion_http
    | RequestHttpVersion_slash
    | RequestHttpVersion_majorStart
    | RequestHttpVersion_major
    | RequestHttpVersion_minorStart
    | RequestHttpVersion_minor
    | ResponseHttpVersion_newLine
    | HeaderLineStart
    | HeaderLws
    | HeaderName
    | SpaceBeforeHeaderValue
    | HeaderValue
    | ExpectingNewline_2
    | ExpectingNewline_3
    | Post
    | ChunkSize
    | ChunkExtensionName
    | ChunkExtensionValue
    | ChunkSizeNewLine
    | ChunkSizeNewLine_2
    | ChunkSizeNewLine_3
    | ChunkTrailerName
    | ChunkTrailerValue
    | ChunkDataNewLine_1
    | ChunkDataNewLine_2
    | ChunkData

  /** The parser's fields and the request it is filling. */
  datatype Config = Config(
    state: State,
    contentSize: nat,
    chunkSizeStr: string,
    chunkSize: nat,
    chunked: bool,
    req: Request)

  /** One step either goes on or makes the call return. */
  datatype Verdict = More(next: Config) | Stop(result: ParseResult, last: Config)

  const FreshRequest := Request("", "", 0, 0, [], "", false)
  const Fresh := Config(RequestMethodStart, 0, "", 0, false, FreshRequest)

  predicate TakesBody(verb: string) {
    verb == "POST" || verb == "PUT"
  }

  predicate InRequestLine(state: State) {
    state in {RequestMethodStart, RequestMethod, RequestUriStart, RequestUri, RequestHttpVersion_h,
              RequestHttpVersion_ht, RequestHttpVersion_htt, RequestHttpVersion_http, RequestHttpVersion_slash,
              RequestHttpVersion_majorStart, RequestHttpVersion_major, RequestHttpVersion_minorStart,
              RequestHttpVersion_minor, ResponseHttpVersion_newLine}
  }

  predicate InHeaders(state: State) {
    state in {HeaderLineStart, HeaderLws, HeaderName, SpaceBeforeHeaderValue, HeaderValue,
              ExpectingNewline_2, ExpectingNewline_3}
  }

  function Step(s: Config, c: char): Verdict {
    if InRequestLine(s.state) then StepRequestLine(s, c)
    else if InHeaders(s.state) then StepHeaders(s, c)
    else StepBody(s, c)
  }

  function Expect(s: Config, ok: bool, state: State): Verdict {
    if ok then More(s.(state := state)) else Stop(ParsingError, s)
  }

  function StepRequestLine(s: Config, c: char): Verdict
    requires InRequestLine(s.state)
  {
    match s.state
    case RequestMethodStart =>
      if !IsToken(c) then Stop(ParsingError, s)
      else More(s.(state := RequestMethod, req := s.req.(verb := s.req.verb + [c])))
    case RequestMethod =>
      if c == ' ' then More(s.(state := RequestUriStart))
      else if !IsToken(c) then Stop(ParsingError, s)
      else More(s.(req := s.req.(verb := s.req.verb + [c])))
    case RequestUriStart =>
      if IsControl(c) then Stop(ParsingError, s)
      else More(s.(state := RequestUri, req := s.req.(uri := s.req.uri + [c])))
    case RequestUri =>
      if c == ' ' then More(s.(state := RequestHttpVersion_h))
      else if c == '\r' then Stop(ParsingCompleted, s.(req := s.req.(versionMajor := 0, versionMinor := 9)))
      else if IsControl(c) then Stop(ParsingError, s)
      else More(s.(req := s.req.(uri := s.req.uri + [c])))
    case RequestHttpVersion_h => Expect(s, c == 'H', RequestHttpVersion_ht)
    case RequestHttpVersion_ht => Expect(s, c == 'T', RequestHttpVersion_htt)
    case RequestHttpVersion_htt => Expect(s, c == 'T', RequestHttpVersion_http)
    case RequestHttpVersion_http => Expect(s, c == 'P', RequestHttpVersion_slash)
    case RequestHttpVersion_slash =>
      Expect(s.(req := if c == '/' then s.req.(versionMajor := 0, versionMinor := 0) else s.req),
             c == '/', RequestHttpVersion_majorStart)
    case RequestHttpVersion_majorStart =>
      if IsDigit(c)
      then More(s.(state := RequestHttpVersion_major, req := s.req.(versionMajor := c as int - '0' as int)))
      else Stop(ParsingError, s)
    case RequestHttpVersion_major =>
      if c == '.' then More(s.(state := RequestHttpVersion_minorStart))
      else if !IsDigit(c) then Stop(ParsingError, s)
      else if s.req.versionMajor * 10 + c as int > INT_MAX then Stop(ParsingAborted, s)
      else More(s.(req := s.req.(versionMajor := s.req.versionMajor * 10 + c as int - '0' as int)))
    case RequestHttpVersion_minorStart =>
      if IsDigit(c)
      then More(s.(state := RequestHttpVersion_minor, req := s.req.(versionMinor := c as int - '0' as int)))
      else Stop(ParsingError, s)
    case RequestHttpVersion_minor =>
      if c == '\r' then More(s.(state := ResponseHttpVersion_newLine))
      else if !IsDigit(c) then Stop(ParsingError, s)
      else if s.req.versionMinor * 10 + c as int > INT_MAX then Stop(ParsingAborted, s)
      else More(s.(req := s.req.(versionMinor := s.req.versionMinor * 10 + c as int - '0' as int)))
    case ResponseHttpVersion_newLine => Expect(s, c == '\n', HeaderLineStart)
  }

  function PushName(s: Config, c: char): Config
    requires s.req.headers != []
  {
    var n := |s.req.headers| - 1;
    s.(req := s.req.(headers := s.req.headers[..n] + [s.req.headers[n].(name := s.req.headers[n].name + [c])]))
  }

  function PushValue(s: Config, c: char): Config
    requires s.req.headers != []
  {
    var n := |s.req.headers| - 1;
    s.(req := s.req.(headers := s.req.headers[..n] + [s.req.headers[n].(value := s.req.headers[n].value + [c])]))
  }

  /** What the CR that ends a header line makes of the last header. */
  function EndHeaderLine(s: Config): Verdict
    requires s.req.headers != []
  {
    var h := s.req.headers[|s.req.headers| - 1];
    if !TakesBody(s.req.verb) then More(s.(state := ExpectingNewline_2))
    else if IsContentLength(h) then
      if Atoi(h.value) < 0 then Stop(ParsingAborted, s.(contentSize := ToSize(Atoi(h.value))))
      else More(s.(contentSize := ToSize(Atoi(h.value)), state := ExpectingNewline_2))
    else if IsChunkedCoding(h) then More(s.(chunked := true, state := ExpectingNewline_2))
    else More(s.(state := ExpectingNewline_2))
  }

  function DecideKeepAlive(req: Request): Request {
    match FirstConnection(req.headers)
    case Some(h) => req.(keepAlive := EqualIgnoreCase(h.value, "Keep-Alive"))
    case None =>
      if req.versionMajor > 1 || (req.versionMajor == 1 && req.versionMinor == 1)
      then req.(keepAlive := true) else req
  }

  function StepHeaders(s: Config, c: char): Verdict
    requires InHeaders(s.state)
  {
    match s.state
    case HeaderLineStart =>
      if c == '\r' then More(s.(state := ExpectingNewline_3))
      else if s.req.headers != [] && (c == ' ' || c == '\t') then More(s.(state := HeaderLws))
      else if !IsToken(c) then Stop(ParsingError, s)
      else More(s.(state := HeaderName, req := s.req.(headers := s.req.headers + [Header([c], "")])))
    case HeaderLws =>
      if c == '\r' then More(s.(state := ExpectingNewline_2))
      else if c == ' ' || c == '\t' then More(s)
      else if IsControl(c) then Stop(ParsingError, s)
      else if s.req.headers == [] then Stop(ParsingAborted, s)
      else More(PushValue(s, c).(state := HeaderValue))
    case HeaderName =>
      if c == ':' then More(s.(state := SpaceBeforeHeaderValue))
      else if !IsToken(c) then Stop(ParsingError, s)
      else if s.req.headers == [] then Stop(ParsingAborted, s)
      else More(PushName(s, c))
    case SpaceBeforeHeaderValue => Expect(s, c == ' ', HeaderValue)
    case HeaderValue =>
      if c == '\r' then
        if TakesBody(s.req.verb) && s.req.headers == [] then Stop(ParsingAborted, s)
        else if s.req.headers == [] then More(s.(state := ExpectingNewline_2))
        else EndHeaderLine(s)
      else if IsControl(c) then Stop(ParsingError, s)
      else if s.req.headers == [] then Stop(ParsingAborted, s)
      else More(PushValue(s, c))
    case ExpectingNewline_2 => Expect(s, c == '\n', HeaderLineStart)
    case ExpectingNewline_3 =>
      var t := s.(req := DecideKeepAlive(s.req));
      if s.chunked then More(t.(state := ChunkSize))
      else if s.contentSize == 0 then Stop(if c == '\n' then ParsingCompleted else ParsingError, t)
      else More(t.(state := Post))
  }

  function StepBody(s: Config, c: char): Verdict
    requires !InRequestLine(s.state) && !InHeaders(s.state)
  {
    match s.state
    case Post =>
      var t := s.(contentSize := Decrement(s.contentSize), req := s.req.(content := s.req.content + [c]));
      if t.contentSize == 0 then Stop(ParsingCompleted, t) else More(t)
    case ChunkSize =>
      if IsAlnum(c) then More(s.(chunkSizeStr := s.chunkSizeStr + [c]))
      else if c == ';' then More(s.(state := ChunkExtensionName))
      else Expect(s, c == '\r', ChunkSizeNewLine)
    case ChunkExtensionName =>
      if IsAlnum(c) || c == ' ' then More(s)
      else if c == '=' then More(s.(state := ChunkExtensionValue))
      else Expect(s, c == '\r', ChunkSizeNewLine)
    case ChunkExtensionValue =>
      if IsAlnum(c) || c == ' ' then More(s)
      else Expect(s, c == '\r', ChunkSizeNewLine)
    case ChunkSizeNewLine =>
      if c != '\n' then Stop(ParsingError, s)
      else
        var size := ToSize(Strtol(s.chunkSizeStr, 16));
        var t := s.(chunkSize := size, chunkSizeStr := "");
        if ToSize(|s.req.content| + size) > LONG_MAX then Stop(ParsingAborted, t)
        else More(t.(state := if size == 0 then ChunkSizeNewLine_2 else ChunkData))
    case ChunkSizeNewLine_2 =>
      if c == '\r' then More(s.(state := ChunkSizeNewLine_3))
      else Expect(s, IsAlpha(c), ChunkTrailerName)
    case ChunkSizeNewLine_3 => Stop(if c == '\n' then ParsingCompleted else ParsingError, s)
    case ChunkTrailerName =>
      if IsAlnum(c) then More(s)
      else Expect(s, c == ':', ChunkTrailerValue)
    case ChunkTrailerValue =>
      if IsAlnum(c) || c == ' ' then More(s)
      else Expect(s, c == '\r', ChunkSizeNewLine)
    case ChunkData =>
      var t := s.(chunkSize := Decrement(s.chunkSize), req := s.req.(content := s.req.content + [c]));
      More(if t.chunkSize == 0 then t.(state := ChunkDataNewLine_1) else t)
    case ChunkDataNewLine_1 => Expect(s, c == '\r', ChunkDataNewLine_2)
    case ChunkDataNewLine_2 => Expect(s, c == '\n', ChunkSize)
  }

  /** A whole buffer: the first step that stops decides, and the bytes after it are not read. */
  function Consume(s: Config, input: string): Verdict
    decreases |input|
  {
    if input == "" then More(s)
    else
      match Step(s, input[0])
      case More(t) => Consume(t, input[1..])
      case Stop(result, last) => Stop(result, last)
  }

  /** The `Request &` a caller passes to `parse`. */
  class RequestRef {
    var value: Request

    constructor ()
      ensures value == FreshRequest
    {
      value := FreshRequest;
    }
  }

  class HttpRequestParser {
    var state: State
    var contentSize: nat
    var chunkSizeStr: string
    var chunkSize: nat
    var chunked: bool

    constructor ()
      ensures state == RequestMethodStart && contentSize == 0 && chunkSizeStr == "" && chunkSize == 0 && !chunked
    {
      state := RequestMethodStart;
      contentSize, chunkSizeStr, chunkSize, chunked := 0, "", 0, false;
    }

    ghost function Snapshot(req: RequestRef): Config
      reads this, req
    {
      Config(state, contentSize, chunkSizeStr, chunkSize, chunked, req.value)
    }

    /** The call refines `Consume`: same result, same parser fields, same request, for every state and buffer. */
    method Parse(req: RequestRef, input: string) returns (result: ParseResult)
      modifies this, req
      ensures Consume(old(Snapshot(req)), input) ==
              if result == ParsingIncompleted then More(Snapshot(req)) else Stop(result, Snapshot(req))
    {
      var i := 0;
      while i < |input|
        invariant 0 <= i <= |input|
        invariant Consume(old(Snapshot(req)), input) == Consume(Snapshot(req), input[i..])
      {
        var c := input[i];
        assert input[i..][1..] == input[i + 1..];
        i := i + 1;
        var stop: Option<ParseResult>;
        if InRequestLine(state) {
          stop := ConsumeRequestLine(req, c);
        } else if InHeaders(state) {
          stop := ConsumeHeaders(req, c);
        } else {
          stop := ConsumeBody(req, c);
        }
        if stop.Some? {
          return stop.value;
        }
      }
      return ParsingIncompleted;
    }

    method ConsumeRequestLine(req: RequestRef, input: char) returns (stop: Option<ParseResult>)
      requires InRequestLine(state)
      modifies this, req
      ensures stop != Some(ParsingIncompleted)
      ensures Step(old(Snapshot(req)), input) ==
              if stop == None then More(Snapshot(req)) else Stop(stop.value, Snapshot(req))
    {
      match state {
        case RequestMethodStart =>
          if !IsChar(input) || IsControl(input) || IsSpecial(input) {
            return Some(ParsingError);
          }
          state := RequestMethod;
          req.value := req.value.(verb := req.value.verb + [input]);
        case RequestMethod =>
          if input == ' ' {
            state := RequestUriStart;
          } else if !IsChar(input) || IsControl(input) || IsSpecial(input) {
            return Some(ParsingError);
          } else {
            req.value := req.value.(verb := req.value.verb + [input]);
          }
        case RequestUriStart =>
          if IsControl(input) {
            return Some(ParsingError);
          }
          state := RequestUri;
          req.value := req.value.(uri := req.value.uri + [input]);
        case RequestUri =>
          if input == ' ' {
            state := RequestHttpVersion_h;
          } else if input == '\r' {
            req.value := req.value.(versionMajor := 0, versionMinor := 9);
            return Some(ParsingCompleted);
          } else if IsControl(input) {
            return Some(ParsingError);
          } else {
            req.value := req.value.(uri := req.value.uri + [input]);
          }
        case RequestHttpVersion_h =>
          if input != 'H' {
            return Some(ParsingError);
          }
          state := RequestHttpVersion_ht;
        case RequestHttpVersion_ht =>
          if input != 'T' {
            return Some(ParsingError);
          }
          state := RequestHttpVersion_htt;
        case RequestHttpVersion_htt =>
          if input != 'T' {
            return Some(ParsingError);
          }
          state := RequestHttpVersion_http;
        case RequestHttpVersion_http =>
          if input != 'P' {
            return Some(ParsingError);
          }
          state := RequestHttpVersion_slash;
        case RequestHttpVersion_slash =>
          if input != '/' {
            return Some(ParsingError);
          }
          req.value := req.value.(versionMajor := 0, versionMinor := 0);
          state := RequestHttpVersion_majorStart;
        case RequestHttpVersion_majorStart =>
          if !IsDigit(input) {
            return Some(ParsingError);
          }
          req.value := req.value.(versionMajor := input as int - '0' as int);
          state := RequestHttpVersion_major;
        case RequestHttpVersion_major =>
          if input == '.' {
            state := RequestHttpVersion_minorStart;
          } else if IsDigit(input) {
            if req.value.versionMajor * 10 + input as int > INT_MAX {
              return Some(ParsingAborted);
            }
            req.value := req.value.(versionMajor := req.value.versionMajor * 10 + input as int - '0' as int);
          } else {
            return Some(ParsingError);
          }
        case RequestHttpVersion_minorStart =>
          if !IsDigit(input) {
            return Some(ParsingError);
          }
          req.value := req.value.(versionMinor := input as int - '0' as int);
          state := RequestHttpVersion_minor;
        case RequestHttpVersion_minor =>
          if input == '\r' {
            state := ResponseHttpVersion_newLine;
          } else if IsDigit(input) {
            if req.value.versionMinor * 10 + input as int > INT_MAX {
              return Some(ParsingAborted);
            }
            req.value := req.value.(versionMinor := req.value.versionMinor * 10 + input as int - '0' as int);
          } else {
            return Some(ParsingError);
          }
        case ResponseHttpVersion_newLine =>
          if input != '\n' {
            return Some(ParsingError);
          }
          state := HeaderLineStart;
      }
      return None;
    }

    method ConsumeHeaders(req: RequestRef, input: char) returns (stop: Option<ParseResult>)
      requires InHeaders(state)
      modifies this, req
      ensures stop != Some(ParsingIncompleted)
      ensures Step(old(Snapshot(req)), input) ==
              if stop == None then More(Snapshot(req)) else Stop(stop.value, Snapshot(req))
    {
      var headers := req.value.headers;
      var n := |headers| - 1;
      match state {
        case HeaderLineStart =>
          if input == '\r' {
            state := ExpectingNewline_3;
          } else if headers != [] && (input == ' ' || input == '\t') {
            state := HeaderLws;
          } else if !IsChar(input) || IsControl(input) || IsSpecial(input) {
            return Some(ParsingError);
          } else {
            req.value := req.value.(headers := headers + [Header([input], "")]);
            state := HeaderName;
          }
        case HeaderLws =>
          if input == '\r' {
            state := ExpectingNewline_2;
          } else if input == ' ' || input == '\t' {
          } else if IsControl(input) {
            return Some(ParsingError);
          } else {
            if headers == [] {
              return Some(ParsingAborted);
            }
            state := HeaderValue;
            req.value := req.value.(headers := headers[..n] + [headers[n].(value := headers[n].value + [input])]);
          }
        case HeaderName =>
          if input == ':' {
            state := SpaceBeforeHeaderValue;
          } else if !IsChar(input) || IsControl(input) || IsSpecial(input) {
            return Some(ParsingError);
          } else {
            if headers == [] {
              return Some(ParsingAborted);
            }
            req.value := req.value.(headers := headers[..n] + [headers[n].(name := headers[n].name + [input])]);
          }
        case SpaceBeforeHeaderValue =>
          if input != ' ' {
            return Some(ParsingError);
          }
          state := HeaderValue;
        case HeaderValue =>
          if input == '\r' {
            if req.value.verb == "POST" || req.value.verb == "PUT" {
              if headers == [] {
                return Some(ParsingAborted);
              }
              var h := headers[n];
              if EqualIgnoreCase(h.name, "Content-Length") {
                contentSize := ToSize(Atoi(h.value));
                if Atoi(h.value) < 0 {
                  return Some(ParsingAborted);
                }
              } else if EqualIgnoreCase(h.name, "Transfer-Encoding") {
                if EqualIgnoreCase(h.value, "chunked") {
                  chunked := true;
                }
              }
            }
            state := ExpectingNewline_2;
          } else if IsControl(input) {
            return Some(ParsingError);
          } else {
            if headers == [] {
              return Some(ParsingAborted);
            }
            req.value := req.value.(headers := headers[..n] + [headers[n].(value := headers[n].value + [input])]);
          }
        case ExpectingNewline_2 =>
          if input != '\n' {
            return Some(ParsingError);
          }
          state := HeaderLineStart;
        case ExpectingNewline_3 =>
          match FirstConnection(headers) {
            case Some(h) =>
              if EqualIgnoreCase(h.value, "Keep-Alive") {
                req.value := req.value.(keepAlive := true);
              } else {
                req.value := req.value.(keepAlive := false);
              }
            case None =>
              if req.value.versionMajor > 1 || (req.value.versionMajor == 1 && req.value.versionMinor == 1) {
                req.value := req.value.(keepAlive := true);
              }
          }
          if chunked {
            state := ChunkSize;
          } else if contentSize == 0 {
            return Some(if input == '\n' then ParsingCompleted else ParsingError);
          } else {
            state := Post;
          }
      }
      return None;
    }

    method ConsumeBody(req: RequestRef, input: char) returns (stop: Option<ParseResult>)
      requires !InRequestLine(state) && !InHeaders(state)
      modifies this, req
      ensures stop != Some(ParsingIncompleted)
      ensures Step(old(Snapshot(req)), input) ==
              if stop == None then More(Snapshot(req)) else Stop(stop.value, Snapshot(req))
    {
      match state {
        case Post =>
          contentSize := Decrement(contentSize);
          req.value := req.value.(content := req.value.content + [input]);
          if contentSize == 0 {
            return Some(ParsingCompleted);
          }
        case ChunkSize =>
          if IsAlnum(input) {
            chunkSizeStr := chunkSizeStr + [input];
          } else if input == ';' {
            state := ChunkExtensionName;
          } else if input == '\r' {
            state := ChunkSizeNewLine;
          } else {
            return Some(ParsingError);
          }
        case ChunkExtensionName =>
          if IsAlnum(input) || input == ' ' {
          } else if input == '=' {
            state := ChunkExtensionValue;
          } else if input == '\r' {
            state := ChunkSizeNewLine;
          } else {
            return Some(ParsingError);
          }
        case ChunkExtensionValue =>
          if IsAlnum(input) || input == ' ' {
          } else if input == '\r' {
            state := ChunkSizeNewLine;
          } else {
            return Some(ParsingError);
          }
        case ChunkSizeNewLine =>
          if input != '\n' {
            return Some(ParsingError);
          }
          chunkSize := ToSize(Strtol(chunkSizeStr, 16));
          chunkSizeStr := "";
          if ToSize(|req.value.content| + chunkSize) > LONG_MAX {
            return Some(ParsingAborted);
          }
          if chunkSize == 0 {
            state := ChunkSizeNewLine_2;
          } else {
            state := ChunkData;
          }
        case ChunkSizeNewLine_2 =>
          if input == '\r' {
            state := ChunkSizeNewLine_3;
          } else if IsAlpha(input) {
            state := ChunkTrailerName;
          } else {
            return Some(ParsingError);
          }
        case ChunkSizeNewLine_3 =>
          return Some(if input == '\n' then ParsingCompleted else ParsingError);
        case ChunkTrailerName =>
          if IsAlnum(input) {
          } else if input == ':' {
            state := ChunkTrailerValue;
          } else {
            return Some(ParsingError);
          }
        case ChunkTrailerValue =>
          if IsAlnum(input) || input == ' ' {
          } else if input == '\r' {
            state := ChunkSizeNewLine;
          } else {
            return Some(ParsingError);
          }
        case ChunkData =>
          req.value := req.value.(content := req.value.content + [input]);
          chunkSize := Decrement(chunkSize);
          if chunkSize == 0 {
            state := ChunkDataNewLine_1;
          }
        case ChunkDataNewLine_1 =>
          if input != '\r' {
            return Some(ParsingError);
          }
          state := ChunkDataNewLine_2;
        case ChunkDataNewLine_2 =>
          if input != '\n' {
            return Some(ParsingError);
          }
          state := ChunkSize;
      }
      return None;
    }
  }
}
