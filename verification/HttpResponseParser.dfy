/**
  The response parser of httpresponseparser.h: `Step` is what the source's switch does with one byte,
  `Consume` what its loop does with a buffer, and class `HttpResponseParser` the loop itself.
 */
module HttpResponseParser {
  import opened Ascii
  import opened Numerals
  import opened HttpMessage
  import opened Options

  /** The fields of `struct Response`; `statusCode` is a 32-bit unsigned int. */
  datatype Response = Response(
    versionMajor: nat,
    versionMinor: nat,
    headers: seq<Header>,
    content: string,
    keepAlive: bool,
    statusCode: nat,
    status: string)

  datatype State =
    | ResponseStatusStart
    | ResponseHttpVersion_ht
    | ResponseHttpVersion_htt
    | ResponseHttpVersion_http
    | ResponseHttpVersion_slash
    | ResponseHttpVersion_majorStart
    | ResponseHttpVersion_major
    | ResponseHttpVersion_minorStart
    | ResponseHttpVersion_minor
    | ResponseHttpVersion_statusCodeStart
    | ResponseHttpVersion_statusCode
    | ResponseHttpVersion_statusTextStart
    | ResponseHttpVersion_statusText
    | ResponseHttpVersion_newLine
    | HeaderLineStart
    | HeaderLws
    | HeaderName
    | SpaceBeforeHeaderValue
    | HeaderValue
    | ExpectingNewline_2
    | ExpectingNewline_3
    | Post
    | ChunkSize
    | ChunkExtensionName
    | ChunkExtensionValue
    | ChunkSizeNewLine
    | ChunkSizeNewLine_2
    | ChunkSizeNewLine_3
    | ChunkTrailerName
    | ChunkTrailerValue
    | ChunkDataNewLine_1
    | ChunkDataNewLine_2
    | ChunkData

  /** The parser's fields and the response it is filling. */
  datatype Config = Config(
    state: State,
    contentSize: nat,
    chunkSizeStr: string,
    chunkSize: nat,
    chunked: bool,
    resp: Response)

  /** One step either goes on or makes the call return. */
  datatype Verdict = More(next: Config) | Stop(result: ParseResult, last: Config)

  const FreshResponse := Response(0, 0, [], "", false, 0, "")
  const Fresh := Config(ResponseStatusStart, 0, "", 0, false, FreshResponse)

  const UINT_SIZE := 0x1_0000_0000

  predicate InStatusLine(state: State) {
    state in {ResponseStatusStart, ResponseHttpVersion_ht, ResponseHttpVersion_htt, ResponseHttpVersion_http,
              ResponseHttpVersion_slash, ResponseHttpVersion_majorStart, ResponseHttpVersion_major,
              ResponseHttpVersion_minorStart, ResponseHttpVersion_minor, ResponseHttpVersion_statusCodeStart,
              ResponseHttpVersion_statusCode, ResponseHttpVersion_statusTextStart, ResponseHttpVersion_statusText,
              ResponseHttpVersion_newLine}
  }

  predicate InHeaders(state: State) {
    state in {HeaderLineStart, HeaderLws, HeaderName, SpaceBeforeHeaderValue, HeaderValue,
              ExpectingNewline_2, ExpectingNewline_3}
  }

  function Step(s: Config, c: char): Verdict {
    if InStatusLine(s.state) then StepStatusLine(s, c)
    else if InHeaders(s.state) then StepHeaders(s, c)
    else StepBody(s, c)
  }

  function Expect(s: Config, ok: bool, state: State): Verdict {
    if ok then More(s.(state := state)) else Stop(ParsingError, s)
  }

  function StepStatusLine(s: Config, c: char): Verdict
    requires InStatusLine(s.state)
  {
    match s.state
    case ResponseStatusStart => Expect(s, c == 'H', ResponseHttpVersion_ht)
    case ResponseHttpVersion_ht => Expect(s, c == 'T', ResponseHttpVersion_htt)
    case ResponseHttpVersion_htt => Expect(s, c == 'T', ResponseHttpVersion_http)
    case ResponseHttpVersion_http => Expect(s, c == 'P', ResponseHttpVersion_slash)
    case ResponseHttpVersion_slash =>
      Expect(s.(resp := if c == '/' then s.resp.(versionMajor := 0, versionMinor := 0) else s.resp),
             c == '/', ResponseHttpVersion_majorStart)
    case ResponseHttpVersion_majorStart =>
      if IsDigit(c)
      then More(s.(state := ResponseHttpVersion_major, resp := s.resp.(versionMajor := c as int - '0' as int)))
      else Stop(ParsingError, s)
    case ResponseHttpVersion_major =>
      if c == '.' then More(s.(state := ResponseHttpVersion_minorStart))
      else if !IsDigit(c) then Stop(ParsingError, s)
      else if s.resp.versionMajor * 10 + c as int > INT_MAX then Stop(ParsingAborted, s)
      else More(s.(resp := s.resp.(versionMajor := s.resp.versionMajor * 10 + c as int - '0' as int)))
    case ResponseHttpVersion_minorStart =>
      if IsDigit(c)
      then More(s.(state := ResponseHttpVersion_minor, resp := s.resp.(versionMinor := c as int - '0' as int)))
      else Stop(ParsingError, s)
    case ResponseHttpVersion_minor =>
      if c == ' ' then More(s.(state := ResponseHttpVersion_statusCodeStart, resp := s.resp.(statusCode := 0)))
      else if !IsDigit(c) then Stop(ParsingError, s)
      else if s.resp.versionMinor * 10 + c as int > INT_MAX then Stop(ParsingAborted, s)
      else More(s.(resp := s.resp.(versionMinor := s.resp.versionMinor * 10 + c as int - '0' as int)))
    case ResponseHttpVersion_statusCodeStart =>
      if IsDigit(c)
      then More(s.(state := ResponseHttpVersion_statusCode, resp := s.resp.(statusCode := c as int - '0' as int)))
      else Stop(ParsingError, s)
    case ResponseHttpVersion_statusCode =>
      if IsDigit(c) then
        More(s.(resp := s.resp.(statusCode := (s.resp.statusCode * 10 + c as int - '0' as int) % UINT_SIZE)))
      else if s.resp.statusCode < 100 || s.resp.statusCode > 999 then Stop(ParsingError, s)
      else Expect(s, c == ' ', ResponseHttpVersion_statusTextStart)
    case ResponseHttpVersion_statusTextStart =>
      if IsChar(c)
      then More(s.(state := ResponseHttpVersion_statusText, resp := s.resp.(status := s.resp.status + [c])))
      else Stop(ParsingError, s)
    case ResponseHttpVersion_statusText =>
      if c == '\r' then More(s.(state := ResponseHttpVersion_newLine))
      else if IsChar(c) then More(s.(resp := s.resp.(status := s.resp.status + [c])))
      else Stop(ParsingError, s)
    case ResponseHttpVersion_newLine => Expect(s, c == '\n', HeaderLineStart)
  }

  function PushName(s: Config, c: char): Config
    requires s.resp.headers != []
  {
    var n := |s.resp.headers| - 1;
    s.(resp := s.resp.(headers := s.resp.headers[..n] + [s.resp.headers[n].(name := s.resp.headers[n].name + [c])]))
  }

  function PushValue(s: Config, c: char): Config
    requires s.resp.headers != []
  {
    var n := |s.resp.headers| - 1;
    s.(resp := s.resp.(headers := s.resp.headers[..n] + [s.resp.headers[n].(value := s.resp.headers[n].value + [c])]))
  }

  /** What the CR that ends a header line makes of the last header. */
  function EndHeaderLine(s: Config): Verdict
    requires s.resp.headers != []
  {
    var h := s.resp.headers[|s.resp.headers| - 1];
    if IsContentLength(h) then
      if Atoi(h.value) < 0 then Stop(ParsingAborted, s.(contentSize := ToSize(Atoi(h.value))))
      else More(s.(contentSize := ToSize(Atoi(h.value)), state := ExpectingNewline_2))
    else if IsChunkedCoding(h) then More(s.(chunked := true, state := ExpectingNewline_2))
    else More(s.(state := ExpectingNewline_2))
  }

  function DecideKeepAlive(resp: Response): Response {
    match FirstConnection(resp.headers)
    case Some(h) => resp.(keepAlive := EqualIgnoreCase(h.value, "Keep-Alive"))
    case None =>
      if resp.versionMajor > 1 || (resp.versionMajor == 1 && resp.versionMinor == 1)
      then resp.(keepAlive := true) else resp
  }

  function StepHeaders(s: Config, c: char): Verdict
    requires InHeaders(s.state)
  {
    match s.state
    case HeaderLineStart =>
      if c == '\r' then More(s.(state := ExpectingNewline_3))
      else if s.resp.headers != [] && (c == ' ' || c == '\t') then More(s.(state := HeaderLws))
      else if !IsToken(c) then Stop(ParsingError, s)
      else More(s.(state := HeaderName, resp := s.resp.(headers := s.resp.headers + [Header([c], "")])))
    case HeaderLws =>
      if c == '\r' then More(s.(state := ExpectingNewline_2))
      else if c == ' ' || c == '\t' then More(s)
      else if IsControl(c) then Stop(ParsingError, s)
      else if s.resp.headers == [] then Stop(ParsingAborted, s)
      else More(PushValue(s, c).(state := HeaderValue))
    case HeaderName =>
      if c == ':' then More(s.(state := SpaceBeforeHeaderValue))
      else if !IsToken(c) then Stop(ParsingError, s)
      else if s.resp.headers == [] then Stop(ParsingAborted, s)
      else More(PushName(s, c))
    case SpaceBeforeHeaderValue => Expect(s, c == ' ', HeaderValue)
    case HeaderValue =>
      if c == '\r' then
        if s.resp.headers == [] then Stop(ParsingAborted, s)
        else EndHeaderLine(s)
      else if IsControl(c) then Stop(ParsingError, s)
      else if s.resp.headers == [] then Stop(ParsingAborted, s)
      else More(PushValue(s, c))
    case ExpectingNewline_2 => Expect(s, c == '\n', HeaderLineStart)
    case ExpectingNewline_3 =>
      var t := s.(resp := DecideKeepAlive(s.resp));
      if s.chunked then More(t.(state := ChunkSize))
      else if s.contentSize == 0 then Stop(if c == '\n' then ParsingCompleted else ParsingError, t)
      else More(t.(state := Post))
  }

  function StepBody(s: Config, c: char): Verdict
    requires !InStatusLine(s.state) && !InHeaders(s.state)
  {
    match s.state
    case Post =>
      var t := s.(contentSize := Decrement(s.contentSize), resp := s.resp.(content := s.resp.content + [c]));
      if t.contentSize == 0 then Stop(ParsingCompleted, t) else More(t)
    case ChunkSize =>
      if IsAlnum(c) then More(s.(chunkSizeStr := s.chunkSizeStr + [c]))
      else if c == ';' then More(s.(state := ChunkExtensionName))
      else Expect(s, c == '\r', ChunkSizeNewLine)
    case ChunkExtensionName =>
      if IsAlnum(c) || c == ' ' then More(s)
      else if c == '=' then More(s.(state := ChunkExtensionValue))
      else Expect(s, c == '\r', ChunkSizeNewLine)
    case ChunkExtensionValue =>
      if IsAlnum(c) || c == ' ' then More(s)
      else Expect(s, c == '\r', ChunkSizeNewLine)
    case ChunkSizeNewLine =>
      if c != '\n' then Stop(ParsingError, s)
      else
        var size := ToSize(Strtol(s.chunkSizeStr, 16));
        var t := s.(chunkSize := size, chunkSizeStr := "");
        if ToSize(|s.resp.content| + size) > LONG_MAX then Stop(ParsingAborted, t)
        else More(t.(state := if size == 0 then ChunkSizeNewLine_2 else ChunkData))
    case ChunkSizeNewLine_2 =>
      if c == '\r' then More(s.(state := ChunkSizeNewLine_3))
      else Expect(s, IsAlpha(c), ChunkTrailerName)
    case ChunkSizeNewLine_3 => Stop(if c == '\n' then ParsingCompleted else ParsingError, s)
    case ChunkTrailerName =>
      if IsAlnum(c) then More(s)
      else Expect(s, c == ':', ChunkTrailerValue)
    case ChunkTrailerValue =>
      if IsAlnum(c) || c == ' ' then More(s)
      else Expect(s, c == '\r', ChunkSizeNewLine)
    case ChunkData =>
      var t := s.(chunkSize := Decrement(s.chunkSize), resp := s.resp.(content := s.resp.content + [c]));
      More(if t.chunkSize == 0 then t.(state := ChunkDataNewLine_1) else t)
    case ChunkDataNewLine_1 => Expect(s, c == '\r', ChunkDataNewLine_2)
    case ChunkDataNewLine_2 => Expect(s, c == '\n', ChunkSize)
  }

  /** A whole buffer: the first step that stops decides, and the bytes after it are not read. */
  function Consume(s: Config, input: string): Verdict
    decreases |input|
  {
    if input == "" then More(s)
    else
      match Step(s, input[0])
      case More(t) => Consume(t, input[1..])
      case Stop(result, last) => Stop(result, last)
  }

  /** The `Response &` a caller passes to `parse`. */
  class ResponseRef {
    var value: Response

    constructor ()
      ensures value == FreshResponse
    {
      value := FreshResponse;
    }
  }

  class HttpResponseParser {
    var state: State
    var contentSize: nat
    var chunkSizeStr: string
    var chunkSize: nat
    var chunked: bool

    constructor ()
      ensures state == ResponseStatusStart && contentSize == 0 && chunkSizeStr == "" && chunkSize == 0 && !chunked
    {
      state := ResponseStatusStart;
      contentSize, chunkSizeStr, chunkSize, chunked := 0, "", 0, false;
    }

    ghost function Snapshot(resp: ResponseRef): Config
      reads this, resp
    {
      Config(state, contentSize, chunkSizeStr, chunkSize, chunked, resp.value)
    }

    /** The call refines `Consume`: same result, same parser fields, same response, for every state and buffer. */
    method Parse(resp: ResponseRef, input: string) returns (result: ParseResult)
      modifies this, resp
      ensures Consume(old(Snapshot(resp)), input) ==
              if result == ParsingIncompleted then More(Snapshot(resp)) else Stop(result, Snapshot(resp))
    {
      var i := 0;
      while i < |input|
        invariant 0 <= i <= |input|
        invariant Consume(old(Snapshot(resp)), input) == Consume(Snapshot(resp), input[i..])
      {
        var c := input[i];
        assert input[i..][1..] == input[i + 1..];
        i := i + 1;
        var stop: Option<ParseResult>;
        if InStatusLine(state) {
          stop := ConsumeStatusLine(resp, c);
        } else if InHeaders(state) {
          stop := ConsumeHeaders(resp, c);
        } else {
          stop := ConsumeBody(resp, c);
        }
        if stop.Some? {
          return stop.value;
        }
      }
      return ParsingIncompleted;
    }

    method ConsumeStatusLine(resp: ResponseRef, input: char) returns (stop: Option<ParseResult>)
      requires InStatusLine(state)
      modifies this, resp
      ensures stop != Some(ParsingIncompleted)
      ensures Step(old(Snapshot(resp)), input) ==
              if stop == None then More(Snapshot(resp)) else Stop(stop.value, Snapshot(resp))
    {
      match state {
        case ResponseStatusStart =>
          if input != 'H' {
            return Some(ParsingError);
          }
          state := ResponseHttpVersion_ht;
        case ResponseHttpVersion_ht =>
          if input != 'T' {
            return Some(ParsingError);
          }
          state := ResponseHttpVersion_htt;
        case ResponseHttpVersion_htt =>
          if input != 'T' {
            return Some(ParsingError);
          }
          state := ResponseHttpVersion_http;
        case ResponseHttpVersion_http =>
          if input != 'P' {
            return Some(ParsingError);
          }
          state := ResponseHttpVersion_slash;
        case ResponseHttpVersion_slash =>
          if input != '/' {
            return Some(ParsingError);
          }
          resp.value := resp.value.(versionMajor := 0, versionMinor := 0);
          state := ResponseHttpVersion_majorStart;
        case ResponseHttpVersion_majorStart =>
          if !IsDigit(input) {
            return Some(ParsingError);
          }
          resp.value := resp.value.(versionMajor := input as int - '0' as int);
          state := ResponseHttpVersion_major;
        case ResponseHttpVersion_major =>
          if input == '.' {
            state := ResponseHttpVersion_minorStart;
          } else if IsDigit(input) {
            if resp.value.versionMajor * 10 + input as int > INT_MAX {
              return Some(ParsingAborted);
            }
            resp.value := resp.value.(versionMajor := resp.value.versionMajor * 10 + input as int - '0' as int);
          } else {
            return Some(ParsingError);
          }
        case ResponseHttpVersion_minorStart =>
          if !IsDigit(input) {
            return Some(ParsingError);
          }
          resp.value := resp.value.(versionMinor := input as int - '0' as int);
          state := ResponseHttpVersion_minor;
        case ResponseHttpVersion_minor =>
          if input == ' ' {
            state := ResponseHttpVersion_statusCodeStart;
            resp.value := resp.value.(statusCode := 0);
          } else if IsDigit(input) {
            if resp.value.versionMinor * 10 + input as int > INT_MAX {
              return Some(ParsingAborted);
            }
            resp.value := resp.value.(versionMinor := resp.value.versionMinor * 10 + input as int - '0' as int);
          } else {
            return Some(ParsingError);
          }
        case ResponseHttpVersion_statusCodeStart =>
          if !IsDigit(input) {
            return Some(ParsingError);
          }
          resp.value := resp.value.(statusCode := input as int - '0' as int);
          state := ResponseHttpVersion_statusCode;
        case ResponseHttpVersion_statusCode =>
          if IsDigit(input) {
            var code := (resp.value.statusCode * 10 + input as int - '0' as int) % UINT_SIZE;
            resp.value := resp.value.(statusCode := code);
          } else {
            if resp.value.statusCode < 100 || resp.value.statusCode > 999 {
              return Some(ParsingError);
            } else if input == ' ' {
              state := ResponseHttpVersion_statusTextStart;
            } else {
              return Some(ParsingError);
            }
          }
        case ResponseHttpVersion_statusTextStart =>
          if !IsChar(input) {
            return Some(ParsingError);
          }
          resp.value := resp.value.(status := resp.value.status + [input]);
          state := ResponseHttpVersion_statusText;
        case ResponseHttpVersion_statusText =>
          if input == '\r' {
            state := ResponseHttpVersion_newLine;
          } else if IsChar(input) {
            resp.value := resp.value.(status := resp.value.status + [input]);
          } else {
            return Some(ParsingError);
          }
        case ResponseHttpVersion_newLine =>
          if input != '\n' {
            return Some(ParsingError);
          }
          state := HeaderLineStart;
      }
      return None;
    }

    method ConsumeHeaders(resp: ResponseRef, input: char) returns (stop: Option<ParseResult>)
      requires InHeaders(state)
      modifies this, resp
      ensures stop != Some(ParsingIncompleted)
      ensures Step(old(Snapshot(resp)), input) ==
              if stop == None then More(Snapshot(resp)) else Stop(stop.value, Snapshot(resp))
    {
      var headers := resp.value.headers;
      var n := |headers| - 1;
      match state {
        case HeaderLineStart =>
          if input == '\r' {
            state := ExpectingNewline_3;
          } else if headers != [] && (input == ' ' || input == '\t') {
            state := HeaderLws;
          } else if !IsChar(input) || IsControl(input) || IsSpecial(input) {
            return Some(ParsingError);
          } else {
            resp.value := resp.value.(headers := headers + [Header([input], "")]);
            state := HeaderName;
          }
        case HeaderLws =>
          if input == '\r' {
            state := ExpectingNewline_2;
          } else if input == ' ' || input == '\t' {
          } else if IsControl(input) {
            return Some(ParsingError);
          } else {
            if headers == [] {
              return Some(ParsingAborted);
            }
            state := HeaderValue;
            resp.value := resp.value.(headers := headers[..n] + [headers[n].(value := headers[n].value + [input])]);
          }
        case HeaderName =>
          if input == ':' {
            state := SpaceBeforeHeaderValue;
          } else if !IsChar(input) || IsControl(input) || IsSpecial(input) {
            return Some(ParsingError);
          } else {
            if headers == [] {
              return Some(ParsingAborted);
            }
            resp.value := resp.value.(headers := headers[..n] + [headers[n].(name := headers[n].name + [input])]);
          }
        case SpaceBeforeHeaderValue =>
          if input != ' ' {
            return Some(ParsingError);
          }
          state := HeaderValue;
        case HeaderValue =>
          if input == '\r' {
            if headers == [] {
              return Some(ParsingAborted);
            }
            var h := headers[n];
            if EqualIgnoreCase(h.name, "Content-Length") {
              contentSize := ToSize(Atoi(h.value));
              if Atoi(h.value) < 0 {
                return Some(ParsingAborted);
              }
            } else if EqualIgnoreCase(h.name, "Transfer-Encoding") {
              if EqualIgnoreCase(h.value, "chunked") {
                chunked := true;
              }
            }
            state := ExpectingNewline_2;
          } else if IsControl(input) {
            return Some(ParsingError);
          } else {
            if headers == [] {
              return Some(ParsingAborted);
            }
            resp.value := resp.value.(headers := headers[..n] + [headers[n].(value := headers[n].value + [input])]);
          }
        case ExpectingNewline_2 =>
          if input != '\n' {
            return Some(ParsingError);
          }
          state := HeaderLineStart;
        case ExpectingNewline_3 =>
          match FirstConnection(headers) {
            case Some(h) =>
              if EqualIgnoreCase(h.value, "Keep-Alive") {
                resp.value := resp.value.(keepAlive := true);
              } else {
                resp.value := resp.value.(keepAlive := false);
              }
            case None =>
              if resp.value.versionMajor > 1 || (resp.value.versionMajor == 1 && resp.value.versionMinor == 1) {
                resp.value := resp.value.(keepAlive := true);
              }
          }
          if chunked {
            state := ChunkSize;
          } else if contentSize == 0 {
            return Some(if input == '\n' then ParsingCompleted else ParsingError);
          } else {
            state := Post;
          }
      }
      return None;
    }

    method ConsumeBody(resp: ResponseRef, input: char) returns (stop: Option<ParseResult>)
      requires !InStatusLine(state) && !InHeaders(state)
      modifies this, resp
      ensures stop != Some(ParsingIncompleted)
      ensures Step(old(Snapshot(resp)), input) ==
              if stop == None then More(Snapshot(resp)) else Stop(stop.value, Snapshot(resp))
    {
      match state {
        case Post =>
          contentSize := Decrement(contentSize);
          resp.value := resp.value.(content := resp.value.content + [input]);
          if contentSize == 0 {
            return Some(ParsingCompleted);
          }
        case ChunkSize =>
          if IsAlnum(input) {
            chunkSizeStr := chunkSizeStr + [input];
          } else if input == ';' {
            state := ChunkExtensionName;
          } else if input == '\r' {
            state := ChunkSizeNewLine;
          } else {
            return Some(ParsingError);
          }
        case ChunkExtensionName =>
          if IsAlnum(input) || input == ' ' {
          } else if input == '=' {
            state := ChunkExtensionValue;
          } else if input == '\r' {
            state := ChunkSizeNewLine;
          } else {
            return Some(ParsingError);
          }
        case ChunkExtensionValue =>
          if IsAlnum(input) || input == ' ' {
          } else if input == '\r' {
            state := ChunkSizeNewLine;
          } else {
            return Some(ParsingError);
          }
        case ChunkSizeNewLine =>
          if input != '\n' {
            return Some(ParsingError);
          }
          chunkSize := ToSize(Strtol(chunkSizeStr, 16));
          chunkSizeStr := "";
          if ToSize(|resp.value.content| + chunkSize) > LONG_MAX {
            return Some(ParsingAborted);
          }
          if chunkSize == 0 {
            state := ChunkSizeNewLine_2;
          } else {
            state := ChunkData;
          }
        case ChunkSizeNewLine_2 =>
          if input == '\r' {
            state := ChunkSizeNewLine_3;
          } else if IsAlpha(input) {
            state := ChunkTrailerName;
          } else {
            return Some(ParsingError);
          }
        case ChunkSizeNewLine_3 =>
          return Some(if input == '\n' then ParsingCompleted else ParsingError);
        case ChunkTrailerName =>
          if IsAlnum(input) {
          } else if input == ':' {
            state := ChunkTrailerValue;
          } else {
            return Some(ParsingError);
          }
        case ChunkTrailerValue =>
          if IsAlnum(input) || input == ' ' {
          } else if input == '\r' {
            state := ChunkSizeNewLine;
          } else {
            return Some(ParsingError);
          }
        case ChunkData =>
          resp.value := resp.value.(content := resp.value.content + [input]);
          chunkSize := Decrement(chunkSize);
          if chunkSize == 0 {
            state := ChunkDataNewLine_1;
          }
        case ChunkDataNewLine_1 =>
          if input != '\r' {
            return Some(ParsingError);
          }
          state := ChunkDataNewLine_2;
        case ChunkDataNewLine_2 =>
          if input != '\n' {
            return Some(ParsingError);
          }
          state := ChunkSize;
      }
      return None;
    }
  }
}
