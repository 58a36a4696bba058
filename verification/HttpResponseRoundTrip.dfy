/** The status line, and the parse/serialize fixpoint of responses. */
module HttpResponseRoundTrip {
  import opened Ascii
  import opened Numerals
  import opened HttpMessage
  import opened HttpResponseParser
  import opened HttpBisimulation
  import Req = HttpRequestParser
  import ReqInv = HttpRequestInvariant
  import ReqRuns = HttpRequestRuns
  import ReqTrip = HttpRequestRoundTrip

  /** Only the first byte of a reason may be a CR: statusTextStart does not look for one. */
  predicate StatusOk(status: string) {
    && status != ""
    && (forall i :: 0 <= i < |status| ==> IsChar(status[i]))
    && (forall i :: 1 <= i < |status| ==> status[i] != '\r')
  }

  predicate StatusDone(r: Response) {
    100 <= r.statusCode <= 999 && StatusOk(r.status)
  }

  predicate StatusLineInv(s: Config) {
    && s.contentSize == 0 && s.chunkSizeStr == "" && s.chunkSize == 0 && !s.chunked
    && s.resp.headers == [] && s.resp.content == "" && !s.resp.keepAlive
    && ReqInv.VersionOk(s.resp.versionMajor) && ReqInv.VersionOk(s.resp.versionMinor)
    && match s.state
       case ResponseHttpVersion_statusTextStart => 100 <= s.resp.statusCode <= 999 && s.resp.status == ""
       case ResponseHttpVersion_statusText => StatusDone(s.resp)
       case ResponseHttpVersion_newLine => StatusDone(s.resp)
       case _ => s.resp.status == ""
  }

  /** From the first header on, the request parser's invariant holds of the twin. */
  predicate Inv(s: Config) {
    if InStatusLine(s.state) then StatusLineInv(s)
    else StatusDone(s.resp) && ReqInv.Inv(Twin(s, "POST", "/"))
  }

  predicate ResponseRules(r: Response) {
    StatusDone(r) && ReqInv.RequestRules(TwinMessage(r, "POST", "/"))
  }

  predicate GoodVerdict(v: Verdict) {
    match v
    case More(t) => Inv(t)
    case Stop(result, last) => result == ParsingCompleted ==> ResponseRules(last.resp)
  }

  lemma StatusLineStep(s: Config, c: char)
    requires InStatusLine(s.state) && StatusLineInv(s)
    ensures GoodVerdict(Step(s, c))
  {
    hide StepHeaders, StepBody, ReqInv.BodyInv, Atoi, EqualIgnoreCase;
  }

  lemma {:induction false} ConsumeKeepsInv(s: Config, input: string)
    requires Inv(s)
    ensures GoodVerdict(Consume(s, input))
    decreases |input|
  {
    hide Step, StatusLineInv, StatusDone, ReqInv.RequestRules;
    if input != "" {
      if InStatusLine(s.state) {
        StatusLineStep(s, input[0]);
        match Step(s, input[0]) {
          case More(t) => ConsumeKeepsInv(t, input[1..]);
          case Stop(_, _) =>
        }
      } else {
        MessageKeepsInv(s, input);
      }
    }
  }

  lemma MessageKeepsInv(s: Config, input: string)
    requires !InStatusLine(s.state) && Inv(s)
    ensures GoodVerdict(Consume(s, input))
  {
    Bisimulation(s, "POST", "/", input);
    ReqInv.ConsumeKeepsInv(Twin(s, "POST", "/"), input);
    hide Consume, Req.Consume, ReqInv.Inv, ReqInv.RequestRules, StatusLineInv;
  }

  lemma {:induction false} ConsumeConcat(s: Config, a: string, b: string)
    ensures Consume(s, a + b) == match Consume(s, a)
                                 case More(t) => Consume(t, b)
                                 case Stop(result, last) => Stop(result, last)
    decreases |a|
  {
    if a == "" {
      assert a + b == b;
    } else {
      assert (a + b)[0] == a[0] && (a + b)[1..] == a[1..] + b;
      match Step(s, a[0]) {
        case More(t) => ConsumeConcat(t, a[1..], b);
        case Stop(_, _) =>
      }
    }
  }

  lemma RunThenRun(s: Config, a: string, t: Config, b: string, u: Config)
    requires Consume(s, a) == More(t) && Consume(t, b) == More(u)
    ensures Consume(s, a + b) == More(u)
  {
    ConsumeConcat(s, a, b);
  }

  lemma OneByte(s: Config, c: char)
    ensures Consume(s, [c]) == Step(s, c)
  {
    assert [c][1..] == "";
    match Step(s, c) {
      case More(t) => assert Consume(t, [c][1..]) == More(t);
      case Stop(_, _) =>
    }
  }

  lemma TwoBytes(s: Config, c: char, t: Config, d: char)
    requires Step(s, c) == More(t)
    ensures Consume(s, [c, d]) == Step(t, d)
  {
    OneByte(s, c);
    OneByte(t, d);
    ConsumeConcat(s, [c], [d]);
    assert [c] + [d] == [c, d];
  }

  lemma HttpSlashRun()
    ensures Consume(Fresh, "HTTP/") == More(Fresh.(state := ResponseHttpVersion_majorStart))
  {
    TwoBytes(Fresh, 'H', Fresh.(state := ResponseHttpVersion_ht), 'T');
    TwoBytes(Fresh.(state := ResponseHttpVersion_htt), 'T', Fresh.(state := ResponseHttpVersion_http), 'P');
    OneByte(Fresh.(state := ResponseHttpVersion_slash), '/');
    hide Consume, Step;
    RunThenRun(Fresh, "HT", Fresh.(state := ResponseHttpVersion_htt), "TP", Fresh.(state := ResponseHttpVersion_slash));
    assert "HT" + "TP" == "HTTP";
    RunThenRun(Fresh, "HTTP", Fresh.(state := ResponseHttpVersion_slash), "/",
               Fresh.(state := ResponseHttpVersion_majorStart));
    assert "HTTP" + "/" == "HTTP/";
  }

  lemma {:induction false} MajorRun(s: Config, digits: string)
    requires s.state == ResponseHttpVersion_majorStart
    requires digits != "" && forall i :: 0 <= i < |digits| ==> IsDigit(digits[i])
    requires ReqInv.VersionOk(Value(digits, 10))
    ensures Consume(s, digits) ==
            More(s.(state := ResponseHttpVersion_major, resp := s.resp.(versionMajor := Value(digits, 10))))
    decreases |digits|
  {
    hide StepHeaders, StepBody;
    var n := |digits| - 1;
    var front, last := digits[..n], digits[n];
    assert digits == front + [last];
    if front == "" {
      OneByte(s, last);
      assert digits == [last];
    } else {
      MajorRun(s, front);
      ConsumeConcat(s, front, [last]);
      OneByte(Consume(s, front).next, last);
    }
  }

  lemma {:induction false} MinorRun(s: Config, digits: string)
    requires s.state == ResponseHttpVersion_minorStart
    requires digits != "" && forall i :: 0 <= i < |digits| ==> IsDigit(digits[i])
    requires ReqInv.VersionOk(Value(digits, 10))
    ensures Consume(s, digits) ==
            More(s.(state := ResponseHttpVersion_minor, resp := s.resp.(versionMinor := Value(digits, 10))))
    decreases |digits|
  {
    hide StepHeaders, StepBody;
    var n := |digits| - 1;
    var front, last := digits[..n], digits[n];
    assert digits == front + [last];
    if front == "" {
      OneByte(s, last);
      assert digits == [last];
    } else {
      MinorRun(s, front);
      ConsumeConcat(s, front, [last]);
      OneByte(Consume(s, front).next, last);
    }
  }

  /** The accumulator after one more digit. */
  function NextCode(code: nat, digit: char): nat
    requires IsDigit(digit)
  {
    (code * 10 + DigitValue(digit)) % UINT_SIZE
  }

  lemma StatusDigitStep(s: Config, c: char)
    requires IsDigit(c)
    ensures s.state == ResponseHttpVersion_statusCodeStart ==>
              Step(s, c) == More(s.(state := ResponseHttpVersion_statusCode,
                                    resp := s.resp.(statusCode := NextCode(0, c))))
    ensures s.state == ResponseHttpVersion_statusCode ==>
              Step(s, c) == More(s.(resp := s.resp.(statusCode := NextCode(s.resp.statusCode, c))))
  {
    hide StepHeaders, StepBody;
  }

  lemma WrapStep(v: nat, d: nat)
    ensures (v % UINT_SIZE * 10 + d) % UINT_SIZE == (v * 10 + d) % UINT_SIZE
  {
    var q, m := v / UINT_SIZE, v % UINT_SIZE;
    assert v * 10 + d == m * 10 + d + q * 10 * UINT_SIZE;
    AddMultiple(m * 10 + d, q * 10);
  }

  lemma {:induction false} AddMultiple(x: nat, k: nat)
    ensures (x + k * UINT_SIZE) % UINT_SIZE == x % UINT_SIZE
  {
    if k > 0 {
      AddMultiple(x, k - 1);
      assert x + k * UINT_SIZE == x + (k - 1) * UINT_SIZE + UINT_SIZE;
    }
  }

  lemma CodeOfDigits(front: string, last: char)
    requires IsDigit(last)
    ensures Value(front + [last], 10) % UINT_SIZE == NextCode(Value(front, 10) % UINT_SIZE, last)
  {
    assert (front + [last])[..|front|] == front;
    WrapStep(Value(front, 10), DigitValue(last));
  }

  /** The accumulator holds the decimal reading modulo 2^32, whatever the number of digits. */
  lemma {:induction false} StatusCodeRun(s: Config, digits: string)
    requires s.state == ResponseHttpVersion_statusCodeStart
    requires digits != "" && forall i :: 0 <= i < |digits| ==> IsDigit(digits[i])
    ensures Consume(s, digits) ==
            More(s.(state := ResponseHttpVersion_statusCode,
                    resp := s.resp.(statusCode := Value(digits, 10) % UINT_SIZE)))
    decreases |digits|
  {
    hide Consume, Step, NextCode, DigitValue;
    var n := |digits| - 1;
    var front, last := digits[..n], digits[n];
    assert digits == front + [last];
    CodeOfDigits(front, last);
    if front == "" {
      assert Value(front, 10) % UINT_SIZE == 0;
      hide Value;
      StatusDigitStep(s, last);
      OneByte(s, last);
      assert digits == [last];
    } else {
      hide Value;
      StatusCodeRun(s, front);
      ConsumeConcat(s, front, [last]);
      var t := Consume(s, front).next;
      StatusDigitStep(t, last);
      OneByte(t, last);
    }
  }

  /** Which digit strings pass as a status code: those whose reading modulo 2^32 has three digits. */
  lemma StatusCodeAccepted(s: Config, digits: string)
    requires s.state == ResponseHttpVersion_statusCodeStart
    requires digits != "" && forall i :: 0 <= i < |digits| ==> IsDigit(digits[i])
    ensures Consume(s, digits + " ").More? <==> 100 <= Value(digits, 10) % 0x1_0000_0000 <= 999
    ensures Consume(s, digits + " ").More? ==>
              Consume(s, digits + " ") ==
              More(s.(state := ResponseHttpVersion_statusTextStart,
                      resp := s.resp.(statusCode := Value(digits, 10) % 0x1_0000_0000)))
  {
    hide StepHeaders, StepBody, Value;
    StatusCodeRun(s, digits);
    ConsumeConcat(s, digits, " ");
    OneByte(Consume(s, digits).next, ' ');
  }

  lemma {:induction false} StatusTextRun(s: Config, text: string)
    requires s.state == ResponseHttpVersion_statusText
    requires forall i :: 0 <= i < |text| ==> IsChar(text[i]) && text[i] != '\r'
    ensures Consume(s, text) == More(s.(resp := s.resp.(status := s.resp.status + text)))
    decreases |text|
  {
    if text == "" {
      assert s.resp.status + text == s.resp.status;
    } else {
      StatusTextRun(Step(s, text[0]).next, text[1..]);
      assert s.resp.status + [text[0]] + text[1..] == s.resp.status + text;
    }
  }

  lemma StatusEndRun(s: Config)
    requires s.state == ResponseHttpVersion_statusText
    ensures Consume(s, "\r\n") == More(s.(state := HeaderLineStart))
  {
    hide StepHeaders, StepBody, Consume;
    TwoBytes(s, '\r', s.(state := ResponseHttpVersion_newLine), '\n');
  }

  lemma StatusRun(s: Config, status: string)
    requires s.state == ResponseHttpVersion_statusTextStart && s.resp.status == "" && StatusOk(status)
    ensures Consume(s, status + "\r\n") == More(s.(state := HeaderLineStart, resp := s.resp.(status := status)))
  {
    hide StepHeaders, StepBody;
    var s1 := s.(state := ResponseHttpVersion_statusText, resp := s.resp.(status := [status[0]]));
    assert "" + [status[0]] == [status[0]];
    OneByte(s, status[0]);
    StatusTextRun(s1, status[1..]);
    assert [status[0]] + status[1..] == status;
    var s2 := s1.(resp := s.resp.(status := status));
    StatusEndRun(s2);
    hide Consume, Step;
    RunThenRun(s, [status[0]], s1, status[1..], s2);
    RunThenRun(s, status, s2, "\r\n", s2.(state := HeaderLineStart));
  }

  function PrintVersion(r: Response): string {
    "HTTP/" + Print(r.versionMajor, 10) + "." + Print(r.versionMinor, 10) + " "
  }

  function PrintStatusLine(r: Response): string {
    PrintVersion(r) + (Print(r.statusCode, 10) + " ") + (r.status + "\r\n")
  }

  /** The canonical form of a response. */
  function PrintResponse(r: Response): string {
    PrintStatusLine(r) + ReqTrip.PrintMessage(SaysChunked(r.headers), r.headers, r.content)
  }

  function LineRead(r: Response): Config {
    Config(HeaderLineStart, 0, "", 0, false, r.(headers := [], content := "", keepAlive := false))
  }

  lemma MajorEndRun(s: Config)
    requires s.state == ResponseHttpVersion_major
    ensures Consume(s, ".") == More(s.(state := ResponseHttpVersion_minorStart))
  {
    OneByte(s, '.');
  }

  lemma MinorEndRun(s: Config)
    requires s.state == ResponseHttpVersion_minor && s.resp.statusCode == 0
    ensures Consume(s, " ") == More(s.(state := ResponseHttpVersion_statusCodeStart))
  {
    OneByte(s, ' ');
  }

  lemma VersionRun(r: Response)
    requires ReqInv.VersionOk(r.versionMajor) && ReqInv.VersionOk(r.versionMinor)
    ensures Consume(Fresh, PrintVersion(r)) ==
            More(Fresh.(state := ResponseHttpVersion_statusCodeStart,
                        resp := FreshResponse.(versionMajor := r.versionMajor, versionMinor := r.versionMinor)))
  {
    hide Consume, Step, Print;
    var major, minor := Print(r.versionMajor, 10), Print(r.versionMinor, 10);
    PrintIsDigits(r.versionMajor, 10);
    PrintIsDigits(r.versionMinor, 10);
    HttpSlashRun();
    var s0 := Fresh.(state := ResponseHttpVersion_majorStart);
    MajorRun(s0, major);
    var s1 := s0.(state := ResponseHttpVersion_major, resp := FreshResponse.(versionMajor := r.versionMajor));
    MajorEndRun(s1);
    var s2 := s1.(state := ResponseHttpVersion_minorStart);
    MinorRun(s2, minor);
    var s3 := s2.(state := ResponseHttpVersion_minor, resp := s1.resp.(versionMinor := r.versionMinor));
    MinorEndRun(s3);
    RunThenRun(Fresh, "HTTP/", s0, major, s1);
    RunThenRun(Fresh, "HTTP/" + major, s1, ".", s2);
    RunThenRun(Fresh, "HTTP/" + major + ".", s2, minor, s3);
    RunThenRun(Fresh, "HTTP/" + major + "." + minor, s3, " ", s3.(state := ResponseHttpVersion_statusCodeStart));
  }

  /** Every status line of the rules round-trips through print and parse. */
  lemma StatusLineRun(r: Response)
    requires ReqInv.VersionOk(r.versionMajor) && ReqInv.VersionOk(r.versionMinor) && StatusDone(r)
    ensures Consume(Fresh, PrintStatusLine(r)) == More(LineRead(r))
  {
    VersionRun(r);
    PrintIsDigits(r.statusCode, 10);
    hide Consume, Step, Print, PrintVersion, StatusOk, ReqInv.VersionOk;
    var s1 := Fresh.(state := ResponseHttpVersion_statusCodeStart,
                     resp := FreshResponse.(versionMajor := r.versionMajor, versionMinor := r.versionMinor));
    StatusCodeAccepted(s1, Print(r.statusCode, 10));
    var s2 := s1.(state := ResponseHttpVersion_statusTextStart, resp := s1.resp.(statusCode := r.statusCode));
    RunThenRun(Fresh, PrintVersion(r), s1, Print(r.statusCode, 10) + " ", s2);
    StatusRun(s2, r.status);
    RunThenRun(Fresh, PrintVersion(r) + (Print(r.statusCode, 10) + " "), s2, r.status + "\r\n", LineRead(r));
  }

  predicate Completes(input: string, r: Response) {
    var v := Consume(Fresh, input);
    v.Stop? && v.result == ParsingCompleted && v.last.resp == r
  }

  predicate Framed(r: Response) {
    SaysChunked(r.headers) || ContentLength(r.headers) == |r.content|
  }

  lemma PrintedResponseCompletes(r: Response)
    requires ResponseRules(r) && Framed(r)
    ensures Completes(PrintResponse(r), r)
  {
    hide Consume, Req.Consume, PrintStatusLine, ReqTrip.PrintMessage, SaysChunked, LengthsOk, KeepsAlive, ContentLength,
         MayHaveSaidChunked, HeadersOk, ReqRuns.CompletesExactly;
    StatusLineRun(r);
    var message := ReqTrip.PrintMessage(SaysChunked(r.headers), r.headers, r.content);
    ConsumeConcat(Fresh, PrintStatusLine(r), message);
    var s := LineRead(r);
    var last := ReqTrip.MessageRun(Twin(s, "POST", "/"), r.headers, r.content);
    ExactlyCompletes(Twin(s, "POST", "/"), message, last);
    Bisimulation(s, "POST", "/", message);
  }

  lemma ExactlyCompletes(s: Req.Config, input: string, last: Req.Config)
    requires ReqRuns.CompletesExactly(s, input, last)
    ensures Req.Consume(s, input) == Req.Stop(ParsingCompleted, last)
  {
  }

  /** The parse/serialize fixpoint for every byte string a fresh response parser completes. */
  lemma ResponseFixpoint(input: string, r: Response)
    requires Completes(input, r)
    ensures ResponseRules(r)
    ensures Completes(PrintResponse(r), r) <==> Framed(r)
  {
    ConsumeKeepsInv(Fresh, input);
    hide Consume, Req.Consume, PrintStatusLine, ReqTrip.PrintMessage, SaysChunked, LengthsOk, KeepsAlive, ContentLength,
         MayHaveSaidChunked, HeadersOk;
    if Framed(r) {
      PrintedResponseCompletes(r);
    } else {
      StatusLineRun(r);
      var message := ReqTrip.PrintMessage(false, r.headers, r.content);
      ConsumeConcat(Fresh, PrintStatusLine(r), message);
      ReqTrip.WrongLength(Twin(LineRead(r), "POST", "/"), r.headers, r.content);
      Bisimulation(LineRead(r), "POST", "/", message);
    }
  }
}
