/**
  Which strings fail the assertion after the scanner's loop: those in which the digits of a port are followed by the
  end of the string, or by a byte that cannot follow them. They are written here as a grammar.
 */
module UrlFailures {
  import opened Ascii
  import opened Numerals
  import opened UrlParser
  import opened UrlNormalForm
  import opened Options

  /** A user info without a password is just a name; a password with digits only would be taken for a port. */
  datatype UserInfo = Nobody | Somebody(name: string, password: string)

  datatype UnfinishedPort = UnfinishedPort(
    scheme: string,
    slashes: bool,
    user: UserInfo,
    host: string,
    digits: string,
    rest: string)

  /** The name that follows the scheme: the user's, or else the host's. */
  function FirstName(u: UnfinishedPort): string {
    match u.user
    case Nobody => u.host
    case Somebody(name, _) => name
  }

  /** Digits that might still belong to a password can be followed by more bytes than those of a port. */
  predicate EndsDigits(c: char, user: UserInfo) {
    && !IsDigit(c)
    && c != '/'
    && (user == Nobody ==> !IsAlnum(c) && c != '%')
  }

  predicate UserOk(user: UserInfo) {
    match user
    case Nobody => true
    case Somebody(name, password) => NameOk(name) && PasswordOk(password)
  }

  /** The two slashes may be missing before a name that starts with an alphanumeric. */
  predicate OpeningOk(slashes: bool, name: string) {
    slashes || (name != "" && IsAlnum(name[0]))
  }

  predicate UnfinishedOk(u: UnfinishedPort) {
    && SchemeOk(u.scheme)
    && OpeningOk(u.slashes, FirstName(u))
    && UserOk(u.user)
    && NameOk(u.host)
    && u.digits != "" && AllDecimal(u.digits)
    && (u.rest == "" || EndsDigits(u.rest[0], u.user))
  }

  function Opening(scheme: string, slashes: bool): string {
    scheme + if slashes then "://" else ":"
  }

  function PrintUser(user: UserInfo): string {
    match user
    case Nobody => ""
    case Somebody(name, password) => name + UserEnd(password)
  }

  function PrintUnfinished(u: UnfinishedPort): string {
    Opening(u.scheme, u.slashes) + PrintUser(u.user) + u.host + ":" + u.digits + u.rest
  }

  lemma OpeningRun(scheme: string, slashes: bool, name: string)
    requires SchemeOk(scheme) && NameOk(name) && OpeningOk(slashes, name)
    ensures ScanAll(Start, Opening(scheme, slashes) + name) == Some(AfterScheme(scheme).(usernameOrHostname := name))
  {
    hide ScanAll, SchemeOk;
    var s := AfterScheme(scheme);
    var t := s.(usernameOrHostname := name);
    if slashes {
      SchemeEndRun(scheme);
      NameRun(s, name);
      assert "" + name == name;
      ScanThenScan(Start, scheme + "://", s, name, t);
    } else {
      SchemeRun(Start, scheme);
      assert "" + scheme == scheme;
      var s1 := Start.(url := Start.url.(scheme := scheme));
      var s2 := s1.(state := SlashAfterScheme1);
      var s3 := s.(usernameOrHostname := [name[0]]);
      OneChar(s1, ':');
      OneChar(s2, name[0]);
      NameRun(s3, name[1..]);
      assert [name[0]] + name[1..] == name;
      ScanThenScan(Start, scheme, s1, ":", s2);
      ScanThenScan(s2, [name[0]], s3, name[1..], t);
      ScanThenScan(Start, scheme + ":", s2, name, t);
    }
  }

  /** The scan at the colon before the digits. */
  function AtColon(u: UnfinishedPort): Scan {
    match u.user
    case Nobody => AfterScheme(u.scheme).(usernameOrHostname := u.host)
    case Somebody(name, password) =>
      var s := AfterUser(u.scheme, name, password);
      s.(url := s.url.(hostname := u.host))
  }

  lemma HostRun(u: UnfinishedPort)
    requires UnfinishedOk(u)
    ensures ScanAll(Start, Opening(u.scheme, u.slashes) + PrintUser(u.user) + u.host) == Some(AtColon(u))
  {
    hide ScanAll, Step, Opening, UserEnd;
    var start := Opening(u.scheme, u.slashes);
    OpeningRun(u.scheme, u.slashes, FirstName(u));
    match u.user {
      case Nobody => assert start + "" + u.host == start + u.host;
      case Somebody(name, password) =>
        var s := AfterUser(u.scheme, name, password);
        UserEndRun(u.scheme, name, password);
        ScanThenScan(Start, start + name, AfterScheme(u.scheme).(usernameOrHostname := name), UserEnd(password), s);
        HostnameRun(s, u.host);
        assert "" + u.host == u.host;
        ScanThenScan(Start, start + name + UserEnd(password), s, u.host, AtColon(u));
        assert start + name + UserEnd(password) == start + PrintUser(u.user);
    }
  }

  lemma ColonRun(u: UnfinishedPort)
    ensures ScanAll(AtColon(u), ":") == Some(AtColon(u).(state := if u.user == Nobody then PortOrPassword else Port))
  {
    OneChar(AtColon(u), ':');
  }

  /** The rest is empty or is rejected at its first byte: the digits stay where they are. */
  lemma RestRun(s: Scan, user: UserInfo, rest: string)
    requires s.valid && s.state == if user == Nobody then PortOrPassword else Port
    requires rest == "" || EndsDigits(rest[0], user)
    ensures ScanAll(s, rest).Some? && ScanAll(s, rest).value.portOrPassword == s.portOrPassword
  {
    if rest != "" {
      var t := Step(s, rest[0]).value;
      assert ScanAll(t, rest[1..]) == Some(t);
    }
  }

  /** Every string of the grammar fails the assertion. */
  lemma UnfinishedPortFails(u: UnfinishedPort)
    requires UnfinishedOk(u)
    ensures Parse(PrintUnfinished(u)) == AssertionFailed
  {
    hide ScanAll, Step, Opening, PrintUser, NameOk, SchemeOk;
    HostRun(u);
    ColonRun(u);
    var s1 := AtColon(u).(state := if u.user == Nobody then PortOrPassword else Port);
    DigitsRun(s1, u.digits);
    assert "" + u.digits == u.digits;
    var s2 := s1.(portOrPassword := u.digits);
    RestRun(s2, u.user, u.rest);
    var start := Opening(u.scheme, u.slashes) + PrintUser(u.user) + u.host;
    ScanThenScan(Start, start, AtColon(u), ":", s1);
    ScanThenScan(Start, start + ":", s1, u.digits, s2);
    ScanThenScan(Start, start + ":" + u.digits, s2, u.rest, ScanAll(s2, u.rest).value);
  }

  predicate BeforePath(state: State) {
    state !in {IPV6Hostname, Path, Query, Fragment}
  }

  /** The name that follows the scheme, as far as it has been read. */
  function NameRead(s: Scan): string {
    if s.state in {UsernameOrHostname, PortOrPassword} then s.usernameOrHostname else s.url.username
  }

  /** What a scan has read is what it holds, but for the two slashes. */
  function TextRead(s: Scan, slashes: bool): string
    requires BeforePath(s.state)
  {
    var start := Opening(s.url.scheme, slashes);
    var host := start + (s.url.username + UserEnd(s.url.password)) + s.url.hostname;
    match s.state
    case Scheme => s.url.scheme
    case SlashAfterScheme1 => s.url.scheme + ":"
    case SlashAfterScheme2 => s.url.scheme + ":/"
    case UsernameOrHostname => start + s.usernameOrHostname
    case PortOrPassword => start + s.usernameOrHostname + ":" + s.portOrPassword
    case Password => start + s.url.username + ":" + s.url.password
    case Hostname => host
    case Port => host + ":" + s.portOrPassword
  }

  predicate SlashesOk(s: Scan, slashes: bool) {
    s.state in {Scheme, SlashAfterScheme1} || OpeningOk(slashes, NameRead(s))
  }

  predicate ReadsOn(s: Scan, slashes: bool, t: Scan, now: bool, c: char)
    requires BeforePath(s.state) && BeforePath(t.state)
  {
    SlashesOk(t, now) && TextRead(t, now) == TextRead(s, slashes) + [c]
  }

  lemma OpeningReadStep(s: Scan, slashes: bool, c: char)
    requires s.valid && Inv(s) && SlashesOk(s, slashes)
    requires s.state in {Scheme, SlashAfterScheme1, SlashAfterScheme2}
    requires Step(s, c).Some? && Step(s, c).value.valid
    ensures BeforePath(Step(s, c).value.state)
    ensures ReadsOn(s, slashes, Step(s, c).value, if s.state == SlashAfterScheme1 then c == '/' else slashes, c)
  {
    hide Atoi, NameOk, SchemeOk, AllDecimal, PasswordOk, UserEnd;
  }

  lemma NameReadStep(s: Scan, slashes: bool, c: char)
    requires s.valid && Inv(s) && SlashesOk(s, slashes) && s.state in {UsernameOrHostname, PortOrPassword}
    requires Step(s, c).Some? && Step(s, c).value.valid && BeforePath(Step(s, c).value.state)
    ensures ReadsOn(s, slashes, Step(s, c).value, slashes, c)
  {
    hide Atoi, NameOk, SchemeOk, AllDecimal, PasswordOk, Opening;
    var start := Opening(s.url.scheme, slashes);
    if s.state == UsernameOrHostname && c == '@' {
      assert start + (s.usernameOrHostname + "@") + "" == start + s.usernameOrHostname + "@";
    }
  }

  lemma HostReadStep(s: Scan, slashes: bool, c: char)
    requires s.valid && Inv(s) && SlashesOk(s, slashes) && s.state in {Password, Hostname, Port}
    requires Step(s, c).Some? && Step(s, c).value.valid && BeforePath(Step(s, c).value.state)
    ensures ReadsOn(s, slashes, Step(s, c).value, slashes, c)
  {
    hide Atoi, NameOk, SchemeOk, AllDecimal, PasswordOk, Opening;
    var start := Opening(s.url.scheme, slashes);
    if s.state == Password && c == '@' {
      assert start + (s.url.username + (":" + s.url.password + "@")) + "" ==
             start + s.url.username + ":" + s.url.password + "@";
    }
  }

  lemma TextReadStep(s: Scan, slashes: bool, c: char) returns (now: bool)
    requires s.valid && Inv(s) && BeforePath(s.state) && SlashesOk(s, slashes)
    requires Step(s, c).Some? && Step(s, c).value.valid && BeforePath(Step(s, c).value.state)
    ensures ReadsOn(s, slashes, Step(s, c).value, now, c)
  {
    hide Inv, Step, ReadsOn, SlashesOk;
    now := if s.state == SlashAfterScheme1 then c == '/' else slashes;
    if s.state in {UsernameOrHostname, PortOrPassword} {
      NameReadStep(s, slashes, c);
    } else if s.state in {Password, Hostname, Port} {
      HostReadStep(s, slashes, c);
    } else {
      OpeningReadStep(s, slashes, c);
    }
  }

  lemma {:induction false} NothingPendingAfterPort(s: Scan, str: string)
    requires s.state in {Path, Query, Fragment} && s.portOrPassword == ""
    ensures ScanAll(s, str).Some? && ScanAll(s, str).value.portOrPassword == ""
    decreases |str|
  {
    if str != "" && s.valid {
      NothingPendingAfterPort(Step(s, str[0]).value, str[1..]);
    }
  }

  /** The scan as a string of the grammar, with the rest still to be read. */
  function Unfinished(s: Scan, slashes: bool, rest: string): UnfinishedPort {
    if s.state == PortOrPassword
    then UnfinishedPort(s.url.scheme, slashes, Nobody, s.usernameOrHostname, s.portOrPassword, rest)
    else UnfinishedPort(s.url.scheme, slashes, Somebody(s.url.username, s.url.password), s.url.hostname,
                        s.portOrPassword, rest)
  }

  lemma UnfinishedHere(s: Scan, slashes: bool, rest: string)
    requires s.valid && Inv(s) && s.state in {PortOrPassword, Port} && SlashesOk(s, slashes) && s.portOrPassword != ""
    requires rest != "" ==> Step(s, rest[0]) == Some(Reject(s))
    ensures UnfinishedOk(Unfinished(s, slashes, rest))
    ensures PrintUnfinished(Unfinished(s, slashes, rest)) == TextRead(s, slashes) + rest
  {
    hide Atoi, NameOk, SchemeOk, AllDecimal, PasswordOk;
  }

  /** The converse: digits are still pending at the end only after a string of the grammar. */
  lemma {:induction false} PendingIsUnfinished(s: Scan, slashes: bool, rest: string) returns (u: UnfinishedPort)
    requires s.valid && Inv(s) && BeforePath(s.state) && SlashesOk(s, slashes)
    requires ScanAll(s, rest).Some? && ScanAll(s, rest).value.portOrPassword != ""
    ensures UnfinishedOk(u) && PrintUnfinished(u) == TextRead(s, slashes) + rest
    decreases |rest|
  {
    hide Inv, TextRead, UnfinishedOk, PrintUnfinished;
    ScanKeepsInv(s, rest);
    if rest == "" {
      AtTheEnd(s);
      UnfinishedHere(s, slashes, rest);
      u := Unfinished(s, slashes, rest);
    } else {
      StepKeepsInv(s, rest[0]);
      var t := Step(s, rest[0]).value;
      if !t.valid {
        RejectsPending(s, rest);
        UnfinishedHere(s, slashes, rest);
        u := Unfinished(s, slashes, rest);
      } else if BeforePath(t.state) {
        var now := TextReadStep(s, slashes, rest[0]);
        u := PendingIsUnfinished(t, now, rest[1..]);
        assert [rest[0]] + rest[1..] == rest;
      } else {
        LeavesNothing(s, rest);
        assert false;
      }
    }
  }

  lemma AtTheEnd(s: Scan)
    requires s.valid && Inv(s) && s.portOrPassword != ""
    ensures s.state in {PortOrPassword, Port}
  {
  }

  lemma RejectsPending(s: Scan, rest: string)
    requires s.valid && Inv(s) && rest != "" && Step(s, rest[0]).Some? && !Step(s, rest[0]).value.valid
    requires ScanAll(s, rest).Some? && ScanAll(s, rest).value.portOrPassword != ""
    ensures s.state in {PortOrPassword, Port} && s.portOrPassword != "" && Step(s, rest[0]) == Some(Reject(s))
  {
  }

  lemma LeavesNothing(s: Scan, rest: string)
    requires s.valid && Inv(s) && BeforePath(s.state) && rest != ""
    requires Step(s, rest[0]).Some? && Step(s, rest[0]).value.valid && !BeforePath(Step(s, rest[0]).value.state)
    ensures ScanAll(s, rest).Some? ==> ScanAll(s, rest).value.portOrPassword == ""
  {
    hide Atoi;
    var t := Step(s, rest[0]).value;
    if t.state == IPV6Hostname {
      assert rest[1..] != "" ==> ScanAll(t, rest[1..]) == None;
    } else {
      NothingPendingAfterPort(t, rest[1..]);
    }
  }

  /** A string fails the assertion exactly if it is one of the grammar. */
  lemma AssertionFailsExactly(str: string)
    ensures Parse(str) == AssertionFailed <==> exists u :: UnfinishedOk(u) && str == PrintUnfinished(u)
  {
    if Parse(str) == AssertionFailed {
      var u := PendingIsUnfinished(Start, true, str);
      assert TextRead(Start, true) + str == str;
    }
    forall u | UnfinishedOk(u) && str == PrintUnfinished(u) ensures Parse(str) == AssertionFailed {
      UnfinishedPortFails(u);
    }
  }

  /** A bracket at the start of the host, after a user info, with anything after it. */
  datatype Bracketed = Bracketed(scheme: string, slashes: bool, name: string, password: string, rest: string)

  predicate BracketedOk(b: Bracketed) {
    SchemeOk(b.scheme) && OpeningOk(b.slashes, b.name) && NameOk(b.name) && PasswordOk(b.password) && b.rest != ""
  }

  function PrintBracketed(b: Bracketed): string {
    Opening(b.scheme, b.slashes) + (b.name + UserEnd(b.password)) + "[" + b.rest
  }

  lemma BracketRun(s: Scan, rest: string)
    requires s.valid && s.state == Hostname && s.url.hostname == "" && rest != ""
    ensures ScanAll(s, "[" + rest) == None
  {
    var t := s.(state := IPV6Hostname);
    OneChar(s, '[');
    ScanConcat(s, "[", rest);
    assert ScanAll(t, rest) == None;
  }

  lemma BracketedAborts(b: Bracketed)
    requires BracketedOk(b)
    ensures Parse(PrintBracketed(b)) == Aborted
  {
    hide ScanAll, Step, Opening, NameOk, SchemeOk, PasswordOk, UserEnd;
    var start, s := Opening(b.scheme, b.slashes), AfterUser(b.scheme, b.name, b.password);
    OpeningRun(b.scheme, b.slashes, b.name);
    UserEndRun(b.scheme, b.name, b.password);
    ScanThenScan(Start, start + b.name, AfterScheme(b.scheme).(usernameOrHostname := b.name), UserEnd(b.password), s);
    BracketRun(s, b.rest);
    ScanConcat(Start, start + b.name + UserEnd(b.password), "[" + b.rest);
    assert start + b.name + UserEnd(b.password) + ("[" + b.rest) == PrintBracketed(b);
  }

  lemma AbortsHere(s: Scan, slashes: bool, rest: string)
    requires s.valid && Inv(s) && BeforePath(s.state) && SlashesOk(s, slashes) && rest != ""
    requires Step(s, rest[0]).Some? && !BeforePath(Step(s, rest[0]).value.state) && ScanAll(s, rest) == None
    ensures
      var b := Bracketed(s.url.scheme, slashes, s.url.username, s.url.password, rest[1..]);
      BracketedOk(b) && PrintBracketed(b) == TextRead(s, slashes) + rest
  {
    hide Atoi, NameOk, SchemeOk, AllDecimal, PasswordOk, UserEnd, Opening;
    var t := Step(s, rest[0]).value;
    if t.state == IPV6Hostname {
      assert rest == "[" + rest[1..];
      assert s.url.hostname == "";
    } else {
      NothingPendingAfterPort(t, rest[1..]);
      assert false;
    }
  }

  lemma {:induction false} AbortIsBracketed(s: Scan, slashes: bool, rest: string) returns (b: Bracketed)
    requires s.valid && Inv(s) && BeforePath(s.state) && SlashesOk(s, slashes)
    requires ScanAll(s, rest) == None
    ensures BracketedOk(b) && PrintBracketed(b) == TextRead(s, slashes) + rest
    decreases |rest|
  {
    hide Inv, TextRead, BracketedOk, PrintBracketed;
    StepKeepsInv(s, rest[0]);
    var t := Step(s, rest[0]).value;
    if t.valid && BeforePath(t.state) {
      var now := TextReadStep(s, slashes, rest[0]);
      b := AbortIsBracketed(t, now, rest[1..]);
      assert [rest[0]] + rest[1..] == rest;
    } else {
      AbortsHere(s, slashes, rest);
      b := Bracketed(s.url.scheme, slashes, s.url.username, s.url.password, rest[1..]);
    }
  }

  /** And a string aborts exactly if a bracket opens the host after a user info and is not the last byte. */
  lemma AbortsExactly(str: string)
    ensures Parse(str) == Aborted <==> exists b :: BracketedOk(b) && str == PrintBracketed(b)
  {
    if Parse(str) == Aborted {
      var b := AbortIsBracketed(Start, true, str);
      assert TextRead(Start, true) + str == str;
    }
    forall b | BracketedOk(b) && str == PrintBracketed(b) ensures Parse(str) == Aborted {
      BracketedAborts(b);
    }
  }
}
