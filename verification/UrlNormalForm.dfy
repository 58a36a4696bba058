/** Which URLs the scanner can produce, and that printing one and scanning it again gives it back. */
module UrlNormalForm {
  import opened Ascii
  import opened Numerals
  import opened Options
  import opened UrlParser

  predicate SchemeOk(s: string) {
    forall i :: 0 <= i < |s| ==> IsAlnum(s[i]) || s[i] in {'+', '-', '.'}
  }

  predicate NameOk(s: string) {
    forall i :: 0 <= i < |s| ==> IsUnreserved(s[i]) || s[i] == '%'
  }

  predicate AllDecimal(s: string) {
    forall i :: 0 <= i < |s| ==> IsDigit(s[i])
  }

  /** A password is empty or holds a byte that is no digit: digits alone are taken for a port. */
  predicate PasswordOk(s: string) {
    && (forall i :: 0 <= i < |s| ==> IsAlnum(s[i]) || s[i] == '%')
    && (s == "" || exists i :: 0 <= i < |s| && !IsDigit(s[i]))
  }

  predicate PlainOk(s: string) {
    forall i :: 0 <= i < |s| ==> s[i] != '#' && s[i] != '?'
  }

  predicate UrlRules(u: Url) {
    && SchemeOk(u.scheme)
    && NameOk(u.username)
    && PasswordOk(u.password)
    && NameOk(u.hostname)
    && AllDecimal(u.port)
    && u.path != "" && u.path[0] == '/' && PlainOk(u.path)
    && PlainOk(u.query)
    && u.integerPort == ToUint16(Atoi(u.port))
  }

  /** Before the path nothing but scheme, user info and host has been filled in. */
  predicate NoPathYet(u: Url) {
    u.port == "" && u.path == "/" && u.query == "" && u.fragment == "" && u.integerPort == 0
  }

  predicate SchemeOnly(u: Url) {
    u == EmptyUrl.(scheme := u.scheme, path := "/")
  }

  predicate Inv(s: Scan) {
    if !s.valid then s.portOrPassword != "" ==> s.state in {PortOrPassword, Port}
    else
      && SchemeOk(s.url.scheme)
      && match s.state
         case Scheme => SchemeOnly(s.url) && s.usernameOrHostname == "" && s.portOrPassword == ""
         case SlashAfterScheme1 => SchemeOnly(s.url) && s.usernameOrHostname == "" && s.portOrPassword == ""
         case SlashAfterScheme2 => SchemeOnly(s.url) && s.usernameOrHostname == "" && s.portOrPassword == ""
         case UsernameOrHostname => SchemeOnly(s.url) && NameOk(s.usernameOrHostname) && s.portOrPassword == ""
         case PortOrPassword => SchemeOnly(s.url) && NameOk(s.usernameOrHostname) && AllDecimal(s.portOrPassword)
         case Password =>
           && NoPathYet(s.url) && s.usernameOrHostname == "" && s.portOrPassword == "" && s.url.hostname == ""
           && NameOk(s.url.username) && s.url.password != "" && PasswordOk(s.url.password)
         case Hostname =>
           && NoPathYet(s.url) && s.usernameOrHostname == "" && s.portOrPassword == ""
           && NameOk(s.url.username) && PasswordOk(s.url.password) && NameOk(s.url.hostname)
         case IPV6Hostname =>
           && NoPathYet(s.url) && s.usernameOrHostname == "" && s.portOrPassword == ""
           && NameOk(s.url.username) && PasswordOk(s.url.password) && NameOk(s.url.hostname)
         case Port =>
           && NoPathYet(s.url) && s.usernameOrHostname == "" && AllDecimal(s.portOrPassword)
           && NameOk(s.url.username) && PasswordOk(s.url.password) && NameOk(s.url.hostname)
         case _ => UrlRules(s.url) && s.usernameOrHostname == "" && s.portOrPassword == ""
  }

  lemma AtoiOfNothing()
    ensures Atoi("") == 0
  {
  }

  lemma PasswordStep(s: Scan, c: char)
    requires s.valid && Inv(s) && s.state in {Password, PortOrPassword}
    ensures Step(s, c).Some? && Inv(Step(s, c).value)
  {
    hide Atoi, SchemeOk;
    AtoiOfNothing();
    if s.state == Password {
      var i :| 0 <= i < |s.url.password| && !IsDigit(s.url.password[i]);
      assert (s.url.password + [c])[i] == s.url.password[i];
    } else {
      assert (s.portOrPassword + [c])[|s.portOrPassword|] == c;
    }
  }

  lemma StepKeepsInv(s: Scan, c: char)
    requires s.valid && Inv(s)
    ensures match Step(s, c) case None => s.state == IPV6Hostname case Some(t) => Inv(t)
  {
    if s.state in {Password, PortOrPassword} {
      PasswordStep(s, c);
    } else if s.state in {Path, Query, Fragment} {
      LastPartsStep(s, c);
    } else if s.state in {Scheme, SlashAfterScheme1, SlashAfterScheme2, UsernameOrHostname} {
      FirstPartsStep(s, c);
    } else {
      hide Atoi;
      AtoiOfNothing();
    }
  }

  lemma LastPartsStep(s: Scan, c: char)
    requires s.valid && Inv(s) && s.state in {Path, Query, Fragment}
    ensures Step(s, c).Some? && Inv(Step(s, c).value)
  {
    hide Atoi, SchemeOk, NameOk, PasswordOk, AllDecimal;
  }

  lemma FirstPartsStep(s: Scan, c: char)
    requires s.valid && Inv(s) && s.state in {Scheme, SlashAfterScheme1, SlashAfterScheme2, UsernameOrHostname}
    ensures Step(s, c).Some? && Inv(Step(s, c).value)
  {
    hide Atoi;
    AtoiOfNothing();
  }

  lemma {:induction false} ScanKeepsInv(s: Scan, str: string)
    requires Inv(s)
    ensures match ScanAll(s, str) case None => true case Some(t) => Inv(t)
    decreases |str|
  {
    hide Inv;
    if str != "" && s.valid {
      StepKeepsInv(s, str[0]);
      match Step(s, str[0]) {
        case None =>
        case Some(t) => ScanKeepsInv(t, str[1..]);
      }
    }
  }

  lemma FinishKeepsRules(s: Scan)
    requires s.valid && Inv(s) && s.portOrPassword == ""
    ensures UrlRules(Finish(s).url)
  {
    hide Atoi, SchemeOk, PasswordOk, PlainOk, ToUint16;
    AtoiOfNothing();
    NothingIsPlain();
  }

  lemma NothingIsPlain()
    ensures PlainOk("/") && PlainOk("") && PasswordOk("") && ToUint16(0) == 0
  {
  }

  /** Every URL `parse` accepts obeys the rules. */
  lemma ParsedUrlObeysRules(str: string)
    requires Parse(str).Parsed? && Parse(str).valid
    ensures UrlRules(Parse(str).url)
  {
    hide Inv, UrlRules;
    StartKeepsInv();
    ScanKeepsInv(Start, str);
    FinishKeepsRules(ScanAll(Start, str).value);
  }

  lemma StartKeepsInv()
    ensures Inv(Start)
  {
  }

  /** Digits are pending at the end only if the scan stopped, rejecting or not, among those of a port. */
  lemma AssertionFailsOnPendingDigits(str: string)
    ensures Parse(str) == AssertionFailed <==>
            && ScanAll(Start, str).Some?
            && ScanAll(Start, str).value.state in {PortOrPassword, Port}
            && ScanAll(Start, str).value.portOrPassword != ""
  {
    ScanKeepsInv(Start, str);
    hide Atoi;
  }

  lemma {:induction false} ScanConcat(s: Scan, a: string, b: string)
    ensures ScanAll(s, a + b) == match ScanAll(s, a) case None => None case Some(t) => ScanAll(t, b)
    decreases |a|
  {
    if a == "" {
      assert a + b == b;
    } else if s.valid {
      assert (a + b)[0] == a[0] && (a + b)[1..] == a[1..] + b;
      match Step(s, a[0]) {
        case None =>
        case Some(t) => ScanConcat(t, a[1..], b);
      }
    }
  }

  lemma ScanThenScan(s: Scan, a: string, t: Scan, b: string, u: Scan)
    requires ScanAll(s, a) == Some(t) && ScanAll(t, b) == Some(u)
    ensures ScanAll(s, a + b) == Some(u)
  {
    ScanConcat(s, a, b);
  }

  lemma OneChar(s: Scan, c: char)
    requires s.valid
    ensures ScanAll(s, [c]) == Step(s, c)
  {
    assert [c][1..] == "";
    match Step(s, c) {
      case None =>
      case Some(t) => assert ScanAll(t, [c][1..]) == Some(t);
    }
  }

  lemma {:induction false} SchemeRun(s: Scan, text: string)
    requires s.valid && s.state == Scheme && SchemeOk(text)
    ensures ScanAll(s, text) == Some(s.(url := s.url.(scheme := s.url.scheme + text)))
    decreases |text|
  {
    if text == "" {
      assert s.url.scheme + text == s.url.scheme;
    } else {
      SchemeRun(Step(s, text[0]).value, text[1..]);
      assert s.url.scheme + [text[0]] + text[1..] == s.url.scheme + text;
    }
  }

  lemma {:induction false} NameRun(s: Scan, text: string)
    requires s.valid && s.state == UsernameOrHostname && NameOk(text)
    ensures ScanAll(s, text) == Some(s.(usernameOrHostname := s.usernameOrHostname + text))
    decreases |text|
  {
    if text == "" {
      assert s.usernameOrHostname + text == s.usernameOrHostname;
    } else {
      NameRun(Step(s, text[0]).value, text[1..]);
      assert s.usernameOrHostname + [text[0]] + text[1..] == s.usernameOrHostname + text;
    }
  }

  lemma {:induction false} HostnameRun(s: Scan, text: string)
    requires s.valid && s.state == Hostname && NameOk(text)
    ensures ScanAll(s, text) == Some(s.(url := s.url.(hostname := s.url.hostname + text)))
    decreases |text|
  {
    if text == "" {
      assert s.url.hostname + text == s.url.hostname;
    } else {
      HostnameRun(Step(s, text[0]).value, text[1..]);
      assert s.url.hostname + [text[0]] + text[1..] == s.url.hostname + text;
    }
  }

  lemma {:induction false} DigitsRun(s: Scan, text: string)
    requires s.valid && s.state in {PortOrPassword, Port} && AllDecimal(text)
    ensures ScanAll(s, text) == Some(s.(portOrPassword := s.portOrPassword + text))
    decreases |text|
  {
    if text == "" {
      assert s.portOrPassword + text == s.portOrPassword;
    } else {
      DigitsRun(Step(s, text[0]).value, text[1..]);
      assert s.portOrPassword + [text[0]] + text[1..] == s.portOrPassword + text;
    }
  }

  lemma {:induction false} PasswordTextRun(s: Scan, text: string)
    requires s.valid && s.state == Password && forall i :: 0 <= i < |text| ==> IsAlnum(text[i]) || text[i] == '%'
    ensures ScanAll(s, text) == Some(s.(url := s.url.(password := s.url.password + text)))
    decreases |text|
  {
    if text == "" {
      assert s.url.password + text == s.url.password;
    } else {
      PasswordTextRun(Step(s, text[0]).value, text[1..]);
      assert s.url.password + [text[0]] + text[1..] == s.url.password + text;
    }
  }

  /** A password is collected as port digits until its first other byte. */
  lemma {:induction false} PasswordRun(s: Scan, text: string)
    requires s.valid && s.state == PortOrPassword && s.url.username == "" && s.url.password == ""
    requires text != "" && PasswordOk(text)
    ensures ScanAll(s, text) ==
            Some(s.(state := Password, usernameOrHostname := "", portOrPassword := "",
                    url := s.url.(username := s.usernameOrHostname, password := s.portOrPassword + text)))
    decreases |text|
  {
    var t := Step(s, text[0]).value;
    if IsDigit(text[0]) {
      var i :| 0 <= i < |text| && !IsDigit(text[i]);
      assert text[1..][i - 1] == text[i];
      PasswordRun(t, text[1..]);
      assert s.portOrPassword + [text[0]] + text[1..] == s.portOrPassword + text;
    } else {
      PasswordTextRun(t, text[1..]);
      assert s.portOrPassword + [text[0]] + text[1..] == s.portOrPassword + text;
    }
  }

  lemma {:induction false} PathRun(s: Scan, text: string)
    requires s.valid && s.state == Path && PlainOk(text)
    ensures ScanAll(s, text) == Some(s.(url := s.url.(path := s.url.path + text)))
    decreases |text|
  {
    if text == "" {
      assert s.url.path + text == s.url.path;
    } else {
      PathRun(Step(s, text[0]).value, text[1..]);
      assert s.url.path + [text[0]] + text[1..] == s.url.path + text;
    }
  }

  lemma {:induction false} QueryRun(s: Scan, text: string)
    requires s.valid && s.state == Query && PlainOk(text)
    ensures ScanAll(s, text) == Some(s.(url := s.url.(query := s.url.query + text)))
    decreases |text|
  {
    if text == "" {
      assert s.url.query + text == s.url.query;
    } else {
      QueryRun(Step(s, text[0]).value, text[1..]);
      assert s.url.query + [text[0]] + text[1..] == s.url.query + text;
    }
  }

  lemma {:induction false} FragmentRun(s: Scan, text: string)
    requires s.valid && s.state == Fragment
    ensures ScanAll(s, text) == Some(s.(url := s.url.(fragment := s.url.fragment + text)))
    decreases |text|
  {
    if text == "" {
      assert s.url.fragment + text == s.url.fragment;
    } else {
      FragmentRun(Step(s, text[0]).value, text[1..]);
      assert s.url.fragment + [text[0]] + text[1..] == s.url.fragment + text;
    }
  }

  /** What follows a user's name. */
  function UserEnd(password: string): string {
    if password == "" then "@" else ":" + password + "@"
  }

  function PrintUserInfo(u: Url): string {
    if u.username == "" && u.password == "" then "" else u.username + UserEnd(u.password)
  }

  function PrintPort(port: string): string {
    if port == "" then "" else ":" + port
  }

  function PrintTail(u: Url): string {
    u.path + (if u.query == "" then "" else "?" + u.query) + (if u.fragment == "" then "" else "#" + u.fragment)
  }

  /** The canonical form of a URL. */
  function Print(u: Url): string {
    u.scheme + "://" + (PrintUserInfo(u) + u.hostname + PrintPort(u.port)) + PrintTail(u)
  }

  function AfterScheme(scheme: string): Scan {
    Scan(UsernameOrHostname, true, EmptyUrl.(scheme := scheme, path := "/"), "", "")
  }

  /** The scan after the "@" of a user info. */
  function AfterUser(scheme: string, username: string, password: string): Scan {
    Scan(Hostname, true, EmptyUrl.(scheme := scheme, username := username, password := password, path := "/"), "", "")
  }

  lemma SchemeEndRun(scheme: string)
    requires SchemeOk(scheme)
    ensures ScanAll(Start, scheme + "://") == Some(AfterScheme(scheme))
  {
    SchemeRun(Start, scheme);
    assert "" + scheme == scheme;
    var s1 := Start.(url := Start.url.(scheme := scheme));
    OneChar(s1, ':');
    OneChar(s1.(state := SlashAfterScheme1), '/');
    OneChar(s1.(state := SlashAfterScheme2), '/');
    hide ScanAll, Step;
    ScanThenScan(s1, ":", s1.(state := SlashAfterScheme1), "/", s1.(state := SlashAfterScheme2));
    ScanThenScan(s1, ":" + "/", s1.(state := SlashAfterScheme2), "/", AfterScheme(scheme));
    assert ":" + "/" + "/" == "://";
    ScanThenScan(Start, scheme, s1, "://", AfterScheme(scheme));
  }

  /** The scan after the authority, before the slash of the path: in the host, or after the colon of a port. */
  predicate AtPath(s: Scan, u: Url) {
    && s.valid
    && Step(s, '/') == Some(Scan(Path, true, u.(path := "/", query := "", fragment := ""), "", ""))
  }

  lemma UserInfoSteps(s: Scan)
    requires s.state == UsernameOrHostname && s.valid
    ensures ScanAll(s, ":") == Some(s.(state := PortOrPassword))
    ensures
      var url := s.url.(username := s.usernameOrHostname);
      ScanAll(s, "@") == Some(s.(state := Hostname, url := url, usernameOrHostname := s.url.username))
  {
    OneChar(s, ':');
    OneChar(s, '@');
  }

  lemma PasswordEnd(s: Scan)
    requires s.state == Password && s.valid
    ensures ScanAll(s, "@") == Some(s.(state := Hostname))
  {
    OneChar(s, '@');
  }

  lemma UserEndRun(scheme: string, username: string, password: string)
    requires PasswordOk(password)
    ensures ScanAll(AfterScheme(scheme).(usernameOrHostname := username), UserEnd(password)) ==
            Some(AfterUser(scheme, username, password))
  {
    hide ScanAll, Step;
    var s := AfterScheme(scheme).(usernameOrHostname := username);
    UserInfoSteps(s);
    if password != "" {
      var s1 := s.(state := PortOrPassword);
      PasswordRun(s1, password);
      assert "" + password == password;
      var s2 := AfterUser(scheme, username, password).(state := Password);
      PasswordEnd(s2);
      ScanThenScan(s, ":", s1, password, s2);
      ScanThenScan(s, ":" + password, s2, "@", AfterUser(scheme, username, password));
    }
  }

  lemma UserInfoRun(u: Url)
    requires UrlRules(u) && PrintUserInfo(u) != ""
    ensures ScanAll(AfterScheme(u.scheme), PrintUserInfo(u)) == Some(AfterUser(u.scheme, u.username, u.password))
  {
    hide ScanAll, Step, SchemeOk, UserEnd;
    var s := AfterScheme(u.scheme);
    NameRun(s, u.username);
    assert "" + u.username == u.username;
    UserEndRun(u.scheme, u.username, u.password);
    ScanThenScan(s, u.username, s.(usernameOrHostname := u.username), UserEnd(u.password),
                 AfterUser(u.scheme, u.username, u.password));
  }

  /** Host and port, after user info. */
  lemma HostAfterUserRun(s: Scan, u: Url) returns (t: Scan)
    requires UrlRules(u) && s == AfterUser(u.scheme, u.username, u.password)
    ensures ScanAll(s, u.hostname + PrintPort(u.port)) == Some(t) && AtPath(t, u)
  {
    AtoiOfNothing();
    hide Atoi;
    HostnameRun(s, u.hostname);
    assert "" + u.hostname == u.hostname;
    var s1 := s.(url := s.url.(hostname := u.hostname));
    if u.port == "" {
      t := s1;
      assert u.hostname + "" == u.hostname;
    } else {
      OneChar(s1, ':');
      var s2 := s1.(state := Port);
      DigitsRun(s2, u.port);
      assert "" + u.port == u.port;
      t := s2.(portOrPassword := u.port);
      ScanThenScan(s1, ":", s2, u.port, t);
      ScanThenScan(s, u.hostname, s1, ":" + u.port, t);
    }
  }

  /** Host and port without user info: the host is collected as a name that might be a user's. */
  lemma HostAloneRun(u: Url) returns (t: Scan)
    requires UrlRules(u) && u.username == "" && u.password == ""
    ensures ScanAll(AfterScheme(u.scheme), u.hostname + PrintPort(u.port)) == Some(t) && AtPath(t, u)
  {
    AtoiOfNothing();
    hide Atoi;
    var s := AfterScheme(u.scheme);
    NameRun(s, u.hostname);
    assert "" + u.hostname == u.hostname;
    var s1 := s.(usernameOrHostname := u.hostname);
    if u.port == "" {
      t := s1;
      assert u.hostname + "" == u.hostname;
    } else {
      OneChar(s1, ':');
      var s2 := s1.(state := PortOrPassword);
      DigitsRun(s2, u.port);
      assert "" + u.port == u.port;
      t := s2.(portOrPassword := u.port);
      ScanThenScan(s1, ":", s2, u.port, t);
      ScanThenScan(s, u.hostname, s1, ":" + u.port, t);
    }
  }

  lemma AuthorityRun(u: Url) returns (t: Scan)
    requires UrlRules(u)
    ensures ScanAll(AfterScheme(u.scheme), PrintUserInfo(u) + u.hostname + PrintPort(u.port)) == Some(t)
    ensures AtPath(t, u)
  {
    hide ScanAll, Step, UrlRules;
    if PrintUserInfo(u) == "" {
      t := HostAloneRun(u);
      assert PrintUserInfo(u) + u.hostname == u.hostname;
    } else {
      UserInfoRun(u);
      var s := AfterUser(u.scheme, u.username, u.password);
      t := HostAfterUserRun(s, u);
      ScanThenScan(AfterScheme(u.scheme), PrintUserInfo(u), s, u.hostname + PrintPort(u.port), t);
      assert PrintUserInfo(u) + (u.hostname + PrintPort(u.port)) == PrintUserInfo(u) + u.hostname + PrintPort(u.port);
    }
  }

  lemma QueryPartRun(s: Scan, query: string) returns (t: Scan)
    requires s.valid && s.state == Path && s.url.query == "" && PlainOk(query)
    ensures ScanAll(s, if query == "" then "" else "?" + query) == Some(t)
    ensures t == s.(state := if query == "" then Path else Query, url := s.url.(query := query))
  {
    t := s.(state := if query == "" then Path else Query, url := s.url.(query := query));
    if query != "" {
      OneChar(s, '?');
      QueryRun(s.(state := Query), query);
      assert "" + query == query;
      ScanThenScan(s, "?", s.(state := Query), query, t);
    }
  }

  lemma FragmentPartRun(s: Scan, fragment: string) returns (t: Scan)
    requires s.valid && s.state in {Path, Query} && s.url.fragment == ""
    ensures ScanAll(s, if fragment == "" then "" else "#" + fragment) == Some(t)
    ensures t == s.(state := if fragment == "" then s.state else Fragment, url := s.url.(fragment := fragment))
  {
    t := s.(state := if fragment == "" then s.state else Fragment, url := s.url.(fragment := fragment));
    if fragment != "" {
      OneChar(s, '#');
      FragmentRun(s.(state := Fragment), fragment);
      assert "" + fragment == fragment;
      ScanThenScan(s, "#", s.(state := Fragment), fragment, t);
    }
  }

  lemma TailRun(s: Scan, u: Url) returns (t: Scan)
    requires UrlRules(u) && AtPath(s, u)
    ensures ScanAll(s, PrintTail(u)) == Some(t) && Finish(t) == Parsed(true, u)
  {
    OneChar(s, '/');
    var s1 := Scan(Path, true, u.(path := "/", query := "", fragment := ""), "", "");
    PathRun(s1, u.path[1..]);
    assert "/" + u.path[1..] == u.path;
    var s2 := s1.(url := s1.url.(path := u.path));
    ScanThenScan(s, "/", s1, u.path[1..], s2);
    hide ScanAll, Step;
    var s3 := QueryPartRun(s2, u.query);
    t := FragmentPartRun(s3, u.fragment);
    ScanThenScan(s, u.path, s2, if u.query == "" then "" else "?" + u.query, s3);
    ScanThenScan(s, u.path + (if u.query == "" then "" else "?" + u.query), s3,
                 if u.fragment == "" then "" else "#" + u.fragment, t);
  }

  /** Every URL that obeys the rules is what parsing its print yields. */
  lemma ParseOfPrint(u: Url)
    requires UrlRules(u)
    ensures Parse(Print(u)) == Parsed(true, u)
  {
    hide ScanAll, Step, PrintUserInfo, PrintPort, PrintTail, Finish;
    SchemeEndRun(u.scheme);
    var s1 := AfterScheme(u.scheme);
    var s2 := AuthorityRun(u);
    var authority := PrintUserInfo(u) + u.hostname + PrintPort(u.port);
    ScanThenScan(Start, u.scheme + "://", s1, authority, s2);
    var s3 := TailRun(s2, u);
    ScanThenScan(Start, u.scheme + "://" + authority, s2, PrintTail(u), s3);
  }

  /** The normal form: for every string that parses, printing the components and parsing again changes nothing. */
  lemma UrlFixpoint(str: string)
    requires Parse(str).Parsed? && Parse(str).valid
    ensures Parse(Print(Parse(str).url)) == Parse(str)
  {
    ParsedUrlObeysRules(str);
    ParseOfPrint(Parse(str).url);
  }

  /** The URLs that can result are exactly those that obey the rules. */
  lemma UrlImage(u: Url)
    ensures UrlRules(u) <==> exists str :: Parse(str) == Parsed(true, u)
  {
    if UrlRules(u) {
      ParseOfPrint(u);
    }
    if str :| Parse(str) == Parsed(true, u) {
      ParsedUrlObeysRules(str);
    }
  }

  lemma Uint16OfInt32(v: int)
    ensures ToUint16(ToInt32(v)) == v % 0x1_0000
  {
  }

  /** `httpPort` of a given port is its decimal value modulo 2^16, so it is exact just for values below 65536. */
  lemma HttpPortIsPortModulo(str: string)
    requires Parse(str).Parsed? && Parse(str).valid && Parse(str).url.port != ""
    ensures
      var url := Parse(str).url;
      var value := Value(url.port, 10);
      && HttpPort(url) == (if value <= LONG_MAX then value % 0x1_0000 else 0xFFFF)
      && (HttpPort(url) == value <==> value < 0x1_0000)
  {
    ParsedUrlObeysRules(str);
    var port := Parse(str).url.port;
    assert AllDigits(port, 10);
    StrtolOfDigits(port, 10);
    Uint16OfInt32(Strtol(port, 10));
    hide Strtol, Value, Parse, ToInt32, ToUint16;
  }
}
