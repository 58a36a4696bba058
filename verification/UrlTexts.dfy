/** The URL parser on texts written out: how each component is found, and the port that `httpPort` answers. */
module UrlTexts {
  import opened Ascii
  import opened Numerals
  import opened UrlParser
  import opened UrlNormalForm
  import opened Options

  /** Unreserved characters and '%', as section 2.3 of RFC 3986 lists them. */
  predicate NameText(s: string) {
    forall i :: 0 <= i < |s| ==>
      || 'a' <= s[i] <= 'z' || 'A' <= s[i] <= 'Z' || '0' <= s[i] <= '9'
      || s[i] == '-' || s[i] == '.' || s[i] == '_' || s[i] == '~' || s[i] == '%'
  }

  predicate SchemeText(s: string) {
    forall i :: 0 <= i < |s| ==>
      || 'a' <= s[i] <= 'z' || 'A' <= s[i] <= 'Z' || '0' <= s[i] <= '9'
      || s[i] == '+' || s[i] == '-' || s[i] == '.'
  }

  /** Alphanumerics and '%', not digits only. */
  predicate PasswordText(s: string) {
    && (forall i :: 0 <= i < |s| ==>
          'a' <= s[i] <= 'z' || 'A' <= s[i] <= 'Z' || '0' <= s[i] <= '9' || s[i] == '%')
    && exists i :: 0 <= i < |s| && !('0' <= s[i] <= '9')
  }

  predicate PathText(s: string) {
    s != "" && s[0] == '/' && forall i :: 0 <= i < |s| ==> s[i] != '#' && s[i] != '?'
  }

  lemma TextsAreOk(scheme: string, name: string, password: string)
    ensures SchemeText(scheme) <==> SchemeOk(scheme)
    ensures NameText(name) <==> NameOk(name)
    ensures PasswordText(password) ==> PasswordOk(password) && password != ""
  {
  }

  /** Every component where it belongs: a URL with all of them. */
  lemma FullUrl(
      scheme: string, username: string, password: string, hostname: string, port: nat, path: string, query: string,
      fragment: string)
    requires SchemeText(scheme) && NameText(username) && PasswordText(password) && NameText(hostname)
    requires port < 65536 && PathText(path) && fragment != ""
    requires query != "" && forall i :: 0 <= i < |query| ==> query[i] != '#' && query[i] != '?'
    ensures
      Parse(scheme + "://" + username + ":" + password + "@" + hostname + ":" + Numerals.Print(port, 10)
            + path + "?" + query + "#" + fragment) ==
      Parsed(true, Url(scheme, username, password, hostname, Numerals.Print(port, 10), path, query, fragment, port))
  {
    hide *;
    var digits := Numerals.Print(port, 10);
    var u := Url(scheme, username, password, hostname, digits, path, query, fragment, port);
    FullUrlRules(u, port);
    ParseOfPrint(u);
    PrintedInFull(u);
  }

  lemma FullUrlRules(u: Url, port: nat)
    requires SchemeText(u.scheme) && NameText(u.username) && PasswordText(u.password) && NameText(u.hostname)
    requires port < 65536 && u.port == Numerals.Print(port, 10) && u.integerPort == port && PathText(u.path)
    requires forall i :: 0 <= i < |u.query| ==> u.query[i] != '#' && u.query[i] != '?'
    ensures UrlRules(u) && u.password != "" && u.port != ""
  {
    hide Numerals.Print, Atoi, SchemeOk, NameOk, PasswordOk, NameText, SchemeText, PasswordText;
    TextsAreOk(u.scheme, u.username, u.password);
    TextsAreOk(u.scheme, u.hostname, u.password);
    PrintIsDigits(port, 10);
    AtoiReadsPrint(port);
  }

  lemma Join(a: string, b: string, c: string)
    ensures a + (b + c) == a + b + c
  {
  }

  lemma PrintedInFull(u: Url)
    requires u.password != "" && u.port != "" && u.query != "" && u.fragment != ""
    ensures UrlNormalForm.Print(u) ==
            u.scheme + "://" + u.username + ":" + u.password + "@" + u.hostname + ":" + u.port
            + u.path + "?" + u.query + "#" + u.fragment
  {
    var user, port := u.username + (":" + u.password + "@"), ":" + u.port;
    var head, tail := u.scheme + "://", u.path + ("?" + u.query) + ("#" + u.fragment);
    assert UrlNormalForm.Print(u) == head + (user + u.hostname + port) + tail;
    Join(u.username, ":" + u.password, "@");
    Join(u.username, ":", u.password);
    Join(head, user + u.hostname, port);
    Join(head, user, u.hostname);
    Join(head, u.username + ":" + u.password, "@");
    Join(head, u.username + ":", u.password);
    Join(head, u.username, ":");
    var front := u.scheme + "://" + u.username + ":" + u.password + "@" + u.hostname;
    Join(front, ":", u.port);
    Join(front + ":" + u.port, u.path + ("?" + u.query), "#" + u.fragment);
    Join(front + ":" + u.port, u.path, "?" + u.query);
    Join(front + ":" + u.port + u.path, "?", u.query);
    Join(front + ":" + u.port + u.path + "?" + u.query, "#", u.fragment);
  }

  /** A host alone is accepted if and only if all its bytes are name characters. */
  lemma HostUrl(hostname: string)
    ensures
      Parse("http://" + hostname + "/") == Parsed(true, Url("http", "", "", hostname, "", "/", "", "", 0))
      <==> NameText(hostname)
  {
    TextsAreOk("http", hostname, "");
    var u := Url("http", "", "", hostname, "", "/", "", "", 0);
    AtoiOfNothing();
    hide Atoi, NameOk, Parse;
    assert SchemeText("http") && SchemeOk("http") by {
      TextsAreOk("http", "", "");
    }
    assert UrlNormalForm.Print(u) == "http://" + hostname + "/" by {
      assert "http" + "://" + ("" + hostname + "") + ("/" + "" + "") == "http://" + hostname + "/";
    }
    if NameText(hostname) {
      ParseOfPrint(u);
    }
    if Parse("http://" + hostname + "/") == Parsed(true, u) {
      ParsedUrlObeysRules("http://" + hostname + "/");
    }
  }

  lemma {:induction false} SchemeKept(s: Scan, str: string)
    requires s.valid && s.state != Scheme
    ensures match ScanAll(s, str)
            case None => true
            case Some(t) => t.valid ==> t.url.scheme == s.url.scheme && t.state != Scheme
    decreases |str|
  {
    if str != "" {
      StepKeepsScheme(s, str[0]);
      hide Step;
      match Step(s, str[0]) {
        case None =>
        case Some(t) =>
          if t.valid {
            SchemeKept(t, str[1..]);
          } else {
            InvalidStays(t, str[1..]);
          }
      }
    }
  }

  lemma InvalidStays(s: Scan, str: string)
    ensures !s.valid ==> ScanAll(s, str) == Some(s)
  {
  }

  lemma StepKeepsScheme(s: Scan, c: char)
    requires s.valid && s.state != Scheme
    ensures match Step(s, c)
            case None => true
            case Some(t) => t.valid ==> t.url.scheme == s.url.scheme && t.state != Scheme
  {
    hide Atoi;
  }

  /** The scheme of a valid URL is what stands before the first colon, or all of the string if it has none. */
  lemma {:induction false} SchemeBeforeColon(s: Scan, str: string) returns (k: nat)
    requires s.valid && s.state == Scheme && ScanAll(s, str).Some? && ScanAll(s, str).value.valid
    ensures k <= |str| && (k < |str| ==> str[k] == ':') && forall i :: 0 <= i < k ==> str[i] != ':'
    ensures ScanAll(s, str).value.url.scheme == s.url.scheme + str[..k]
    decreases |str|
  {
    k := 0;
    if str == "" {
      assert s.url.scheme + "" == s.url.scheme;
    } else {
      var t := Step(s, str[0]).value;
      InvalidStays(t, str[1..]);
      if str[0] == ':' {
        SchemeKept(t, str[1..]);
        assert s.url.scheme + "" == s.url.scheme;
      } else {
        k := SchemeBeforeColon(t, str[1..]);
        k := k + 1;
        assert str[..k] == [str[0]] + str[1..][..k - 1];
        assert s.url.scheme + str[..k] == s.url.scheme + [str[0]] + str[1..][..k - 1];
      }
    }
  }

  /** Without a port, `httpPort` is 443 if the string is "https" or starts with "https:", and 80 otherwise. */
  lemma DefaultPort(str: string)
    requires Parse(str).Parsed? && Parse(str).valid && Parse(str).url.port == ""
    ensures HttpPort(Parse(str).url) ==
            if str == "https" || (|str| >= 6 && str[..6] == "https:") then 443 else 80
  {
    var k := SchemeBeforeColon(Start, str);
    hide ScanAll, Step;
    var scheme := Parse(str).url.scheme;
    assert scheme == str[..k] by {
      assert "" + str[..k] == str[..k];
    }
    if scheme == "https" {
      assert k == 5;
      assert k < |str| ==> str[..6] == str[..5] + [str[5]];
    }
    if |str| >= 6 && str[..6] == "https:" {
      assert str[..6][5] == ':' && forall i :: 0 <= i < 5 ==> str[i] == str[..6][i];
      assert forall i :: 0 <= i < 5 ==> "https:"[i] != ':';
      assert k == 5;
      assert str[..5] == str[..6][..5];
    }
    if str == "https" {
      assert forall i :: 0 <= i < 5 ==> "https"[i] != ':';
      assert k == 5;
      assert str[..5] == str;
    }
  }

  function WithoutMarks(text: string): string {
    if text == "" then ""
    else (if text[0] == '?' then "" else [text[0]]) + WithoutMarks(text[1..])
  }

  /** In a query a further '?' is dropped, and so it does not come back from the print. */
  lemma {:induction false} QueryDropsMarks(s: Scan, text: string)
    requires s.valid && s.state == Query && forall i :: 0 <= i < |text| ==> text[i] != '#'
    ensures ScanAll(s, text) == Some(s.(url := s.url.(query := s.url.query + WithoutMarks(text))))
    decreases |text|
  {
    if text == "" {
      assert s.url.query + "" == s.url.query;
    } else {
      var t := Step(s, text[0]).value;
      QueryDropsMarks(t, text[1..]);
      if text[0] == '?' {
        assert "" + WithoutMarks(text[1..]) == WithoutMarks(text[1..]);
      } else {
        assert s.url.query + [text[0]] + WithoutMarks(text[1..]) == s.url.query + ([text[0]] + WithoutMarks(text[1..]));
      }
    }
  }
}
