/**
  The URL scanner of urlparser.h: `Step` is what the source's switch does with one character, `ScanAll` what its
  loop does with a string, `Parse` the whole of `parse_`, and class `UrlParser` the object itself.
 */
module UrlParser {
  import opened Ascii
  import opened Numerals
  import opened Options

  datatype Url = Url(
    scheme: string,
    username: string,
    password: string,
    hostname: string,
    port: string,
    path: string,
    query: string,
    fragment: string,
    integerPort: nat)

  datatype State =
    | Scheme
    | SlashAfterScheme1
    | SlashAfterScheme2
    | UsernameOrHostname
    | Password
    | Hostname
    | IPV6Hostname
    | PortOrPassword
    | Port
    | Path
    | Query
    | Fragment

  /** The locals of `parse_` and the fields it updates. */
  datatype Scan = Scan(state: State, valid: bool, url: Url, usernameOrHostname: string, portOrPassword: string)

  /** `Aborted` is the call of `abort()`, `AssertionFailed` the failure of the assertion after the loop. */
  datatype Outcome = Parsed(valid: bool, url: Url) | Aborted | AssertionFailed

  const EmptyUrl := Url("", "", "", "", "", "", "", "", 0)
  const Start := Scan(Scheme, true, EmptyUrl.(path := "/"), "", "")

  predicate IsUnreserved(c: char) {
    IsAlnum(c) || c == '-' || c == '.' || c == '_' || c == '~'
  }

  /** Conversion of an int to `uint16_t`. */
  function ToUint16(v: int): nat {
    v % 0x1_0000
  }

  function Reject(s: Scan): Scan {
    s.(valid := false, url := EmptyUrl)
  }

  /** One character; `None` if it makes the process abort. */
  function Step(s: Scan, c: char): Option<Scan> {
    match s.state
    case Scheme =>
      if IsAlnum(c) || c == '+' || c == '-' || c == '.' then Some(s.(url := s.url.(scheme := s.url.scheme + [c])))
      else if c == ':' then Some(s.(state := SlashAfterScheme1))
      else Some(Reject(s))
    case SlashAfterScheme1 =>
      if c == '/' then Some(s.(state := SlashAfterScheme2))
      else if IsAlnum(c) then Some(s.(state := UsernameOrHostname, usernameOrHostname := [c]))
      else Some(Reject(s))
    case SlashAfterScheme2 =>
      Some(if c == '/' then s.(state := UsernameOrHostname) else Reject(s))
    case UsernameOrHostname =>
      if IsUnreserved(c) || c == '%' then Some(s.(usernameOrHostname := s.usernameOrHostname + [c]))
      else if c == ':' then Some(s.(state := PortOrPassword))
      else if c == '@' then
        Some(s.(state := Hostname,
                url := s.url.(username := s.usernameOrHostname),
                usernameOrHostname := s.url.username))
      else if c == '/' then
        Some(s.(state := Path, url := s.url.(hostname := s.usernameOrHostname), usernameOrHostname := s.url.hostname))
      else Some(Reject(s))
    case Password =>
      if IsAlnum(c) || c == '%' then Some(s.(url := s.url.(password := s.url.password + [c])))
      else Some(if c == '@' then s.(state := Hostname) else Reject(s))
    case Hostname =>
      if c == '[' && s.url.hostname == "" then Some(s.(state := IPV6Hostname))
      else if IsUnreserved(c) || c == '%' then Some(s.(url := s.url.(hostname := s.url.hostname + [c])))
      else if c == ':' then Some(s.(state := Port))
      else Some(if c == '/' then s.(state := Path) else Reject(s))
    case IPV6Hostname => None
    case PortOrPassword =>
      if IsDigit(c) then Some(s.(portOrPassword := s.portOrPassword + [c]))
      else if c == '/' then
        Some(s.(state := Path,
                url := s.url.(hostname := s.usernameOrHostname, port := s.portOrPassword,
                              integerPort := ToUint16(Atoi(s.portOrPassword))),
                usernameOrHostname := s.url.hostname,
                portOrPassword := s.url.port))
      else if IsAlnum(c) || c == '%' then
        Some(s.(state := Password,
                url := s.url.(username := s.usernameOrHostname, password := s.portOrPassword + [c]),
                usernameOrHostname := s.url.username,
                portOrPassword := s.url.password))
      else Some(Reject(s))
    case Port =>
      if IsDigit(c) then Some(s.(portOrPassword := s.portOrPassword + [c]))
      else if c == '/' then
        Some(s.(state := Path,
                url := s.url.(port := s.portOrPassword, integerPort := ToUint16(Atoi(s.portOrPassword))),
                portOrPassword := s.url.port))
      else Some(Reject(s))
    case Path =>
      if c == '#' then Some(s.(state := Fragment))
      else if c == '?' then Some(s.(state := Query))
      else Some(s.(url := s.url.(path := s.url.path + [c])))
    case Query =>
      if c == '#' then Some(s.(state := Fragment))
      else if c == '?' then Some(s)
      else Some(s.(url := s.url.(query := s.url.query + [c])))
    case Fragment => Some(s.(url := s.url.(fragment := s.url.fragment + [c])))
  }

  function ScanAll(s: Scan, str: string): Option<Scan>
    decreases |str|
  {
    if str == "" || !s.valid then Some(s)
    else
      match Step(s, str[0])
      case None => None
      case Some(t) => ScanAll(t, str[1..])
  }

  function Finish(s: Scan): Outcome {
    if s.portOrPassword != "" then AssertionFailed
    else Parsed(s.valid, if s.usernameOrHostname != "" then s.url.(hostname := s.usernameOrHostname) else s.url)
  }

  function Parse(str: string): Outcome {
    match ScanAll(Start, str)
    case None => Aborted
    case Some(s) => Finish(s)
  }

  function HttpPort(url: Url): nat {
    if url.port != "" then url.integerPort
    else if url.scheme == "https" then 443
    else 80
  }

  class UrlParser {
    var valid: bool
    var url: Url

    constructor ()
      ensures !valid && url == EmptyUrl
    {
      valid, url := false, EmptyUrl;
    }

    /** `parse`, and `isValid()` as the result it returns when it returns. */
    method ParseUrl(str: string) returns (outcome: Outcome)
      modifies this
      ensures outcome == Parse(str)
      ensures outcome.Parsed? ==> valid == outcome.valid && url == outcome.url
    {
      url := EmptyUrl;
      var state := Scheme;
      var usernameOrHostname := "";
      var portOrPassword := "";
      valid := true;
      url := url.(path := "/", integerPort := 0);
      var i := 0;
      while i < |str| && valid
        invariant 0 <= i <= |str|
        invariant ScanAll(Start, str) ==
                  ScanAll(Scan(state, valid, url, usernameOrHostname, portOrPassword), str[i..])
      {
        var ch := str[i];
        assert str[i..][1..] == str[i + 1..];
        match state {
          case Scheme =>
            if IsAlnum(ch) || ch == '+' || ch == '-' || ch == '.' {
              url := url.(scheme := url.scheme + [ch]);
            } else if ch == ':' {
              state := SlashAfterScheme1;
            } else {
              valid, url := false, EmptyUrl;
            }
          case SlashAfterScheme1 =>
            if ch == '/' {
              state := SlashAfterScheme2;
            } else if IsAlnum(ch) {
              usernameOrHostname := [ch];
              state := UsernameOrHostname;
            } else {
              valid, url := false, EmptyUrl;
            }
          case SlashAfterScheme2 =>
            if ch == '/' {
              state := UsernameOrHostname;
            } else {
              valid, url := false, EmptyUrl;
            }
          case UsernameOrHostname =>
            if IsUnreserved(ch) || ch == '%' {
              usernameOrHostname := usernameOrHostname + [ch];
            } else if ch == ':' {
              state := PortOrPassword;
            } else if ch == '@' {
              state := Hostname;
              url, usernameOrHostname := url.(username := usernameOrHostname), url.username;
            } else if ch == '/' {
              state := Path;
              url, usernameOrHostname := url.(hostname := usernameOrHostname), url.hostname;
            } else {
              valid, url := false, EmptyUrl;
            }
          case Password =>
            if IsAlnum(ch) || ch == '%' {
              url := url.(password := url.password + [ch]);
            } else if ch == '@' {
              state := Hostname;
            } else {
              valid, url := false, EmptyUrl;
            }
          case Hostname =>
            if ch == '[' && url.hostname == "" {
              state := IPV6Hostname;
            } else if IsUnreserved(ch) || ch == '%' {
              url := url.(hostname := url.hostname + [ch]);
            } else if ch == ':' {
              state := Port;
            } else if ch == '/' {
              state := Path;
            } else {
              valid, url := false, EmptyUrl;
            }
          case IPV6Hostname =>
            return Aborted;
          case PortOrPassword =>
            if IsDigit(ch) {
              portOrPassword := portOrPassword + [ch];
            } else if ch == '/' {
              url, usernameOrHostname := url.(hostname := usernameOrHostname), url.hostname;
              url, portOrPassword := url.(port := portOrPassword), url.port;
              url := url.(integerPort := ToUint16(Atoi(url.port)));
              state := Path;
            } else if IsAlnum(ch) || ch == '%' {
              url, usernameOrHostname := url.(username := usernameOrHostname), url.username;
              url, portOrPassword := url.(password := portOrPassword), url.password;
              url := url.(password := url.password + [ch]);
              state := Password;
            } else {
              valid, url := false, EmptyUrl;
            }
          case Port =>
            if IsDigit(ch) {
              portOrPassword := portOrPassword + [ch];
            } else if ch == '/' {
              url, portOrPassword := url.(port := portOrPassword), url.port;
              url := url.(integerPort := ToUint16(Atoi(url.port)));
              state := Path;
            } else {
              valid, url := false, EmptyUrl;
            }
          case Path =>
            if ch == '#' {
              state := Fragment;
            } else if ch == '?' {
              state := Query;
            } else {
              url := url.(path := url.path + [ch]);
            }
          case Query =>
            if ch == '#' {
              state := Fragment;
            } else if ch == '?' {
              state := Query;
            } else {
              url := url.(query := url.query + [ch]);
            }
          case Fragment =>
            url := url.(fragment := url.fragment + [ch]);
        }
        i := i + 1;
      }
      if portOrPassword != "" {
        return AssertionFailed;
      }
      if usernameOrHostname != "" {
        url := url.(hostname := usernameOrHostname);
      }
      return Parsed(valid, url);
    }

    /** `httpPort`, which asserts that the last `parse` succeeded. */
    method GetHttpPort() returns (port: nat)
      requires valid
      ensures port == HttpPort(url)
    {
      var defaultHttpPort := 80;
      var defaultHttpsPort := 443;
      if url.port == "" {
        if url.scheme == "https" {
          return defaultHttpsPort;
        } else {
          return defaultHttpPort;
        }
      } else {
        return url.integerPort;
      }
    }
  }
}
