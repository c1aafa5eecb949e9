/** What a user types as the address of a machine, and the host, port and login name it is taken for. */
module HostAddress {
  import opened Wrappers
  import opened Strings
  import opened Whitespace
  import Decimal

  const MAX_HOST_LEN := 255

  datatype Fault = InvalidHost | InvalidPort | PortOutOfRange

  datatype Address = Address(host: string, port: Option<int>, user: Option<string>)

  const SCHEMES := ["vnc://", "ssh://", "tcp://", "rfb://"]

  function First(s: string, c: char): (r: Option<nat>)
    ensures r.Some? ==> r.value < |s| && s[r.value] == c && c !in s[..r.value]
    ensures r.None? ==> c !in s
  {
    if s == [] then None
    else if s[0] == c then Some(0)
    else
      assert forall x :: x in s ==> x == s[0] || x in s[1..];
      match First(s[1..], c)
      case None => None
      case Some(i) => assert s[..i + 1] == [s[0]] + s[1..][..i]; Some(i + 1)
  }

  function Last(s: string, c: char): (r: Option<nat>)
    ensures r.Some? ==> r.value < |s| && s[r.value] == c && c !in s[r.value + 1..]
    ensures r.None? ==> c !in s
  {
    if s == [] then None
    else
      var n := |s| - 1;
      if s[n] == c then Some(n)
      else
        assert s == s[..n] + [s[n]];
        match Last(s[..n], c)
        case None => None
        case Some(i) => assert s[i + 1..] == s[..n][i + 1..] + [s[n]]; Some(i)
  }

  function Count(s: string, c: char): (n: nat)
    ensures n == 0 <==> c !in s
  {
    if s == [] then 0
    else
      assert forall x :: x in s ==> x == s[0] || x in s[1..];
      (if s[0] == c then 1 else 0) + Count(s[1..], c)
  }

  lemma {:induction false} FirstIs(s: string, c: char, n: nat)
    requires n < |s| && s[n] == c && c !in s[..n]
    ensures First(s, c) == Some(n)
  {
    if n > 0 {
      assert s[0] in s[..n];
      assert s[1..][..n - 1] == s[..n][1..];
      FirstIs(s[1..], c, n - 1);
    }
  }

  lemma {:induction false} LastIs(s: string, c: char, n: nat)
    requires n < |s| && s[n] == c && c !in s[n + 1..]
    ensures Last(s, c) == Some(n)
  {
    var k := |s| - 1;
    if n < k {
      assert s[n + 1..][k - n - 1] == s[k];
      assert s[..k][n + 1..] == s[n + 1..][..k - n - 1];
      LastIs(s[..k], c, n);
    }
  }

  lemma {:induction false} CountConcat(a: string, b: string, c: char)
    ensures Count(a + b, c) == Count(a, c) + Count(b, c)
  {
    if a == [] {
      assert a + b == b;
    } else {
      assert (a + b)[1..] == a[1..] + b;
      CountConcat(a[1..], b, c);
    }
  }

  // ---- the stages ----

  function StripScheme(s: string, scheme: string): string {
    if scheme <= s then Trim(s[|scheme|..]) else s
  }

  function StripSchemes(s: string, schemes: seq<string>): string {
    if schemes == [] then s else StripScheme(StripSchemes(s, schemes[..|schemes| - 1]), schemes[|schemes| - 1])
  }

  function CutPath(s: string): (r: string)
    ensures '/' !in r && r <= s
  {
    match First(s, '/') case None => s case Some(i) => s[..i]
  }

  /** The login name before the last `@`, without a password. */
  function UserOf(s: string): Option<string> {
    match Last(s, '@')
    case None => None
    case Some(i) => match First(s[..i], ':') case None => Some(s[..i]) case Some(k) => Some(s[..i][..k])
  }

  function AfterUser(s: string): (r: string)
    ensures '@' !in r
  {
    match Last(s, '@') case None => s case Some(i) => s[i + 1..]
  }

  function PortOf(digits: string): Result<Option<int>, Fault> {
    match Decimal.Parse(digits) case None => Err(PortOutOfRange) case Some(p) => Ok(Some(p))
  }

  /** Host and port of `[v6]` or `[v6]:port`. */
  function SplitBracketed(s: string): Result<(string, Option<int>), Fault> {
    match Find(s, "]:")
    case Some(i) =>
      var p := s[i + 2..];
      if p == [] || !Decimal.AllDigits(p) then Err(InvalidHost)
      else
        (match PortOf(p)
         case Err(e) => Err(e)
         case Ok(port) => if First(s[..i + 1], ']') == Some(i) then Ok((s[..i + 1], port)) else Err(InvalidHost))
    case None => if First(s, ']') == Some(|s| - 1) then Ok((s, None)) else Err(InvalidHost)
  }

  /** Host and port of `host` or `host:port`; a suffix that does not start with a digit stays. */
  function SplitPlain(s: string): Result<(string, Option<int>), Fault> {
    match First(s, ':')
    case None => Ok((s, None))
    case Some(i) =>
      var p := s[i + 1..];
      if Count(s, ':') != 1 then Ok((s, None))
      else if p == [] then Err(InvalidHost)
      else if !Decimal.Digit(p[0]) then Ok((s, None))
      else if !Decimal.AllDigits(p) then Err(InvalidPort)
      else match PortOf(p) case Err(e) => Err(e) case Ok(port) => Ok((s[..i], port))
  }

  function SplitPort(s: string): Result<(string, Option<int>), Fault> {
    if ']' in s then SplitBracketed(s) else SplitPlain(s)
  }

  predicate HostChar(c: char) {
    'a' <= c <= 'z' || 'A' <= c <= 'Z' || '0' <= c <= '9' || c in ".-_:[]%"
  }

  predicate ValidHost(h: string) {
    h != [] && |h| <= MAX_HOST_LEN && !Contains(h, "://") && forall i :: 0 <= i < |h| ==> HostChar(h[i])
  }

  function Checked(host: string, port: Option<int>, user: Option<string>): Result<Address, Fault> {
    if !ValidHost(host) then Err(InvalidHost)
    else if port.Some? && !(1 <= port.value <= 65535) then Err(PortOutOfRange)
    else Ok(Address(host, port, user))
  }

  /** `clean_host` */
  function Cleaned(raw: string): Result<Address, Fault> {
    var s := CutPath(StripSchemes(Trim(raw), SCHEMES));
    match SplitPort(AfterUser(s))
    case Err(e) => Err(e)
    case Ok(hp) => Checked(hp.0, hp.1, UserOf(s))
  }

  method StripAll(s: string) returns (host: string)
    ensures host == StripSchemes(s, SCHEMES)
  {
    hide Trim;
    host := s;
    var schemes := SCHEMES;
    for i := 0 to |schemes|
      invariant host == StripSchemes(s, schemes[..i])
    {
      assert schemes[..i + 1][..i] == schemes[..i];
      if schemes[i] <= host {
        host := Trim(host[|schemes[i]|..]);
      }
    }
    assert schemes[..|schemes|] == schemes;
  }

  /** Split off the path and the login name. */
  method TakeUser(s: string) returns (host: string, user: Option<string>)
    ensures host == AfterUser(CutPath(s)) && user == UserOf(CutPath(s))
  {
    hide First;
    hide Last;
    host, user := s, None;
    var slash := First(host, '/');
    if slash.Some? {
      host := host[..slash.value];
    }
    var at := Last(host, '@');
    if at.Some? {
      var u := host[..at.value];
      var colon := First(u, ':');
      user := Some(if colon.Some? then u[..colon.value] else u);
      host := host[at.value + 1..];
    }
  }

  method TakePort(s: string) returns (host: string, port: Option<int>, fault: Option<Fault>)
    ensures fault.Some? ==> SplitPort(s) == Err(fault.value)
    ensures fault.None? ==> SplitPort(s) == Ok((host, port))
  {
    hide First;
    hide Count;
    hide Find;
    hide Decimal.Parse;
    host, port, fault := s, None, None;
    if ']' in host {
      var idx := Find(host, "]:");
      if idx.Some? {
        var p := host[idx.value + 2..];
        if p == [] || !Decimal.AllDigits(p) {
          return host, port, Some(InvalidHost);
        }
        port := Decimal.Parse(p);
        if port.None? {
          return host, port, Some(PortOutOfRange);
        }
        AtFirst(host, idx.value, "]:");
        host := host[..idx.value + 1];
        assert host[idx.value] == ']';
      }
      var close := First(host, ']');
      if close.Some? && close.value + 1 != |host| {
        return host, port, Some(InvalidHost);
      }
    } else if Count(host, ':') == 1 {
      var colon := First(host, ':');
      var p := host[colon.value + 1..];
      if p == [] {
        return host, port, Some(InvalidHost);
      }
      if Decimal.Digit(p[0]) {
        if !Decimal.AllDigits(p) {
          return host, port, Some(InvalidPort);
        }
        port := Decimal.Parse(p);
        if port.None? {
          return host, port, Some(PortOutOfRange);
        }
        host := host[..colon.value];
      }
    }
  }

  method CleanHost(raw: string) returns (r: Result<Address, Fault>)
    ensures r == Cleaned(raw)
  {
    hide Trim;
    hide StripSchemes;
    hide CutPath;
    hide AfterUser;
    hide UserOf;
    hide SplitPort;
    hide ValidHost;
    var host, port, user, fault;
    host := StripAll(Trim(raw));
    host, user := TakeUser(host);
    host, port, fault := TakePort(host);
    if fault.Some? {
      return Err(fault.value);
    }
    if !ValidHost(host) {
      return Err(InvalidHost);
    }
    if port.Some? && !(1 <= port.value <= 65535) {
      return Err(PortOutOfRange);
    }
    r := Ok(Address(host, port, user));
  }

  // ---- what comes out is left alone when it goes in again ----

  /** The hosts that cleaning leaves as they are. */
  predicate Settled(h: string) {
    && ValidHost(h)
    && (']' in h ==> First(h, ']') == Some(|h| - 1))
    && (']' !in h && Count(h, ':') == 1 ==>
          var k := First(h, ':'); k.Some? && k.value + 1 < |h| && !Decimal.Digit(h[k.value + 1]))
  }

  lemma SplitGivesSettled(s: string)
    requires SplitPort(s).Ok? && ValidHost(SplitPort(s).value.0)
    ensures Settled(SplitPort(s).value.0)
  {
    hide First;
    hide Count;
    hide Find;
    hide ValidHost;
    var h := SplitPort(s).value.0;
    if ']' in s {
      assert First(h, ']') == Some(|h| - 1);
    } else if h != s {
      assert Count(h, ':') == 0;
    }
  }

  lemma AcceptedIsSettled(raw: string)
    requires Cleaned(raw).Ok?
    ensures Settled(Cleaned(raw).value.host)
  {
    hide Settled;
    hide Trim;
    hide StripSchemes;
    hide SplitPort;
    hide ValidHost;
    SplitGivesSettled(AfterUser(CutPath(StripSchemes(Trim(raw), SCHEMES))));
  }

  lemma SplitSettled(h: string)
    requires Settled(h)
    ensures SplitPort(h) == Ok((h, None))
  {
    hide First;
    hide Count;
    hide Find;
    hide ValidHost;
    if ']' in h {
      forall j | 0 <= j < |h| ensures !At(h, j, "]:") {
        if j < |h| - 1 {
          assert h[j] in h[..|h| - 1];
          NotAt(h, j, "]:", 0);
        } else {
          NotAt(h, j, "]:", 1);
        }
      }
    }
  }

  lemma HostCharsPlain(h: string, c: char)
    requires ValidHost(h) && (c == '/' || c == '@')
    ensures h != [] && c !in h && !White(h[0]) && !White(h[|h| - 1])
  {
  }

  lemma StripFour(s: string)
    ensures StripSchemes(s, SCHEMES) ==
            StripScheme(StripScheme(StripScheme(StripScheme(s, "vnc://"), "ssh://"), "tcp://"), "rfb://")
  {
    hide StripScheme;
    var one, two, three := ["vnc://"], ["vnc://", "ssh://"], ["vnc://", "ssh://", "tcp://"];
    assert SCHEMES[..3] == three && three[..2] == two && two[..1] == one && one[..0] == [];
    assert StripSchemes(s, SCHEMES) == StripScheme(StripSchemes(s, three), "rfb://");
    assert StripSchemes(s, three) == StripScheme(StripSchemes(s, two), "tcp://");
    assert StripSchemes(s, two) == StripScheme(StripSchemes(s, one), "ssh://");
    assert StripSchemes(s, one) == StripScheme(s, "vnc://");
  }

  /** Text that goes on after `core` goes on with a path. */
  predicate Carries(s: string, core: string) {
    '/' !in core && core <= s && (s == core || s[|core|] == '/')
  }

  /** An address proper: something, without white space around it, that is not the start of a scheme. */
  predicate Core(core: string) {
    && core != [] && !White(core[0]) && !White(core[|core| - 1])
    && core != "vnc:" && core != "ssh:" && core != "tcp:" && core != "rfb:"
  }

  lemma CarriesCut(s: string, core: string)
    requires Carries(s, core)
    ensures CutPath(s) == core
  {
    hide First;
    if s != core {
      assert s[..|core|] == core;
      FirstIs(s, '/', |core|);
    } else {
      assert First(s, '/') == None;
    }
  }

  lemma CarriesTrim(s: string, core: string)
    requires Carries(s, core) && Core(core)
    ensures Carries(Trim(s), core)
  {
    hide TrimEnd;
    assert s[0] == core[0] && s[|core| - 1] == core[|core| - 1];
    assert TrimStart(s) == s;
    var t := TrimEnd(s);
    assert |t| >= |core|;
    assert t[..|core|] == s[..|core|];
    if s != core {
      assert !White(s[|core|]);
    }
  }

  lemma CarriesStrip(s: string, core: string, scheme: string)
    requires Carries(s, core) && Core(core) && scheme in SCHEMES
    ensures StripScheme(s, scheme) == s
  {
    hide Trim;
    var n := |core|;
    SchemeParts(scheme);
    if n >= 5 {
      assert core[4] in core && s[4] == core[4];
      NotPrefix(s, scheme, 4);
    } else if s == core {
      NotPrefix(s, scheme, 4);
    } else if n == 4 {
      assert s[..4] == core;
      NotPrefixPart(s, scheme, 4);
    } else {
      NotPrefix(s, scheme, n);
    }
  }

  lemma SchemeParts(scheme: string)
    requires scheme in SCHEMES
    ensures |scheme| == 6 && scheme[4] == '/' && '/' !in scheme[..4]
    ensures scheme[..4] == "vnc:" || scheme[..4] == "ssh:" || scheme[..4] == "tcp:" || scheme[..4] == "rfb:"
    ensures forall k :: 0 <= k < 4 ==> scheme[k] != '/'
  {
  }

  lemma CarriesThrough(s: string, core: string)
    requires Carries(s, core) && Core(core)
    ensures CutPath(StripSchemes(s, SCHEMES)) == core
  {
    hide CutPath;
    hide Carries;
    hide StripSchemes;
    hide StripScheme;
    StripFour(s);
    CarriesStrip(s, core, "vnc://");
    CarriesStrip(s, core, "ssh://");
    CarriesStrip(s, core, "tcp://");
    CarriesStrip(s, core, "rfb://");
    CarriesCut(s, core);
  }

  lemma SettledCore(h: string)
    requires Settled(h)
    ensures Core(h) && Carries(h, h)
  {
    hide ValidHost;
    HostCharsPlain(h, '/');
    NotScheme(h, "vnc:");
    NotScheme(h, "ssh:");
    NotScheme(h, "tcp:");
    NotScheme(h, "rfb:");
  }

  lemma NotScheme(h: string, start: string)
    requires Settled(h) && |start| == 4 && start[3] == ':'
    requires ':' !in start[..3] && ']' !in start
    ensures h != start
  {
    hide Settled;
    SchemeNotSettled(start);
  }

  lemma SchemeNotSettled(start: string)
    requires |start| == 4 && start[3] == ':' && ':' !in start[..3] && ']' !in start
    ensures !Settled(start)
  {
    hide ValidHost;
    hide First;
    assert start == start[..3] + ":";
    CountConcat(start[..3], ":", ':');
    assert ":"[1..] == "";
    FirstIs(start, ':', 3);
  }

  lemma CleanedCore(raw: string, core: string, host: string, port: Option<int>)
    requires Carries(raw, core) && Core(core)
    requires SplitPort(AfterUser(core)) == Ok((host, port)) && ValidHost(host) && (port.Some? ==> 1 <= port.value <= 65535)
    ensures Cleaned(raw) == Ok(Address(host, port, UserOf(core)))
  {
    hide Trim;
    hide StripSchemes;
    hide CutPath;
    hide SplitPort;
    hide AfterUser;
    hide UserOf;
    hide Carries;
    hide Core;
    hide ValidHost;
    CarriesTrim(raw, core);
    CarriesThrough(Trim(raw), core);
  }

  /** A settled host is its own address. */
  lemma SettledIsFixed(h: string)
    requires Settled(h)
    ensures Cleaned(h) == Ok(Address(h, None, None))
  {
    hide Last;
    hide SplitPort;
    hide Settled;
    hide Core;
    hide Cleaned;
    assert ValidHost(h) by { SettledIsValid(h); }
    HostCharsPlain(h, '@');
    SettledCore(h);
    SplitSettled(h);
    CleanedCore(h, h, h, None);
  }

  lemma SettledIsValid(h: string)
    requires Settled(h)
    ensures ValidHost(h)
  {
  }

  /** Cleaning is idempotent: an accepted host, cleaned again, is returned with no port and no user. */
  lemma Idempotent(raw: string)
    requires Cleaned(raw).Ok?
    ensures Cleaned(Cleaned(raw).value.host) == Ok(Address(Cleaned(raw).value.host, None, None))
  {
    hide Cleaned;
    hide Settled;
    AcceptedIsSettled(raw);
    SettledIsFixed(Cleaned(raw).value.host);
  }

  // ---- parsing inverts printing ----

  /** `user@host:port` */
  function PrintAddress(a: Address): string {
    (if a.user.Some? then a.user.value + "@" else "") + PrintHostPort(a.host, a.port)
  }

  function PrintHostPort(host: string, port: Option<int>): string {
    if port.Some? then host + ":" + Decimal.Print(port.value) else host
  }

  /** The addresses that can be written down: with a port the host has no colon outside brackets. */
  predicate Printable(a: Address) {
    && Settled(a.host)
    && (a.port.Some? ==> 1 <= a.port.value <= 65535 && (']' in a.host || ':' !in a.host))
    && (a.user.Some? ==>
          var u := a.user.value; '/' !in u && ':' !in u && (u != [] ==> !White(u[0])))
  }

  lemma SplitHostPort(host: string, p: int)
    requires Settled(host) && 1 <= p <= 65535 && (']' in host || ':' !in host)
    ensures SplitPort(PrintHostPort(host, Some(p))) == Ok((host, Some(p)))
  {
    if ']' in host { SplitBracketPort(host, p); } else { SplitPlainPort(host, p); }
  }

  lemma SplitPlainPort(host: string, p: int)
    requires ']' !in host && ':' !in host && 1 <= p <= 65535
    ensures SplitPort(PrintHostPort(host, Some(p))) == Ok((host, Some(p)))
  {
    hide First;
    hide Find;
    hide Decimal.Print;
    hide Decimal.Parse;
    hide Count;
    var d := Decimal.Print(p);
    var s := host + ":" + d;
    Decimal.ParsePrint(p);
    assert s[|host|] == ':' && s[..|host|] == host && s[|host| + 1..] == d;
    FirstIs(s, ':', |host|);
    OneColon(host, d);
    forall i | 0 <= i < |s| ensures s[i] != ']' {
      if i < |host| { assert s[i] in host; } else if i > |host| { assert s[i] == d[i - |host| - 1]; }
    }
  }

  lemma OneColon(host: string, d: string)
    requires ':' !in host && Decimal.AllDigits(d)
    ensures Count(host + ":" + d, ':') == 1
  {
    CountConcat(host + ":", d, ':');
    CountConcat(host, ":", ':');
    assert ":"[1..] == "";
  }

  lemma SplitBracketPort(host: string, p: int)
    requires First(host, ']') == Some(|host| - 1) && host != [] && 1 <= p <= 65535
    ensures SplitPort(PrintHostPort(host, Some(p))) == Ok((host, Some(p)))
  {
    hide First;
    hide Find;
    hide Decimal.Print;
    hide Decimal.Parse;
    var d := Decimal.Print(p);
    var n := |host| - 1;
    var s := host + ":" + d;
    Decimal.ParsePrint(p);
    assert s[n] == ']' && s[n + 1] == ':' && s[..n + 1] == host && s[n + 2..] == d;
    BracketColon(host, d);
  }

  lemma BracketColon(host: string, d: string)
    requires host != [] && First(host, ']') == Some(|host| - 1)
    ensures Find(host + ":" + d, "]:") == Some(|host| - 1)
  {
    hide First;
    hide Find;
    var s, n := host + ":" + d, |host| - 1;
    assert At(s, n, "]:");
    forall j | 0 <= j < n ensures !At(s, j, "]:") {
      assert host[j] in host[..n];
      NotAt(s, j, "]:", 0);
    }
    assert Find(s, "]:") == Some(n);
  }

  lemma PrintableHost(a: Address)
    requires Printable(a)
    ensures Settled(a.host) && ValidHost(a.host) && (a.port.Some? ==> 1 <= a.port.value <= 65535)
  {
  }

  lemma HostPortChars(a: Address)
    requires Printable(a)
    ensures var hp := PrintHostPort(a.host, a.port);
            && hp != [] && '/' !in hp && '@' !in hp && !White(hp[0]) && !White(hp[|hp| - 1])
            && (a.port.Some? ==> hp[|hp| - 1] != ':')
  {
    hide Decimal.Print;
    hide First;
    hide ValidHost;
    PrintableHost(a);
    HostCharsPlain(a.host, '/');
    HostCharsPlain(a.host, '@');
  }

  lemma PrintedCore(a: Address)
    requires Printable(a)
    ensures Core(PrintAddress(a)) && '/' !in PrintAddress(a)
  {
    hide PrintHostPort;
    hide Settled;
    HostPortChars(a);
    var core := PrintAddress(a);
    if a.user.Some? {
      assert core[|a.user.value|] == '@';
      assert '@' in core && '@' !in "vnc:" && '@' !in "ssh:" && '@' !in "tcp:" && '@' !in "rfb:";
    } else if a.port.None? {
      SettledCore(a.host);
      HostPortBare(a.host);
    }
  }

  lemma HostPortBare(host: string)
    ensures PrintHostPort(host, None) == host
  {
  }

  lemma CarriesTail(core: string, tail: string)
    requires '/' !in core && (tail == "" || tail[0] == '/')
    ensures Carries(core + tail, core)
  {
  }

  lemma PrintedSplits(a: Address)
    requires Printable(a)
    ensures SplitPort(AfterUser(PrintAddress(a))) == Ok((a.host, a.port)) && UserOf(PrintAddress(a)) == a.user
  {
    hide PrintHostPort;
    hide Settled;
    hide SplitPort;
    hide First;
    hide Last;
    HostPortChars(a);
    var hp := PrintHostPort(a.host, a.port);
    var core := PrintAddress(a);
    if a.user.Some? {
      var u := a.user.value;
      assert core == u + "@" + hp && core[|u|] == '@' && core[..|u|] == u && core[|u| + 1..] == hp;
      LastIs(core, '@', |u|);
      assert First(u, ':') == None;
    } else {
      assert core == hp;
    }
    if a.port.Some? {
      SplitHostPort(a.host, a.port.value);
    } else {
      SplitSettled(a.host);
      HostPortBare(a.host);
    }
  }

  lemma OtherScheme(scheme: string, t: string, other: string)
    requires scheme in SCHEMES && other in SCHEMES && scheme != other
    ensures StripScheme(scheme + t, other) == scheme + t
  {
    hide Trim;
    assert (scheme + t)[0] == scheme[0];
    NotPrefix(scheme + t, other, 0);
  }

  lemma OwnScheme(scheme: string, t: string)
    ensures StripScheme(scheme + t, scheme) == Trim(t)
  {
    hide Trim;
    assert (scheme + t)[|scheme|..] == t;
  }

  /** Trimming text that starts with a scheme trims what follows the address. */
  lemma TrimScheme(scheme: string, t: string, core: string) returns (u: string)
    requires scheme in SCHEMES && Carries(t, core) && Core(core)
    ensures Trim(scheme + t) == scheme + u && Carries(u, core)
  {
    hide TrimEnd;
    var s := scheme + t;
    assert !White(s[0]);
    assert TrimStart(s) == s;
    var n := |scheme| + |core|;
    assert s[n - 1] == core[|core| - 1];
    TrimEndKeeps(s, n);
    if t != core {
      assert s[n] == t[|core|] == '/';
      TrimEndKeeps(s, n + 1);
    }
    var k := |TrimEnd(s)| - |scheme|;
    u := t[..k];
    CarriesFront(t, core, k);
    assert s[..|scheme| + k] == scheme + u;
  }

  lemma TrimEndKeeps(s: string, n: nat)
    requires 0 < n <= |s| && !White(s[n - 1])
    ensures n <= |TrimEnd(s)| <= |s| && TrimEnd(s) == s[..|TrimEnd(s)|]
  {
    hide TrimEnd;
  }

  lemma CarriesFront(t: string, core: string, k: nat)
    requires Carries(t, core) && |core| <= k <= |t| && (t != core ==> k > |core|)
    ensures Carries(t[..k], core)
  {
    assert t[..k][..|core|] == t[..|core|];
  }

  lemma StripOwn(scheme: string, u: string, core: string)
    requires scheme in SCHEMES && Carries(u, core) && Core(core)
    ensures CutPath(StripSchemes(scheme + u, SCHEMES)) == core
  {
    hide StripSchemes;
    hide StripScheme;
    hide CutPath;
    hide Core;
    hide Carries;
    hide Trim;
    var t := Trim(u);
    StripFour(scheme + u);
    OwnScheme(scheme, u);
    CarriesTrim(u, core);
    CarriesCut(t, core);
    forall x | x in SCHEMES ensures StripScheme(t, x) == t { CarriesStrip(t, core, x); }
    forall x | x in SCHEMES && x != scheme ensures StripScheme(scheme + u, x) == scheme + u { OtherScheme(scheme, u, x); }
    assert "vnc://" in SCHEMES && "ssh://" in SCHEMES && "tcp://" in SCHEMES && "rfb://" in SCHEMES;
    assert scheme == "vnc://" || scheme == "ssh://" || scheme == "tcp://" || scheme == "rfb://";
  }

  lemma CleanedScheme(scheme: string, t: string, core: string, host: string, port: Option<int>)
    requires scheme in SCHEMES && Carries(t, core) && Core(core)
    requires SplitPort(AfterUser(core)) == Ok((host, port)) && ValidHost(host) && (port.Some? ==> 1 <= port.value <= 65535)
    ensures Cleaned(scheme + t) == Ok(Address(host, port, UserOf(core)))
  {
    hide Trim;
    hide StripSchemes;
    hide CutPath;
    hide SplitPort;
    hide AfterUser;
    hide UserOf;
    hide Carries;
    hide Core;
    hide ValidHost;
    var u := TrimScheme(scheme, t, core);
    StripOwn(scheme, u, core);
  }

  /** Whatever scheme and path are put around a printable address, it is read back as it was. */
  lemma ParsePrinted(scheme: string, a: Address, path: Option<string>)
    requires Printable(a) && scheme in ["", "vnc://", "ssh://", "tcp://", "rfb://"]
    ensures Cleaned(scheme + PrintAddress(a) + (if path.Some? then "/" + path.value else "")) == Ok(a)
  {
    hide Printable;
    hide Cleaned;
    hide PrintAddress;
    hide Core;
    hide Carries;
    hide SplitPort;
    var core := PrintAddress(a);
    var tail := if path.Some? then "/" + path.value else "";
    PrintedCore(a);
    CarriesTail(core, tail);
    PrintedSplits(a);
    assert ValidHost(a.host) && (a.port.Some? ==> 1 <= a.port.value <= 65535) by { PrintableHost(a); }
    if scheme == "" {
      assert scheme + core + tail == core + tail;
      CleanedCore(core + tail, core, a.host, a.port);
    } else {
      assert scheme + core + tail == scheme + (core + tail);
      CleanedScheme(scheme, core + tail, core, a.host, a.port);
    }
  }

  /** A password between the login name and the last `@` is dropped, whatever is in it but a slash. */
  lemma PasswordIsDropped(scheme: string, a: Address, password: string, path: Option<string>)
    requires Printable(a) && a.user.Some? && '/' !in password && scheme in ["", "vnc://", "ssh://", "tcp://", "rfb://"]
    ensures Cleaned(scheme + (a.user.value + ":" + password + "@" + PrintHostPort(a.host, a.port))
                    + (if path.Some? then "/" + path.value else "")) == Ok(a)
  {
    hide Cleaned;
    hide Core;
    hide Carries;
    hide SplitPort;
    hide PrintHostPort;
    hide Settled;
    var core := a.user.value + ":" + password + "@" + PrintHostPort(a.host, a.port);
    var tail := if path.Some? then "/" + path.value else "";
    PasswordSplits(a, password);
    CarriesTail(core, tail);
    assert ValidHost(a.host) && (a.port.Some? ==> 1 <= a.port.value <= 65535) by { PrintableHost(a); }
    if scheme == "" {
      assert scheme + core + tail == core + tail;
      CleanedCore(core + tail, core, a.host, a.port);
    } else {
      assert scheme + core + tail == scheme + (core + tail);
      CleanedScheme(scheme, core + tail, core, a.host, a.port);
    }
  }

  lemma PasswordSplits(a: Address, password: string)
    requires Printable(a) && a.user.Some? && '/' !in password
    ensures var core := a.user.value + ":" + password + "@" + PrintHostPort(a.host, a.port);
            && Core(core) && '/' !in core && UserOf(core) == a.user
            && SplitPort(AfterUser(core)) == Ok((a.host, a.port))
  {
    hide PrintHostPort;
    hide Settled;
    hide SplitPort;
    hide UserOf;
    hide AfterUser;
    hide Core;
    HostPortChars(a);
    PrintedSplits(a);
    var u, hp := a.user.value, PrintHostPort(a.host, a.port);
    AfterLast(u, hp);
    AfterLast(u + ":" + password, hp);
    UserBefore(u, password, hp);
    PasswordCore(u, password, hp);
    assert PrintAddress(a) == u + "@" + hp;
  }

  lemma PasswordCore(u: string, password: string, hp: string)
    requires '/' !in u && (u != [] ==> !White(u[0])) && '/' !in password
    requires hp != [] && '/' !in hp && !White(hp[|hp| - 1])
    ensures var core := u + ":" + password + "@" + hp; Core(core) && '/' !in core
  {
    var core := u + ":" + password + "@" + hp;
    assert core[|u| + 1 + |password|] == '@';
    assert '@' in core && '@' !in "vnc:" && '@' !in "ssh:" && '@' !in "tcp:" && '@' !in "rfb:";
    assert core[|core| - 1] == hp[|hp| - 1];
    assert core[0] == if u == [] then ':' else u[0];
  }

  lemma UserBefore(u: string, password: string, hp: string)
    requires ':' !in u && '@' !in hp
    ensures UserOf(u + ":" + password + "@" + hp) == Some(u)
  {
    hide First;
    hide Last;
    var front := u + ":" + password;
    var core := front + "@" + hp;
    assert core[|front|] == '@' && core[..|front|] == front && core[|front| + 1..] == hp;
    LastIs(core, '@', |front|);
    assert front[|u|] == ':' && front[..|u|] == u;
    FirstIs(front, ':', |u|);
  }

  lemma AfterLast(u: string, hp: string)
    requires '@' !in hp
    ensures AfterUser(u + "@" + hp) == hp
  {
    hide Last;
    var s := u + "@" + hp;
    assert s[|u|] == '@' && s[|u| + 1..] == hp;
    LastIs(s, '@', |u|);
  }

  /** White space around an address, and between a scheme and it, is passed over. */
  lemma PaddedIsCleaned(p: string, scheme: string, q: string, a: Address, r: string)
    requires Printable(a) && Blank(p) && Blank(q) && Blank(r) && scheme in ["", "vnc://", "ssh://", "tcp://", "rfb://"]
    ensures Cleaned(p + (scheme + q + PrintAddress(a)) + r) == Ok(a)
  {
    hide Cleaned;
    hide Printable;
    hide PrintAddress;
    hide Core;
    hide SplitPort;
    hide Blank;
    var core := PrintAddress(a);
    PrintedCore(a);
    PrintedSplits(a);
    assert ValidHost(a.host) && (a.port.Some? ==> 1 <= a.port.value <= 65535) by { PrintableHost(a); }
    if scheme == "" {
      assert p + (scheme + q + core) + r == (p + q) + core + r;
      BlankConcat(p, q);
      TrimCore(p + q, core, r);
      BareStrips(core);
    } else {
      TrimSchemeCore(p, scheme, q, core, r);
      SchemeStrips(scheme, q, core);
    }
    CleanedWhen(p + (scheme + q + core) + r, core, a);
  }

  lemma BlankConcat(p: string, q: string)
    requires Blank(p) && Blank(q)
    ensures Blank(p + q)
  {
  }

  lemma TrimCore(p: string, core: string, r: string)
    requires Blank(p) && Blank(r) && Core(core)
    ensures Trim(p + core + r) == core
  {
    hide Trim;
    hide Blank;
    TrimBlanks(p, core, r);
  }

  lemma TrimSchemeCore(p: string, scheme: string, q: string, core: string, r: string)
    requires Blank(p) && Blank(r) && Core(core) && scheme in SCHEMES
    ensures Trim(p + (scheme + q + core) + r) == scheme + q + core
  {
    hide Trim;
    hide Blank;
    var x := scheme + q + core;
    assert x[0] == scheme[0] && !White(scheme[0]) && x[|x| - 1] == core[|core| - 1];
    TrimBlanks(p, x, r);
  }

  lemma BareStrips(core: string)
    requires Core(core) && '/' !in core
    ensures StripSchemes(core, SCHEMES) == core && CutPath(core) == core
  {
    hide Core;
    hide StripScheme;
    hide StripSchemes;
    hide CutPath;
    hide Carries;
    StripFour(core);
    BareCarries(core);
    forall x | x in SCHEMES ensures StripScheme(core, x) == core { CarriesStrip(core, core, x); }
    assert "vnc://" in SCHEMES && "ssh://" in SCHEMES && "tcp://" in SCHEMES && "rfb://" in SCHEMES;
    CarriesCut(core, core);
  }

  lemma SchemeStrips(scheme: string, q: string, core: string)
    requires scheme in SCHEMES && Blank(q) && Core(core) && '/' !in core
    ensures StripSchemes(scheme + q + core, SCHEMES) == core && CutPath(core) == core
  {
    hide Core;
    hide StripScheme;
    hide StripSchemes;
    hide CutPath;
    hide Carries;
    hide Trim;
    hide Blank;
    var t := q + core;
    assert scheme + q + core == scheme + t;
    StripFour(scheme + t);
    OwnScheme(scheme, t);
    assert Trim(t) == core by { NoBlank(); TrimCore(q, core, ""); assert q + core + "" == t; }
    BareStrips(core);
    BareCarries(core);
    forall x | x in SCHEMES ensures StripScheme(core, x) == core { CarriesStrip(core, core, x); }
    forall x | x in SCHEMES && x != scheme ensures StripScheme(scheme + t, x) == scheme + t { OtherScheme(scheme, t, x); }
    assert "vnc://" in SCHEMES && "ssh://" in SCHEMES && "tcp://" in SCHEMES && "rfb://" in SCHEMES;
    assert scheme == "vnc://" || scheme == "ssh://" || scheme == "tcp://" || scheme == "rfb://";
  }

  lemma NoBlank()
    ensures Blank("")
  {
  }

  lemma CleanedWhen(raw: string, core: string, a: Address)
    requires CutPath(StripSchemes(Trim(raw), SCHEMES)) == core
    requires SplitPort(AfterUser(core)) == Ok((a.host, a.port)) && UserOf(core) == a.user
    requires ValidHost(a.host) && (a.port.Some? ==> 1 <= a.port.value <= 65535)
    ensures Cleaned(raw) == Ok(a)
  {
    hide Trim;
    hide StripSchemes;
    hide CutPath;
    hide SplitPort;
    hide AfterUser;
    hide UserOf;
    hide ValidHost;
  }

  // ---- every accepted address can be written down ----

  lemma TrimmedStart(s: string)
    ensures Trim(s) != [] ==> !White(Trim(s)[0])
  {
    hide TrimStart;
    hide TrimEnd;
    var t := TrimStart(s);
    assert TrimEnd(t) <= t;
  }

  lemma StrippedStart(s: string, scheme: string)
    requires s != [] ==> !White(s[0])
    ensures var t := StripScheme(s, scheme); t != [] ==> !White(t[0])
  {
    hide Trim;
    TrimmedStart(s[if scheme <= s then |scheme| else 0..]);
  }

  lemma SplitGivesPrintable(s: string)
    requires SplitPort(s).Ok? && SplitPort(s).value.1.Some?
    ensures var h := SplitPort(s).value.0; ']' in h || ':' !in h
  {
    hide First;
    hide Count;
    hide Find;
    if ']' in s {
      var h := SplitPort(s).value.0;
      assert First(h, ']') == Some(|h| - 1);
    }
  }

  lemma AcceptedUser(raw: string)
    requires Cleaned(raw).Ok? && Cleaned(raw).value.user.Some?
    ensures var u := Cleaned(raw).value.user.value; '/' !in u && ':' !in u && (u != [] ==> !White(u[0]))
  {
    hide Trim;
    hide StripSchemes;
    hide StripScheme;
    hide SplitPort;
    hide ValidHost;
    hide First;
    hide Last;
    hide AfterUser;
    var t := Trim(raw);
    TrimmedStart(raw);
    StripFour(t);
    StrippedStart(t, "vnc://");
    StrippedStart(StripScheme(t, "vnc://"), "ssh://");
    StrippedStart(StripScheme(StripScheme(t, "vnc://"), "ssh://"), "tcp://");
    StrippedStart(StripScheme(StripScheme(StripScheme(t, "vnc://"), "ssh://"), "tcp://"), "rfb://");
    UserChars(StripSchemes(t, SCHEMES));
  }

  lemma UserChars(s: string)
    requires (s != [] ==> !White(s[0])) && UserOf(CutPath(s)).Some?
    ensures var u := UserOf(CutPath(s)).value; '/' !in u && ':' !in u && (u != [] ==> !White(u[0]))
  {
    hide First;
    hide Last;
    var c := CutPath(s);
    var u := UserOf(c).value;
    assert u <= c <= s;
    forall x | x in u ensures x in c {
      var i :| 0 <= i < |u| && u[i] == x;
      assert c[i] == x;
    }
  }

  /** What an address was taken for can be written down, and is taken for the same again. */
  lemma AcceptedReprints(raw: string)
    requires Cleaned(raw).Ok?
    ensures Cleaned(PrintAddress(Cleaned(raw).value)) == Cleaned(raw)
  {
    hide Trim;
    hide StripSchemes;
    hide SplitPort;
    hide ValidHost;
    hide CutPath;
    hide AfterUser;
    hide UserOf;
    hide PrintAddress;
    hide Settled;
    var a := Cleaned(raw).value;
    AcceptedIsSettled(raw);
    if a.user.Some? { AcceptedUser(raw); }
    if a.port.Some? { SplitGivesPrintable(AfterUser(CutPath(StripSchemes(Trim(raw), SCHEMES)))); }
    ParsePrinted("", a, None);
    assert "" + PrintAddress(a) + "" == PrintAddress(a);
  }

  // ---- which accepted hosts keep a colon ----

  /** What is left of the text when scheme, path and login name are gone. */
  function AddressText(raw: string): string {
    AfterUser(CutPath(StripSchemes(Trim(raw), SCHEMES)))
  }

  /** Outside brackets: several colons, or one that no digit follows. */
  predicate KeepsColon(t: string) {
    || Count(t, ':') >= 2
    || (Count(t, ':') == 1 && match First(t, ':') case None => false case Some(k) => k + 1 < |t| && !Decimal.Digit(t[k + 1]))
  }

  lemma SplitKeepsColon(t: string)
    requires SplitPort(t).Ok?
    ensures ']' !in t ==> (':' in SplitPort(t).value.0 <==> KeepsColon(t))
    ensures ']' in t ==> First(t, ']').Some? && SplitPort(t).value.0 == t[..First(t, ']').value + 1]
  {
    hide First;
    hide Count;
    hide Find;
    hide Decimal.Parse;
    if ']' in t {
      if Find(t, "]:").Some? {
        var i := Find(t, "]:").value;
        AtFirst(t, i, "]:");
        FirstPrefix(t, ']', i);
      }
    } else if First(t, ':').Some? {
      var k := First(t, ':').value;
      assert t[k] == ':' && ':' in t;
    }
  }

  lemma FirstPrefix(t: string, c: char, i: nat)
    requires i < |t| && t[i] == c && First(t[..i + 1], c) == Some(i)
    ensures First(t, c) == Some(i)
  {
    hide First;
    assert t[..i + 1][..i] == t[..i];
    FirstIs(t, c, i);
  }

  /**
   An accepted host has a colon exactly when it was bracketed with one inside, or the text had
   several colons, or a single one that was not followed by a digit and so not taken for a port.
   */
  lemma AcceptedKeepsColon(raw: string)
    requires Cleaned(raw).Ok?
    ensures var t, h := AddressText(raw), Cleaned(raw).value.host;
            && (']' !in t ==> (':' in h <==> KeepsColon(t)))
            && (']' in t ==> First(t, ']').Some? && h == t[..First(t, ']').value + 1])
  {
    hide Trim;
    hide StripSchemes;
    hide SplitPort;
    hide ValidHost;
    hide KeepsColon;
    hide CutPath;
    hide AfterUser;
    hide UserOf;
    hide First;
    SplitKeepsColon(AddressText(raw));
  }

  /** A suffix that does not look like a port is taken for part of the host. */
  lemma ColonHostAccepted()
    ensures Cleaned("host:abc") == Ok(Address("host:abc", None, None))
  {
    hide Cleaned;
    hide Find;
    hide First;
    hide Count;
    var h := "host:abc";
    assert h == "host" + ":" + "abc" && h[..4] == "host" && h[5] == 'a';
    FirstIs(h, ':', 4);
    CountConcat("host" + ":", "abc", ':');
    CountConcat("host", ":", ':');
    assert Count("host", ':') == 0 && Count("abc", ':') == 0 && Count(":", ':') == 1 by { OneColonOnly(); }
    forall j | 0 <= j < |h| ensures !At(h, j, "://") {
      if j == 4 { NotAt(h, j, "://", 1); } else { NotAt(h, j, "://", 0); }
    }
    SettledIsFixed(h);
  }

  lemma OneColonOnly()
    ensures Count(":", ':') == 1
  {
    assert ":"[1..] == "";
  }

  // ---- plain hosts and their ports ----

  /** A DNS name or an IPv4 address. */
  predicate PlainHost(h: string) {
    && 1 <= |h| <= 255
    && forall i :: 0 <= i < |h| ==>
         'a' <= h[i] <= 'z' || 'A' <= h[i] <= 'Z' || '0' <= h[i] <= '9' || h[i] == '.' || h[i] == '-' || h[i] == '_'
  }

  lemma PlainHostIsSettled(h: string)
    requires PlainHost(h)
    ensures Settled(h) && ':' !in h && ']' !in h
  {
    hide First;
    NoSchemeInside(h);
  }

  lemma NoSchemeInside(h: string)
    requires ':' !in h
    ensures !Contains(h, "://")
  {
    forall j | 0 <= j < |h| ensures !At(h, j, "://") {
      NotAt(h, j, "://", 0);
    }
  }

  /** A name is accepted as it stands, alone or with a port, exactly for the ports there are. */
  lemma PlainHostAccepted(h: string, p: nat)
    requires PlainHost(h)
    ensures Cleaned(h) == Ok(Address(h, None, None))
    ensures Cleaned(h + ":" + Decimal.Print(p)) ==
            if 1 <= p <= 65535 then Ok(Address(h, Some(p), None)) else Err(PortOutOfRange)
  {
    hide Settled;
    hide PlainHost;
    hide Cleaned;
    hide PrintAddress;
    hide Decimal.Print;
    PlainHostIsSettled(h);
    var a := Address(h, None, None);
    PrintsAs(a);
    assert "" + h + "" == h;
    ParsePrinted("", a, None);
    if 1 <= p <= 65535 {
      var b := Address(h, Some(p), None);
      PrintsAs(b);
      assert "" + (h + ":" + Decimal.Print(p)) + "" == h + ":" + Decimal.Print(p);
      ParsePrinted("", b, None);
    } else {
      PortRefused(h, p);
    }
  }

  lemma PrintsAs(a: Address)
    requires a.user.None?
    ensures PrintAddress(a) == if a.port.Some? then a.host + ":" + Decimal.Print(a.port.value) else a.host
  {
  }

  lemma PortRefused(h: string, p: nat)
    requires PlainHost(h) && !(1 <= p <= 65535)
    ensures Cleaned(h + ":" + Decimal.Print(p)) == Err(PortOutOfRange)
  {
    hide Trim;
    hide StripSchemes;
    hide CutPath;
    hide SplitPort;
    hide AfterUser;
    hide UserOf;
    hide PlainHost;
    hide ValidHost;
    hide Decimal.Print;
    var s := h + ":" + Decimal.Print(p);
    PlainHostIsSettled(h);
    BareStages(h, Decimal.Print(p));
    PortSplit(h, p);
  }

  /** Nothing is stripped from a name and its port. */
  lemma BareStages(h: string, d: string)
    requires PlainHost(h) && d != "" && Decimal.AllDigits(d)
    ensures var s := h + ":" + d; AfterUser(CutPath(StripSchemes(Trim(s), SCHEMES))) == s
  {
    hide StripSchemes;
    hide StripScheme;
    hide CutPath;
    hide Core;
    hide Carries;
    hide Trim;
    hide AfterUser;
    hide Last;
    var s := h + ":" + d;
    BareCore(h, d);
    BareTrim(s);
    StripFour(s);
    BareCarries(s);
    forall x | x in SCHEMES ensures StripScheme(s, x) == s { CarriesStrip(s, s, x); }
    assert "vnc://" in SCHEMES && "ssh://" in SCHEMES && "tcp://" in SCHEMES && "rfb://" in SCHEMES;
    CarriesCut(s, s);
    NoUser(s);
  }

  lemma BareCore(h: string, d: string)
    requires PlainHost(h) && d != "" && Decimal.AllDigits(d)
    ensures var s := h + ":" + d; Core(s) && '/' !in s && '@' !in s
  {
    var s := h + ":" + d;
    assert s[0] == h[0] && s[|s| - 1] == d[|d| - 1];
  }

  lemma BareTrim(s: string)
    requires Core(s)
    ensures Trim(s) == s
  {
    assert TrimStart(s) == s;
  }

  lemma BareCarries(s: string)
    requires '/' !in s
    ensures Carries(s, s)
  {
  }

  lemma NoUser(s: string)
    requires '@' !in s
    ensures AfterUser(s) == s
  {
    hide Last;
  }

  lemma PortSplit(h: string, p: nat)
    requires ':' !in h && ']' !in h && ValidHost(h) && !(1 <= p <= 65535)
    ensures var r := SplitPort(h + ":" + Decimal.Print(p)); r == Err(PortOutOfRange) || r == Ok((h, Some(p)))
  {
    hide First;
    hide Count;
    hide ValidHost;
    hide Decimal.Print;
    hide Decimal.Digits;
    hide Decimal.Value;
    var d := Decimal.Print(p);
    var s := h + ":" + d;
    assert s[|h|] == ':' && s[..|h|] == h && s[|h| + 1..] == d;
    FirstIs(s, ':', |h|);
    OneColon(h, d);
    forall i | 0 <= i < |s| ensures s[i] != ']' {
      if i < |h| { assert s[i] in h; } else if i > |h| { assert s[i] == d[i - |h| - 1]; }
    }
    PrintParses(p);
  }

  lemma PrintParses(p: nat)
    ensures Decimal.Parse(Decimal.Print(p)) == None || Decimal.Parse(Decimal.Print(p)) == Some(p)
  {
    hide Decimal.Digits;
    hide Decimal.Value;
    var d := Decimal.Print(p);
    assert d == Decimal.Digits(p);
    Decimal.ValueOfDigits(p);
    assert Decimal.Digit(d[0]);
  }

  /** What is accepted has 1 to 255 characters, and only these. */
  lemma AcceptedCharacters(raw: string)
    requires Cleaned(raw).Ok?
    ensures var h := Cleaned(raw).value.host;
            && 1 <= |h| <= 255
            && forall i :: 0 <= i < |h| ==>
                 'a' <= h[i] <= 'z' || 'A' <= h[i] <= 'Z' || '0' <= h[i] <= '9' || h[i] in ".-_:[]%"
  {
    hide Trim;
    hide StripSchemes;
    hide SplitPort;
    hide Contains;
  }
}
