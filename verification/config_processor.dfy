/**
 * websocks5 ConfigProcessor: the line-oriented agent configuration. Each
 * line is trimmed; blank and `#` lines are skipped; in the normal state a
 * line sets the listen port or opens the server or the domain list; list
 * lines add a `host:port` server or a domain pattern until the list's end
 * marker. Reading the file, address classification, DNS and regex
 * compilation are not part of this model: servers and patterns are
 * recorded as values.
 */
module ConfigProcessor {
  import opened Wrappers
  import opened Resp

  // ---------------------------------------------------------------------
  // java.lang.String / Integer helpers
  // ---------------------------------------------------------------------

  /** `String.trim`: drops leading and trailing characters at or below the space. */
  function TrimStart(s: string): (r: string)
    ensures |r| <= |s|
    ensures r == [] || r[0] > ' '
  {
    if |s| > 0 && s[0] <= ' ' then TrimStart(s[1..]) else s
  }

  function TrimEnd(s: string): (r: string)
    ensures |r| <= |s| && r == s[..|r|]
    ensures r == [] || r[|r| - 1] > ' '
  {
    if |s| > 0 && s[|s| - 1] <= ' ' then TrimEnd(s[..|s| - 1]) else s
  }

  function Trim(s: string): string
  {
    TrimEnd(TrimStart(s))
  }

  /** Trimming leaves a string with no blank at either end, and such a string is its own trim. */
  lemma TrimTrimmed(s: string)
    ensures Trim(s) == [] || (Trim(s)[0] > ' ' && Trim(s)[|Trim(s)| - 1] > ' ')
    ensures Trim(Trim(s)) == Trim(s)
  {
    var t := TrimStart(s);
    if TrimEnd(t) != [] {
      assert TrimEnd(t)[0] == t[0];
    }
    TrimOfTrimmed(Trim(s));
  }

  lemma TrimOfTrimmed(s: string)
    requires s == [] || (s[0] > ' ' && s[|s| - 1] > ' ')
    ensures Trim(s) == s
  {
  }

  function StartsWith(s: string, prefix: string): bool
  {
    |prefix| <= |s| && s[..|prefix|] == prefix
  }

  function EndsWith(s: string, suffix: string): bool
  {
    |suffix| <= |s| && s[|s| - |suffix|..] == suffix
  }

  /** `String.lastIndexOf(char)`: -1 when absent. */
  function LastIndexOf(s: string, c: char): (r: int)
    ensures -1 <= r < |s|
    ensures r == -1 <==> c !in s
    ensures r >= 0 ==> s[r] == c && c !in s[r + 1..]
  {
    if |s| == 0 then -1
    else if s[|s| - 1] == c then |s| - 1
    else
      var r := LastIndexOf(s[..|s| - 1], c);
      assert s == s[..|s| - 1] + [s[|s| - 1]];
      r
  }

  predicate IsDigit(c: char)
  {
    '0' <= c <= '9'
  }

  predicate AllDigits(s: string)
  {
    forall k :: 0 <= k < |s| ==> IsDigit(s[k])
  }

  /** The value of a string of decimal digits, most significant first. */
  function DigitsValue(s: string): nat
    requires AllDigits(s)
  {
    if |s| == 0 then 0 else DigitsValue(s[..|s| - 1]) * 10 + (s[|s| - 1] as int - '0' as int)
  }

  /** The decimal numeral of `n`, without sign or leading zeros. */
  function Decimal(n: nat): (r: string)
    ensures |r| > 0 && AllDigits(r)
  {
    if n < 10 then [(n + '0' as int) as char] else Decimal(n / 10) + [(n % 10 + '0' as int) as char]
  }

  lemma {:induction false} DecimalValue(n: nat)
    ensures DigitsValue(Decimal(n)) == n
  {
    var d := Decimal(n);
    if n >= 10 {
      assert d[..|d| - 1] == Decimal(n / 10);
      DecimalValue(n / 10);
    }
  }

  /**
   * `Integer.parseInt(s)` for ASCII input: an optional sign, then one or
   * more digits, and a value that fits in 32 bits.
   */
  function ParseInt(s: string): (r: Option<int>)
    ensures r.Some? ==> MinInt <= r.value <= MaxInt
    ensures r.Some? ==> |s| > 0
  {
    if |s| == 0 then None
    else if s[0] == '-' || s[0] == '+' then
      if |s| == 1 || !AllDigits(s[1..]) then None
      else
        var v := if s[0] == '-' then -(DigitsValue(s[1..]) as int) else DigitsValue(s[1..]);
        if MinInt <= v <= MaxInt then Some(v) else None
    else if !AllDigits(s) then None
    else if DigitsValue(s) <= MaxInt then Some(DigitsValue(s)) else None
  }

  /** Every non-negative int's numeral parses back to it, and so does its negation with a `-`. */
  lemma ParseDecimal(n: nat)
    requires n <= MaxInt
    ensures ParseInt(Decimal(n)) == Some(n)
    ensures ParseInt("-" + Decimal(n)) == Some(-(n as int))
  {
    DecimalValue(n);
    var d := Decimal(n);
    assert d[0] != '-' && d[0] != '+' by { assert IsDigit(d[0]); }
    assert ("-" + d)[1..] == d;
  }

  // ---------------------------------------------------------------------
  // The configuration and one line of it
  // ---------------------------------------------------------------------

  /** The `step` variable: 0, 1 (`proxy.server.list`) and 2 (`proxy.domain.list`). */
  datatype Step = Normal | ServerList | DomainList

  datatype ServerEntry = ServerEntry(host: string, port: int)

  /** What parsing has recorded: the listen port, the servers added to the group, the domain regexes. */
  datatype Config = Config(listenPort: int, servers: seq<ServerEntry>, domains: seq<string>)

  datatype ConfigError =
    | ListenNotInt        // "invalid agent.listen, expecting an integer"
    | ListenOutOfRange    // "invalid agent.listen, port number out of range"
    | UnknownLine(line: string)
    | BadAddress(line: string)
    | BadHost(line: string)
    | BadPort(line: string)
    | DomainSlash         // `substring(1, 0)` on the line "/"

  /** The state after a line, or the error thrown and the state the fields were left in. */
  datatype Outcome = Next(step: Step, cfg: Config) | Fail(cfg: Config, err: ConfigError)

  const ListenKey := "agent.listen "
  const ServerStart := "proxy.server.list.start"
  const ServerEnd := "proxy.server.list.end"
  const DomainStart := "proxy.domain.list.start"
  const DomainEnd := "proxy.domain.list.end"

  /** `line.replaceAll("\\.", "\\\\.")`: each `.` becomes `\.`. */
  function EscapeDots(s: string): string
  {
    if |s| == 0 then []
    else (if s[0] == '.' then "\\." else [s[0]]) + EscapeDots(s[1..])
  }

  /** Reads an escaped string back: `\.` becomes `.`. */
  function UnescapeDots(s: string): string
  {
    if |s| == 0 then []
    else if |s| >= 2 && s[0] == '\\' && s[1] == '.' then "." + UnescapeDots(s[2..])
    else [s[0]] + UnescapeDots(s[1..])
  }

  lemma {:induction false} EscapeDotsRoundTrip(s: string)
    ensures UnescapeDots(EscapeDots(s)) == s
    ensures EscapeDots(s) == [] || EscapeDots(s)[0] != '.'
  {
    if |s| > 0 {
      EscapeDotsRoundTrip(s[1..]);
      var rest := EscapeDots(s[1..]);
      if s[0] == '.' {
        assert EscapeDots(s) == "\\." + rest;
        assert ("\\." + rest)[2..] == rest;
      } else {
        assert EscapeDots(s) == [s[0]] + rest;
        assert ([s[0]] + rest)[1..] == rest;
      }
    }
  }

  /**
   * The regex for a domain line: `/re/` gives `re`, anything else the
   * line matched as a suffix; `None` for the line `/`, on which the
   * source throws.
   */
  function DomainRegex(line: string): (r: Option<string>)
    ensures StartsWith(line, "/") && EndsWith(line, "/") ==>
              (|line| == 1 <==> r.None?) && (r.Some? ==> "/" + r.value + "/" == line)
    ensures !(StartsWith(line, "/") && EndsWith(line, "/")) ==>
              r.Some? && |r.value| >= 3 && r.value[..2] == ".*" && r.value[|r.value| - 1] == '$'
              && UnescapeDots(r.value[2..|r.value| - 1]) == line
  {
    if StartsWith(line, "/") && EndsWith(line, "/") then
      if |line| < 2 then None
      else
        assert line == "/" + line[1..|line| - 1] + "/";
        Some(line[1..|line| - 1])
    else
      EscapeDotsRoundTrip(line);
      var r := ".*" + EscapeDots(line) + "$";
      assert r[2..|r| - 1] == EscapeDots(line);
      Some(r)
  }

  /** Step 0: `agent.listen`, or a list start marker. */
  function NormalLine(line: string, cfg: Config): Outcome
  {
    if StartsWith(line, ListenKey) then
      match ParseInt(line[|ListenKey|..])
      case None => Fail(cfg, ListenNotInt)
      case Some(p) =>
        var cfg' := cfg.(listenPort := p);
        if p < 1 || p > 65535 then Fail(cfg', ListenOutOfRange) else Next(Normal, cfg')
    else if line == ServerStart then Next(ServerList, cfg)
    else if line == DomainStart then Next(DomainList, cfg)
    else Fail(cfg, UnknownLine(line))
  }

  /** Step 1: a `host:port` entry split at the last colon, or the end marker. */
  function ServerLine(line: string, cfg: Config): Outcome
  {
    if line == ServerEnd then Next(Normal, cfg)
    else
      var colon := LastIndexOf(line, ':');
      if colon == -1 then Fail(cfg, BadAddress(line))
      else if colon == 0 then Fail(cfg, BadHost(line))
      else
        match ParseInt(line[colon + 1..])
        case None => Fail(cfg, BadPort(line))
        case Some(p) =>
          if p < 1 || p > 65535 then Fail(cfg, BadPort(line))
          else Next(ServerList, cfg.(servers := cfg.servers + [ServerEntry(line[..colon], p)]))
  }

  /** Step 2: a domain pattern, or the end marker. */
  function DomainLine(line: string, cfg: Config): Outcome
  {
    if line == DomainEnd then Next(Normal, cfg)
    else
      match DomainRegex(line)
      case None => Fail(cfg, DomainSlash)
      case Some(re) => Next(DomainList, cfg.(domains := cfg.domains + [re]))
  }

  /** One iteration of the `parse` loop. */
  function ProcessLine(step: Step, raw: string, cfg: Config): Outcome
  {
    var line := Trim(raw);
    if |line| == 0 || line[0] == '#' then Next(step, cfg)
    else match step
      case Normal => NormalLine(line, cfg)
      case ServerList => ServerLine(line, cfg)
      case DomainList => DomainLine(line, cfg)
  }

  /** The whole loop: the lines in order until the first error; the end of input ends any list. */
  function Run(lines: seq<string>, step: Step, cfg: Config): Outcome
  {
    if |lines| == 0 then Next(step, cfg)
    else match ProcessLine(step, lines[0], cfg)
      case Fail(c, e) => Fail(c, e)
      case Next(s, c) => Run(lines[1..], s, c)
  }

  // ---------------------------------------------------------------------
  // The processor
  // ---------------------------------------------------------------------

  class ConfigProcessor {
    var listenPort: int
    /** The group's servers, in the order added. */
    var servers: seq<ServerEntry>
    /** The domain patterns' regexes, in the order added. */
    var domains: seq<string>

    function Current(): Config
      reads this
    {
      Config(listenPort, servers, domains)
    }

    constructor()
      ensures listenPort == 1080 && servers == [] && domains == []
    {
      listenPort, servers, domains := 1080, [], [];
    }

    /** The fields hold what `o` says, and `err` is its error if any. */
    predicate Reached(o: Outcome, step: Step, err: Option<ConfigError>)
      reads this
    {
      match o
      case Next(s, c) => err == None && step == s && Current() == c
      case Fail(c, e) => err == Some(e) && Current() == c
    }

    /** `parse` over the file's lines: `Some` error when the source throws. */
    method Parse(lines: seq<string>) returns (err: Option<ConfigError>)
      modifies this
      ensures match Run(lines, Normal, old(Current()))
              case Next(_, c) => err == None && Current() == c
              case Fail(c, e) => err == Some(e) && Current() == c
    {
      var step := Normal;
      var i := 0;
      while i < |lines|
        invariant 0 <= i <= |lines|
        invariant Run(lines, Normal, old(Current())) == Run(lines[i..], step, Current())
      {
        assert lines[i..][1..] == lines[i + 1..];
        var line := Trim(lines[i]);
        i := i + 1;
        if |line| == 0 || line[0] == '#' {
          continue;
        }
        if step == Normal {
          step, err := NormalStep(line);
        } else if step == ServerList {
          step, err := ServerStep(line);
        } else {
          step, err := DomainStep(line);
        }
        if err.Some? {
          return;
        }
      }
      err := None;
    }

    /** The `step == 0` branch of the loop. */
    method NormalStep(line: string) returns (step: Step, err: Option<ConfigError>)
      modifies this
      ensures Reached(NormalLine(line, old(Current())), step, err)
    {
      step, err := Normal, None;
      if StartsWith(line, ListenKey) {
        var port := ParseInt(line[|ListenKey|..]);
        if port.None? {
          return step, Some(ListenNotInt);
        }
        listenPort := port.value;
        if listenPort < 1 || listenPort > 65535 {
          return step, Some(ListenOutOfRange);
        }
      } else if line == ServerStart {
        step := ServerList;
      } else if line == DomainStart {
        step := DomainList;
      } else {
        err := Some(UnknownLine(line));
      }
    }

    /** The `step == 1` branch of the loop. */
    method ServerStep(line: string) returns (step: Step, err: Option<ConfigError>)
      modifies this
      ensures Reached(ServerLine(line, old(Current())), step, err)
    {
      step, err := ServerList, None;
      if line == ServerEnd {
        return Normal, None;
      }
      var colon := LastIndexOf(line, ':');
      if colon == -1 {
        return step, Some(BadAddress(line));
      }
      var host := line[..colon];
      var portPart := line[colon + 1..];
      if |host| == 0 {
        return step, Some(BadHost(line));
      }
      var port := ParseInt(portPart);
      if port.None? || port.value < 1 || port.value > 65535 {
        return step, Some(BadPort(line));
      }
      servers := servers + [ServerEntry(host, port.value)];
    }

    /** The `step == 2` branch of the loop. */
    method DomainStep(line: string) returns (step: Step, err: Option<ConfigError>)
      modifies this
      ensures Reached(DomainLine(line, old(Current())), step, err)
    {
      step, err := DomainList, None;
      if line == DomainEnd {
        return Normal, None;
      }
      var regexp := DomainRegex(line);
      if regexp.None? {
        return step, Some(DomainSlash);
      }
      domains := domains + [regexp.value];
    }
  }

  // ---------------------------------------------------------------------
  // Properties
  // ---------------------------------------------------------------------

  /** Blank and comment lines change nothing, in every step. */
  lemma SkippedLine(step: Step, raw: string, cfg: Config, rest: seq<string>)
    requires Trim(raw) == [] || Trim(raw)[0] == '#'
    ensures Run([raw] + rest, step, cfg) == Run(rest, step, cfg)
  {
    assert ([raw] + rest)[1..] == rest;
  }

  /** `agent.listen N` for a port in range sets the listen port. */
  lemma ListenSetsPort(n: nat, cfg: Config)
    requires 1 <= n <= 65535
    ensures ProcessLine(Normal, ListenKey + Decimal(n), cfg) == Next(Normal, cfg.(listenPort := n))
  {
    var line := ListenKey + Decimal(n);
    TrimOfTrimmed(line);
    ParseDecimal(n);
    assert line[..|ListenKey|] == ListenKey && line[|ListenKey|..] == Decimal(n);
  }

  /** An int out of range is an error, but the field has already been assigned. */
  lemma ListenOutOfRangeAssigned(n: nat, cfg: Config)
    requires n == 0 || 65535 < n <= MaxInt
    ensures ProcessLine(Normal, ListenKey + Decimal(n), cfg) == Fail(cfg.(listenPort := n), ListenOutOfRange)
  {
    var line := ListenKey + Decimal(n);
    TrimOfTrimmed(line);
    ParseDecimal(n);
    assert line[..|ListenKey|] == ListenKey && line[|ListenKey|..] == Decimal(n);
  }

  /** A value that is not an int is an error and changes nothing. */
  lemma ListenNotIntRejected(s: string, cfg: Config)
    requires ParseInt(s).None?
    requires Trim(ListenKey + s) == ListenKey + s
    ensures ProcessLine(Normal, ListenKey + s, cfg) == Fail(cfg, ListenNotInt)
  {
    var line := ListenKey + s;
    assert line[..|ListenKey|] == ListenKey && line[|ListenKey|..] == s;
  }

  /** In the normal state any other line is an error. */
  lemma UnknownLineRejected(line: string, cfg: Config)
    requires Trim(line) == line && |line| > 0 && line[0] != '#'
    requires !StartsWith(line, ListenKey) && line != ServerStart && line != DomainStart
    ensures ProcessLine(Normal, line, cfg) == Fail(cfg, UnknownLine(line))
  {
  }

  /** `host:port` adds the server, split at the last colon so a host may hold colons. */
  lemma ServerAdded(host: string, p: nat, cfg: Config)
    requires host != [] && host[0] > ' ' && host[0] != '#' && 1 <= p <= 65535
    ensures ProcessLine(ServerList, host + ":" + Decimal(p), cfg)
         == Next(ServerList, cfg.(servers := cfg.servers + [ServerEntry(host, p)]))
  {
    var d := Decimal(p);
    var line := host + ":" + d;
    assert line[0] == host[0] && line[|line| - 1] == d[|d| - 1] && IsDigit(d[|d| - 1]);
    TrimOfTrimmed(line);
    ServerEntryLine(host, p, cfg);
  }

  lemma ServerEntryLine(host: string, p: nat, cfg: Config)
    requires host != [] && 1 <= p <= 65535
    ensures ServerLine(host + ":" + Decimal(p), cfg) == Next(ServerList, cfg.(servers := cfg.servers + [ServerEntry(host, p)]))
  {
    var d := Decimal(p);
    var line := host + ":" + d;
    assert line[|host|] == ':';
    assert ':' !in ServerEnd;
    assert line != ServerEnd;
    assert forall k :: 0 <= k < |d| ==> d[k] != ':';
    LastColon(host, d);
    assert line[|host| + 1..] == d && line[..|host|] == host;
    ParseDecimal(p);
  }

  /** The last colon of `host:d` is the one after `host` when `d` has none. */
  lemma {:induction false} LastColon(host: string, d: string)
    requires ':' !in d
    ensures LastIndexOf(host + ":" + d, ':') == |host|
  {
    var s := host + ":" + d;
    if |d| > 0 {
      assert s[..|s| - 1] == host + ":" + d[..|d| - 1];
      assert d[|d| - 1] in d;
      LastColon(host, d[..|d| - 1]);
    }
  }

  /** A server line without a colon is an error. */
  lemma ServerWithoutColonRejected(line: string, cfg: Config)
    requires Trim(line) == line && |line| > 0 && line[0] != '#' && ':' !in line && line != ServerEnd
    ensures ProcessLine(ServerList, line, cfg) == Fail(cfg, BadAddress(line))
  {
  }

  /** A server line with nothing before its last colon is an error. */
  lemma EmptyHostRejected(rest: string, cfg: Config)
    requires ':' !in rest && rest != [] && rest[|rest| - 1] > ' '
    ensures ProcessLine(ServerList, ":" + rest, cfg) == Fail(cfg, BadHost(":" + rest))
  {
    var line := ":" + rest;
    TrimOfTrimmed(line);
    assert line != ServerEnd by { assert line[0] == ':' && ServerEnd[0] == 'p'; }
    assert line[1..] == rest;
  }

  /** A server entry whose port is not an int in 1..65535 is an error, and no server is added. */
  lemma BadPortRejected(host: string, port: string, cfg: Config)
    requires host != [] && ':' !in port
    requires ParseInt(port).None? || ParseInt(port).value < 1 || ParseInt(port).value > 65535
    ensures ServerLine(host + ":" + port, cfg) == Fail(cfg, BadPort(host + ":" + port))
  {
    var line := host + ":" + port;
    assert line[|host|] == ':';
    assert ':' !in ServerEnd;
    LastColon(host, port);
    assert line[|host| + 1..] == port;
  }

  /** A domain line that is exactly `/` is an error. */
  lemma SlashOnlyRejected(cfg: Config)
    ensures ProcessLine(DomainList, "/", cfg) == Fail(cfg, DomainSlash)
  {
    TrimOfTrimmed("/");
  }

  /** The end markers return to the normal state without recording anything. */
  lemma EndMarkers(cfg: Config)
    ensures ProcessLine(ServerList, ServerEnd, cfg) == Next(Normal, cfg)
    ensures ProcessLine(DomainList, DomainEnd, cfg) == Next(Normal, cfg)
  {
    TrimOfTrimmed(ServerEnd);
    TrimOfTrimmed(DomainEnd);
  }

  /** A list still open at the end of input is not an error. */
  lemma UnclosedListAccepted(cfg: Config)
    ensures Run([DomainStart], Normal, cfg) == Next(DomainList, cfg)
    ensures Run([ServerStart], Normal, cfg) == Next(ServerList, cfg)
  {
    TrimOfTrimmed(DomainStart);
    TrimOfTrimmed(ServerStart);
    assert !StartsWith(DomainStart, ListenKey) by { assert DomainStart[0] != ListenKey[0]; }
    assert !StartsWith(ServerStart, ListenKey) by { assert ServerStart[0] != ListenKey[0]; }
    assert ServerStart != DomainStart by { assert ServerStart[6] != DomainStart[6]; }
  }

  /** Servers and patterns are only ever appended: what was recorded stays, in order, error or not. */
  lemma {:induction false} RunAppends(lines: seq<string>, step: Step, cfg: Config)
    ensures cfg.servers <= Run(lines, step, cfg).cfg.servers
    ensures cfg.domains <= Run(lines, step, cfg).cfg.domains
  {
    if |lines| > 0 {
      var o := ProcessLine(step, lines[0], cfg);
      if o.Next? {
        RunAppends(lines[1..], o.step, o.cfg);
      }
    }
  }

  /** Domain lines add their patterns in input order. */
  lemma {:induction false} DomainsInOrder(lines: seq<string>, cfg: Config)
    requires forall k :: 0 <= k < |lines| ==>
               Trim(lines[k]) == lines[k] && |lines[k]| > 1 && lines[k][0] != '#' && lines[k] != DomainEnd
    ensures Run(lines, DomainList, cfg)
         == Next(DomainList, cfg.(domains := cfg.domains + seq(|lines|, k requires 0 <= k < |lines| => DomainRegex(lines[k]).value)))
  {
    if |lines| > 0 {
      var re := DomainRegex(lines[0]);
      assert re.Some?;
      DomainsInOrder(lines[1..], cfg.(domains := cfg.domains + [re.value]));
      assert [re.value] + seq(|lines| - 1, k requires 0 <= k < |lines| - 1 => DomainRegex(lines[1..][k]).value)
          == seq(|lines|, k requires 0 <= k < |lines| => DomainRegex(lines[k]).value);
    } else {
      assert cfg.(domains := cfg.domains + []) == cfg;
    }
  }
}
