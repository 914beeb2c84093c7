/** The connection record of core/connection.py and its two text forms:
    the `Host` stanza written into a `.conf` file (ssh_config(5) syntax with
    one metadata comment) and the loose line scanner that reads it back. */
module Connection {
  import opened Wrappers
  import opened Text

  /** One port forward `(port, host, port)`: for a local forward
      `(local_port, remote_host, remote_port)`, for a remote forward
      `(remote_port, local_host, local_port)`. */
  datatype Forward = Forward(port1: int, host: string, port2: int)

  datatype Connection = Connection(
    name: string,
    hostname: string,
    user: string,
    port: int,
    identityFile: string,
    folder: string,
    proxyJump: string,
    localForwards: seq<Forward>,
    remoteForwards: seq<Forward>,
    colorTag: string)

  /** The dataclass defaults for everything but name, hostname and user. */
  function NewConnection(name: string, hostname: string, user: string): (c: Connection)
    ensures c.port == 22 && c.folder == "personal" && c.colorTag == ""
    ensures c.identityFile == "" && c.proxyJump == "" && c.localForwards == [] && c.remoteForwards == []
  {
    Connection(name, hostname, user, 22, "", "personal", "", [], [], "")
  }

  // ---------------------------------------------------------------------
  // The metadata comment and its JSON payload
  // ---------------------------------------------------------------------

  const MetadataPrefix: string := "# SSH Manager Metadata: "
  const ColorJsonOpen: string := "{\"color\": \""
  const ColorJsonClose: string := "\"}"

  /** A colour tag that `json.dumps` writes unchanged: printable ASCII
      without quote or backslash. */
  predicate PlainTag(t: string)
  {
    forall i :: 0 <= i < |t| ==> ' ' <= t[i] <= '~' && t[i] != '"' && t[i] != '\\'
  }

  function HexDigit(d: nat): char
    requires d < 16
  {
    if d < 10 then ('0' as int + d) as char else ('a' as int + d - 10) as char
  }

  /** `\uXXXX` with four lower-case hex digits. */
  function UnicodeEscape(u: nat): string
    requires u < 0x10000
  {
    "\\u" + [HexDigit(u / 0x1000), HexDigit(u / 0x100 % 16), HexDigit(u / 0x10 % 16), HexDigit(u % 16)]
  }

  /** How `json.dumps` (with its default `ensure_ascii`) writes one code point
      inside a string literal. */
  function JsonEscapeChar(c: char): string
  {
    if c == '"' then "\\\""
    else if c == '\\' then "\\\\"
    else if c == '\n' then "\\n"
    else if c == '\r' then "\\r"
    else if c == '\t' then "\\t"
    else if c == '\U{8}' then "\\b"
    else if c == '\U{C}' then "\\f"
    else if ' ' <= c <= '~' then [c]
    else if (c as int) < 0x10000 then UnicodeEscape(c as int)
    else
      var v := c as int - 0x10000;
      UnicodeEscape(0xD800 + v / 0x400) + UnicodeEscape(0xDC00 + v % 0x400)
  }

  function JsonEscape(s: string): (r: string)
    ensures PlainTag(s) ==> r == s
  {
    if s == [] then "" else JsonEscapeChar(s[0]) + JsonEscape(s[1..])
  }

  /** `json.dumps({"color": tag})` */
  function ColorJson(tag: string): string
  {
    ColorJsonOpen + JsonEscape(tag) + ColorJsonClose
  }

  /** The text up to (not including) the first newline: what `.` can match. */
  function LineHead(s: string): (r: string)
    ensures r <= s && Lacks(r, '\n')
    ensures |r| < |s| ==> s[|r|] == '\n'
  {
    if s == [] || s[0] == '\n' then "" else [s[0]] + LineHead(s[1..])
  }

  /** The index of the last `c` in `s`, if any. */
  function LastIndexOf(s: string, c: char): (r: Option<nat>)
    ensures r.Some? ==> r.value < |s| && s[r.value] == c
    ensures r.Some? ==> forall j :: r.value < j < |s| ==> s[j] != c
    ensures r.None? ==> Lacks(s, c)
  {
    if s == [] then None
    else if s[|s| - 1] == c then Some(|s| - 1)
    else LastIndexOf(s[..|s| - 1], c)
  }

  /** Group 1 of `re.search(r'# SSH Manager Metadata: ({.*})', s)`: the
      leftmost position where the prefix and `{` occur and the rest of that
      line holds a `}`; the group runs from `{` to the last `}` of the line. */
  function MetadataMatch(s: string): (r: Option<string>)
    ensures r.Some? ==> |r.value| >= 2 && r.value[0] == '{' && r.value[|r.value| - 1] == '}'
    ensures r.Some? ==> Lacks(r.value, '\n')
    decreases |s|
  {
    if MetadataPrefix + "{" <= s then
      var line := LineHead(s[|MetadataPrefix|..]);
      var k := LastIndexOf(line, '}');
      if k.Some? && k.value >= 1 then Some(line[..k.value + 1])
      else MetadataMatch(s[1..])
    else if s == [] then None
    else MetadataMatch(s[1..])
  }

  /** `json.loads(j).get("color", "")` for the one layout `json.dumps`
      writes: `{"color": "<tag>"}` with a plain tag. Anything else reads as
      no colour. */
  function DecodeColor(j: string): (r: Option<string>)
    ensures r.Some? ==> PlainTag(r.value)
  {
    if |j| >= |ColorJsonOpen| + |ColorJsonClose| && ColorJsonOpen <= j
       && j[|j| - |ColorJsonClose|..] == ColorJsonClose
       && PlainTag(j[|ColorJsonOpen|..|j| - |ColorJsonClose|])
    then Some(j[|ColorJsonOpen|..|j| - |ColorJsonClose|])
    else None
  }

  /** The colour tag recovered from a file's text. */
  function MetadataColor(content: string): string
  {
    match MetadataMatch(content)
    case None => ""
    case Some(j) => match DecodeColor(j) { case None => "" case Some(t) => t }
  }

  // ---------------------------------------------------------------------
  // Writing: to_ssh_config
  // ---------------------------------------------------------------------

  const Indent: string := "    "
  const KeepAliveLines: seq<string> :=
    [Directive("ServerAliveInterval", "60"), Directive("ServerAliveCountMax", "3"), Directive("ConnectTimeout", "10")]

  /** An indented `Keyword value` line. */
  function Directive(keyword: string, value: string): string
  {
    Indent + keyword + " " + value
  }

  /** `    LocalForward <p1> <host>:<p2>` (or RemoteForward). */
  /** `{port} {host}:{port}` */
  function ForwardValue(f: Forward): string
  {
    IntToString(f.port1) + " " + f.host + ":" + IntToString(f.port2)
  }

  function ForwardLine(keyword: string, f: Forward): string
  {
    Directive(keyword, ForwardValue(f))
  }

  function ForwardLines(keyword: string, fs: seq<Forward>): (r: seq<string>)
    ensures |r| == |fs|
  {
    if fs == [] then []
    else ForwardLines(keyword, fs[..|fs| - 1]) + [ForwardLine(keyword, fs[|fs| - 1])]
  }

  function MetadataLine(tag: string): string
  {
    MetadataPrefix + ColorJson(tag)
  }

  function HostLine(name: string): string
  {
    "Host " + name
  }

  /** The metadata comment and a blank line, only for a non-empty colour tag. */
  function MetadataLines(c: Connection): seq<string>
  {
    if c.colorTag != "" then [MetadataLine(c.colorTag), ""] else []
  }

  /** `Host`, then HostName, User and Port, always. */
  function HeaderLines(c: Connection): seq<string>
  {
    [HostLine(c.name), Directive("HostName", c.hostname), Directive("User", c.user),
     Directive("Port", IntToString(c.port))]
  }

  /** IdentityFile and ProxyJump, each only when non-empty. */
  function OptionalLines(c: Connection): seq<string>
  {
    (if c.identityFile != "" then [Directive("IdentityFile", c.identityFile)] else [])
    + (if c.proxyJump != "" then [Directive("ProxyJump", c.proxyJump)] else [])
  }

  /** The lines of the stanza, in the fixed directive order. */
  function StanzaLines(c: Connection): seq<string>
  {
    MetadataLines(c) + HeaderLines(c) + OptionalLines(c)
    + ForwardLines("LocalForward", c.localForwards)
    + ForwardLines("RemoteForward", c.remoteForwards)
    + KeepAliveLines
  }

  /** The text of the `.conf` file: the lines joined by newlines plus a final newline. */
  function SshConfigText(c: Connection): string
  {
    Join(StanzaLines(c), "\n") + "\n"
  }

  /** The loop shared by the local and the remote forwards of `to_ssh_config`. */
  method AppendForwardLines(lines0: seq<string>, keyword: string, fs: seq<Forward>) returns (lines: seq<string>)
    ensures lines == lines0 + ForwardLines(keyword, fs)
  {
    lines := lines0;
    var i := 0;
    while i < |fs|
      invariant 0 <= i <= |fs|
      invariant lines == lines0 + ForwardLines(keyword, fs[..i])
    {
      assert fs[..i + 1][..i] == fs[..i];
      lines := lines + [ForwardLine(keyword, fs[i])];
      i := i + 1;
    }
    assert fs[..i] == fs;
  }

  /** to_ssh_config: appends the lines one by one, then joins them. */
  method ToSshConfig(c: Connection) returns (text: string)
    ensures text == SshConfigText(c)
  {
    var lines: seq<string> := [];
    if c.colorTag != "" {
      lines := lines + [MetadataLine(c.colorTag)];
      lines := lines + [""];
    }
    ghost var meta := lines;
    assert meta == MetadataLines(c);
    lines := lines + [HostLine(c.name)];
    lines := lines + [Directive("HostName", c.hostname)];
    lines := lines + [Directive("User", c.user)];
    lines := lines + [Directive("Port", IntToString(c.port))];
    AppendEach4(meta, HostLine(c.name), Directive("HostName", c.hostname), Directive("User", c.user),
                Directive("Port", IntToString(c.port)));
    ghost var headed := lines;
    assert headed == meta + HeaderLines(c);
    if c.identityFile != "" {
      lines := lines + [Directive("IdentityFile", c.identityFile)];
    }
    if c.proxyJump != "" {
      lines := lines + [Directive("ProxyJump", c.proxyJump)];
    }
    ghost var optioned := lines;
    assert optioned == headed + OptionalLines(c);
    lines := AppendForwardLines(lines, "LocalForward", c.localForwards);
    ghost var local := lines;
    lines := AppendForwardLines(lines, "RemoteForward", c.remoteForwards);
    ghost var forwarded := lines;
    lines := lines + [KeepAliveLines[0]];
    lines := lines + [KeepAliveLines[1]];
    lines := lines + [KeepAliveLines[2]];
    AppendEach3(forwarded, KeepAliveLines[0], KeepAliveLines[1], KeepAliveLines[2]);
    assert lines == forwarded + KeepAliveLines;
    StanzaSteps(c, meta, headed, optioned, local, forwarded, lines);
    text := Join(lines, "\n") + "\n";
  }

  /** The stages of `to_ssh_config` put together give the stanza's lines. */
  lemma StanzaSteps(c: Connection, meta: seq<string>, headed: seq<string>, optioned: seq<string>,
                    local: seq<string>, forwarded: seq<string>, lines: seq<string>)
    requires meta == MetadataLines(c)
    requires headed == meta + HeaderLines(c)
    requires optioned == headed + OptionalLines(c)
    requires local == optioned + ForwardLines("LocalForward", c.localForwards)
    requires forwarded == local + ForwardLines("RemoteForward", c.remoteForwards)
    requires lines == forwarded + KeepAliveLines
    ensures lines == StanzaLines(c)
  {
  }

  /** Four single appends in a row append the four. */
  lemma AppendEach4(a: seq<string>, x0: string, x1: string, x2: string, x3: string)
    ensures a + [x0] + [x1] + [x2] + [x3] == a + [x0, x1, x2, x3]
  {
  }

  /** Three single appends in a row append the three. */
  lemma AppendEach3(a: seq<string>, x0: string, x1: string, x2: string)
    ensures a + [x0] + [x1] + [x2] == a + [x0, x1, x2]
  {
  }

  /** The i-th forward line is written from the i-th forward. */
  lemma {:induction false} ForwardLinesAt(keyword: string, fs: seq<Forward>, i: nat)
    requires i < |fs|
    ensures ForwardLines(keyword, fs)[i] == ForwardLine(keyword, fs[i])
    decreases |fs|
  {
    if i < |fs| - 1 {
      ForwardLinesAt(keyword, fs[..|fs| - 1], i);
    }
  }

  /** The front of the stanza: the metadata comment and a blank line
      exactly when there is a colour tag; then `Host`, `HostName`, `User`
      and `Port` in that order (User even when empty); then IdentityFile
      and ProxyJump, each only when set. */
  lemma StanzaFront(c: Connection)
    ensures var s := MetadataLines(c) + HeaderLines(c) + OptionalLines(c);
      var k := if c.colorTag != "" then 2 else 0;
      && |s| == k + 4 + (if c.identityFile != "" then 1 else 0) + (if c.proxyJump != "" then 1 else 0)
      && (c.colorTag != "" ==> s[0] == MetadataPrefix + ColorJson(c.colorTag) && s[1] == "")
      && s[k] == "Host " + c.name
      && s[k + 1] == Directive("HostName", c.hostname)
      && s[k + 2] == Directive("User", c.user)
      && s[k + 3] == Directive("Port", IntToString(c.port))
      && (c.identityFile != "" ==> s[k + 4] == Directive("IdentityFile", c.identityFile))
      && (c.proxyJump != "" ==> s[|s| - 1] == Directive("ProxyJump", c.proxyJump))
  {
  }

  /** The layout of the whole stanza: the front, then one line per local
      forward and one per remote forward in list order, then the
      keep-alive block. */
  lemma StanzaLayout(c: Connection)
    ensures var s := StanzaLines(c);
      var lf := |MetadataLines(c) + HeaderLines(c) + OptionalLines(c)|;
      var rf := lf + |c.localForwards|;
      && |s| == rf + |c.remoteForwards| + 3
      && s[..lf] == MetadataLines(c) + HeaderLines(c) + OptionalLines(c)
      && (forall i :: 0 <= i < |c.localForwards| ==> s[lf + i] == ForwardLine("LocalForward", c.localForwards[i]))
      && (forall i :: 0 <= i < |c.remoteForwards| ==> s[rf + i] == ForwardLine("RemoteForward", c.remoteForwards[i]))
      && s[|s| - 3..] == [Directive("ServerAliveInterval", "60"), Directive("ServerAliveCountMax", "3"),
                         Directive("ConnectTimeout", "10")]
  {
    var front := MetadataLines(c) + HeaderLines(c) + OptionalLines(c);
    var l, r := ForwardLines("LocalForward", c.localForwards), ForwardLines("RemoteForward", c.remoteForwards);
    assert StanzaLines(c) == front + l + r + KeepAliveLines;
    FourParts(front, l, r, KeepAliveLines);
    forall i | 0 <= i < |c.localForwards|
      ensures l[i] == ForwardLine("LocalForward", c.localForwards[i])
    {
      ForwardLinesAt("LocalForward", c.localForwards, i);
    }
    forall i | 0 <= i < |c.remoteForwards|
      ensures r[i] == ForwardLine("RemoteForward", c.remoteForwards[i])
    {
      ForwardLinesAt("RemoteForward", c.remoteForwards, i);
    }
  }

  /** Where each of four concatenated segments sits. */
  lemma FourParts(a: seq<string>, b: seq<string>, c: seq<string>, d: seq<string>)
    ensures var s := a + b + c + d;
      && |s| == |a| + |b| + |c| + |d|
      && s[..|a|] == a
      && (forall i :: 0 <= i < |b| ==> s[|a| + i] == b[i])
      && (forall i :: 0 <= i < |c| ==> s[|a| + |b| + i] == c[i])
      && s[|s| - |d|..] == d
  {
  }

  /** The text is the lines joined by newlines and ends with a newline. */
  lemma SshConfigTextEnds(c: Connection)
    ensures var t := SshConfigText(c); |t| > 0 && t[|t| - 1] == '\n'
    ensures SshConfigText(c)[..|SshConfigText(c)| - 1] == Join(StanzaLines(c), "\n")
  {
  }

  // ---------------------------------------------------------------------
  // Reading: from_ssh_config
  // ---------------------------------------------------------------------

  /** `int()` raised ValueError on this text. */
  datatype ParseError = BadInteger(text: string)

  /** The variables the scanning loop reassigns. */
  datatype ScanState = ScanState(
    name: string,
    hostname: string,
    user: string,
    port: int,
    identityFile: string,
    proxyJump: string,
    localForwards: seq<Forward>,
    remoteForwards: seq<Forward>)

  /** `line.split(keyword)[1].strip()` for a line that starts with `keyword`. */
  function ValueAfter(line: string, keyword: string): string
    requires keyword != [] && StartsWith(line, keyword)
  {
    var parts := Split(line, keyword);
    if |parts| > 1 then Strip(parts[1]) else ""
  }

  /** The body of a forward line: two whitespace-separated tokens, the second
      holding exactly one ':'. Ok(None) is a line skipped as malformed; only
      a non-integer port raises. */
  function ParseForward(text: string): Result<Option<Forward>, ParseError>
  {
    var parts := Words(text);
    if |parts| != 2 then Ok(None)
    else match ParseInt(parts[0])
      case None => Err(BadInteger(parts[0]))
      case Some(p1) =>
        var hostPort := Split(parts[1], ":");
        if |hostPort| != 2 then Ok(None)
        else match ParseInt(hostPort[1])
          case None => Err(BadInteger(hostPort[1]))
          case Some(p2) => Ok(Some(Forward(p1, hostPort[0], p2)))
  }

  function AddForward(fs: seq<Forward>, r: Option<Forward>): seq<Forward>
  {
    match r case None => fs case Some(f) => fs + [f]
  }

  /** One iteration of the scanning loop. */
  function ScanLine(st: ScanState, raw: string): Result<ScanState, ParseError>
  {
    var line := Strip(raw);
    if line == "" || StartsWith(line, "#") then Ok(st)
    else if StartsWith(line, "Host ") && st.name == "" then Ok(st.(name := ValueAfter(line, "Host ")))
    else if StartsWith(line, "HostName ") then Ok(st.(hostname := ValueAfter(line, "HostName ")))
    else if StartsWith(line, "User ") then Ok(st.(user := ValueAfter(line, "User ")))
    else if StartsWith(line, "Port ") then
      match ParseInt(ValueAfter(line, "Port "))
      case None => Err(BadInteger(ValueAfter(line, "Port ")))
      case Some(p) => Ok(st.(port := p))
    else if StartsWith(line, "IdentityFile ") then Ok(st.(identityFile := ValueAfter(line, "IdentityFile ")))
    else if StartsWith(line, "ProxyJump ") then Ok(st.(proxyJump := ValueAfter(line, "ProxyJump ")))
    else if StartsWith(line, "LocalForward ") then
      match ParseForward(ValueAfter(line, "LocalForward "))
      case Err(e) => Err(e)
      case Ok(f) => Ok(st.(localForwards := AddForward(st.localForwards, f)))
    else if StartsWith(line, "RemoteForward ") then
      match ParseForward(ValueAfter(line, "RemoteForward "))
      case Err(e) => Err(e)
      case Ok(f) => Ok(st.(remoteForwards := AddForward(st.remoteForwards, f)))
    else Ok(st)
  }

  /** The loop over all lines; the first raising line aborts the scan. */
  function ScanLines(st: ScanState, lines: seq<string>): Result<ScanState, ParseError>
    decreases |lines|
  {
    if lines == [] then Ok(st)
    else match ScanLine(st, lines[0])
      case Err(e) => Err(e)
      case Ok(next) => ScanLines(next, lines[1..])
  }

  function InitialScan(name: string): ScanState
  {
    ScanState(name, "", "", 22, "", "", [], [])
  }

  /** from_ssh_config(content, name, folder) */
  function ParseConfig(content: string, name: string, folder: string): Result<Connection, ParseError>
  {
    var color := MetadataColor(content);
    match ScanLines(InitialScan(name), Split(content, "\n"))
    case Err(e) => Err(e)
    case Ok(st) =>
      Ok(Connection(if st.name == "" then "unnamed" else st.name, st.hostname, st.user, st.port,
                    st.identityFile, folder, st.proxyJump, st.localForwards, st.remoteForwards, color))
  }

  /** from_ssh_config as the source writes it: one pass over the lines that
      reassigns the directive variables. */
  method FromSshConfig(content: string, name: string, folder: string) returns (r: Result<Connection, ParseError>)
    ensures r == ParseConfig(content, name, folder)
  {
    var colorTag := MetadataColor(content);
    var curName, hostname, user, port := name, "", "", 22;
    var identityFile, proxyJump := "", "";
    var localForwards, remoteForwards: seq<Forward> := [], [];
    var lines := Split(content, "\n");
    var i := 0;
    while i < |lines|
      invariant 0 <= i <= |lines|
      invariant ScanLines(InitialScan(name), lines) ==
        ScanLines(ScanState(curName, hostname, user, port, identityFile, proxyJump, localForwards, remoteForwards), lines[i..])
    {
      ghost var before := ScanState(curName, hostname, user, port, identityFile, proxyJump, localForwards, remoteForwards);
      assert lines[i..][1..] == lines[i + 1..];
      var line := Strip(lines[i]);
      if line == "" || StartsWith(line, "#") {
      } else if StartsWith(line, "Host ") && curName == "" {
        curName := ValueAfter(line, "Host ");
      } else if StartsWith(line, "HostName ") {
        hostname := ValueAfter(line, "HostName ");
      } else if StartsWith(line, "User ") {
        user := ValueAfter(line, "User ");
      } else if StartsWith(line, "Port ") {
        var p := ParseInt(ValueAfter(line, "Port "));
        if p.None? {
          return Err(BadInteger(ValueAfter(line, "Port ")));
        }
        port := p.value;
      } else if StartsWith(line, "IdentityFile ") {
        identityFile := ValueAfter(line, "IdentityFile ");
      } else if StartsWith(line, "ProxyJump ") {
        proxyJump := ValueAfter(line, "ProxyJump ");
      } else if StartsWith(line, "LocalForward ") {
        var f := ParseForward(ValueAfter(line, "LocalForward "));
        if f.Err? {
          return Err(f.error);
        }
        localForwards := AddForward(localForwards, f.value);
      } else if StartsWith(line, "RemoteForward ") {
        var f := ParseForward(ValueAfter(line, "RemoteForward "));
        if f.Err? {
          return Err(f.error);
        }
        remoteForwards := AddForward(remoteForwards, f.value);
      }
      assert ScanLine(before, lines[i]) ==
        Ok(ScanState(curName, hostname, user, port, identityFile, proxyJump, localForwards, remoteForwards));
      i := i + 1;
    }
    r := Ok(Connection(if curName == "" then "unnamed" else curName, hostname, user, port,
                       identityFile, folder, proxyJump, localForwards, remoteForwards, colorTag));
  }

  // ---------------------------------------------------------------------
  // validate
  // ---------------------------------------------------------------------

  const NameRequired: string := "Connection name is required"
  const NameCharacters: string := "Connection name can only contain letters, numbers, dashes, and underscores"
  const HostnameRequired: string := "Hostname is required"
  const UsernameRequired: string := "Username is required"
  const PortRange: string := "Port must be between 1 and 65535"
  const InvalidFolder: string := "Invalid folder path"

  predicate IsNameChar(c: char)
  {
    ('a' <= c <= 'z') || ('A' <= c <= 'Z') || ('0' <= c <= '9') || c == '_' || c == '-'
  }

  predicate AllNameChars(s: string)
  {
    forall i :: 0 <= i < |s| ==> IsNameChar(s[i])
  }

  /** `re.match(r'^[a-zA-Z0-9_-]+$', s)`: `$` also matches just before a
      final newline, so one trailing "\n" is admitted. */
  predicate NamePatternMatches(s: string)
  {
    (|s| >= 1 && AllNameChars(s)) || (|s| >= 2 && s[|s| - 1] == '\n' && AllNameChars(s[..|s| - 1]))
  }

  predicate BadFolder(folder: string)
  {
    Contains(folder, "..") || "/" <= folder
  }

  function NameErrors(c: Connection): seq<string>
  {
    if c.name == "" then [NameRequired] else if !NamePatternMatches(c.name) then [NameCharacters] else []
  }

  function FieldErrors(c: Connection): seq<string>
  {
    (if c.hostname == "" then [HostnameRequired] else [])
    + (if c.user == "" then [UsernameRequired] else [])
  }

  function RangeErrors(c: Connection): seq<string>
  {
    (if !(1 <= c.port <= 65535) then [PortRange] else [])
    + (if BadFolder(c.folder) then [InvalidFolder] else [])
  }

  /** The messages validate reports, in its order. */
  function ValidationErrors(c: Connection): seq<string>
  {
    NameErrors(c) + FieldErrors(c) + RangeErrors(c)
  }

  /** The record invariant the store relies on. */
  predicate IsValid(c: Connection)
  {
    && c.name != "" && NamePatternMatches(c.name)
    && c.hostname != "" && c.user != ""
    && 1 <= c.port <= 65535
    && !Contains(c.folder, "..") && !("/" <= c.folder)
  }

  /** validate: appends one message per violated rule. */
  method Validate(c: Connection) returns (errors: seq<string>)
    ensures errors == ValidationErrors(c)
  {
    errors := [];
    if c.name == "" {
      errors := errors + [NameRequired];
    } else if !NamePatternMatches(c.name) {
      errors := errors + [NameCharacters];
    }
    assert errors == NameErrors(c);
    ghost var named := errors;
    if c.hostname == "" {
      errors := errors + [HostnameRequired];
    }
    ghost var hosted := errors;
    if c.user == "" {
      errors := errors + [UsernameRequired];
    }
    AppendTwo(named, hosted, errors, if c.hostname == "" then [HostnameRequired] else [],
              if c.user == "" then [UsernameRequired] else []);
    ghost var fielded := errors;
    if !(1 <= c.port <= 65535) {
      errors := errors + [PortRange];
    }
    ghost var ported := errors;
    if BadFolder(c.folder) {
      errors := errors + [InvalidFolder];
    }
    AppendTwo(fielded, ported, errors, if !(1 <= c.port <= 65535) then [PortRange] else [],
              if BadFolder(c.folder) then [InvalidFolder] else []);
  }

  /** Two appends in a row append their concatenation. */
  lemma AppendTwo(a: seq<string>, b: seq<string>, c: seq<string>, x: seq<string>, y: seq<string>)
    requires b == a + x && c == b + y
    ensures c == a + (x + y)
  {
  }

  /** validate returns [] exactly for records satisfying every rule. */
  lemma ValidateEmptyIff(c: Connection)
    ensures ValidationErrors(c) == [] <==> IsValid(c)
  {
  }

  /** The six messages are pairwise different. */
  lemma MessagesDistinct()
    ensures NameRequired != NameCharacters && HostnameRequired != UsernameRequired
    ensures forall m :: m in [NameRequired, NameCharacters, HostnameRequired] ==> m != PortRange && m != InvalidFolder
    ensures forall m :: m in [NameRequired, NameCharacters] ==> m != HostnameRequired && m != UsernameRequired
    ensures PortRange != InvalidFolder && UsernameRequired != PortRange && UsernameRequired != InvalidFolder
  {
    assert HostnameRequired[0] == 'H' && UsernameRequired[0] == 'U';
    assert |NameRequired| == 27 && |NameCharacters| == 74 && |HostnameRequired| == 20 && |UsernameRequired| == 20;
    assert |PortRange| == 32 && |InvalidFolder| == 19;
  }

  /** validate reports each name message exactly when its rule fails, and
      never both. */
  lemma ValidationNameMessages(c: Connection)
    ensures NameRequired in ValidationErrors(c) <==> c.name == ""
    ensures NameCharacters in ValidationErrors(c) <==> c.name != "" && !NamePatternMatches(c.name)
    ensures !(NameRequired in ValidationErrors(c) && NameCharacters in ValidationErrors(c))
  {
    MessagesDistinct();
    NameErrorMembers(c);
    FieldErrorMembers(c);
    RangeErrorMembers(c);
  }

  /** validate reports a missing hostname and a missing user separately. */
  lemma ValidationFieldMessages(c: Connection)
    ensures HostnameRequired in ValidationErrors(c) <==> c.hostname == ""
    ensures UsernameRequired in ValidationErrors(c) <==> c.user == ""
  {
    MessagesDistinct();
    NameErrorMembers(c);
    FieldErrorMembers(c);
    RangeErrorMembers(c);
  }

  /** validate reports a port outside 1..65535 and a folder path that escapes. */
  lemma ValidationRangeMessages(c: Connection)
    ensures PortRange in ValidationErrors(c) <==> !(1 <= c.port <= 65535)
    ensures InvalidFolder in ValidationErrors(c) <==> BadFolder(c.folder)
  {
    MessagesDistinct();
    NameErrorMembers(c);
    FieldErrorMembers(c);
    RangeErrorMembers(c);
  }

  lemma NameErrorMembers(c: Connection)
    ensures forall m :: m in NameErrors(c) <==>
      (m == NameRequired && c.name == "") || (m == NameCharacters && c.name != "" && !NamePatternMatches(c.name))
  {
  }

  lemma FieldErrorMembers(c: Connection)
    ensures forall m :: m in FieldErrors(c) <==>
      (m == HostnameRequired && c.hostname == "") || (m == UsernameRequired && c.user == "")
  {
  }

  lemma RangeErrorMembers(c: Connection)
    ensures forall m :: m in RangeErrors(c) <==>
      (m == PortRange && !(1 <= c.port <= 65535)) || (m == InvalidFolder && BadFolder(c.folder))
  {
  }

  // ---------------------------------------------------------------------
  // to_dict / from_dict / get_display_name
  // ---------------------------------------------------------------------

  /** The values a connection dictionary holds. */
  datatype DictValue = Str(s: string) | Int(i: int) | Forwards(fs: seq<Forward>)

  function ToDict(c: Connection): map<string, DictValue>
  {
    map["name" := Str(c.name), "hostname" := Str(c.hostname), "user" := Str(c.user),
        "port" := Int(c.port), "identity_file" := Str(c.identityFile), "folder" := Str(c.folder),
        "proxy_jump" := Str(c.proxyJump), "local_forwards" := Forwards(c.localForwards),
        "remote_forwards" := Forwards(c.remoteForwards), "color_tag" := Str(c.colorTag)]
  }

  function GetStr(d: map<string, DictValue>, k: string, default: string): string
  {
    if k in d && d[k].Str? then d[k].s else default
  }

  function GetInt(d: map<string, DictValue>, k: string, default: int): int
  {
    if k in d && d[k].Int? then d[k].i else default
  }

  function GetForwards(d: map<string, DictValue>, k: string): seq<Forward>
  {
    if k in d && d[k].Forwards? then d[k].fs else []
  }

  /** from_dict: every missing key takes its default. */
  function FromDict(d: map<string, DictValue>): Connection
  {
    Connection(GetStr(d, "name", ""), GetStr(d, "hostname", ""), GetStr(d, "user", ""),
               GetInt(d, "port", 22), GetStr(d, "identity_file", ""), GetStr(d, "folder", "personal"),
               GetStr(d, "proxy_jump", ""), GetForwards(d, "local_forwards"),
               GetForwards(d, "remote_forwards"), GetStr(d, "color_tag", ""))
  }

  lemma DictRoundTrip(c: Connection)
    ensures FromDict(ToDict(c)) == c
  {
  }

  lemma EmptyDictDefaults()
    ensures FromDict(map[]) == Connection("", "", "", 22, "", "personal", "", [], [], "")
  {
  }

  /** get_display_name: a colour emoji (or the computer emoji), a space, the name. */
  function DisplayName(c: Connection): (r: string)
    ensures |r| == |c.name| + 2 && r[2..] == c.name && r[1] == ' '
    ensures r[0] == (if c.colorTag == "production" then '🔴'
                     else if c.colorTag == "staging" then '🟡'
                     else if c.colorTag == "development" then '🟢'
                     else '💻')
  {
    var emoji := if c.colorTag == "production" then "🔴"
                 else if c.colorTag == "staging" then "🟡"
                 else if c.colorTag == "development" then "🟢"
                 else "💻";
    emoji + " " + c.name
  }
}
