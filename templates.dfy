/** The built-in connection templates of the backend and the `str.format`
    substitution that fills them. A template's text is kept as the sequence
    of its literal runs and `{key}` fields; `TemplateText` spells it out. */
module Templates {
  import opened Wrappers
  import opened Text

  /** One run of template text: literal characters or a `{key}` field. */
  datatype Piece = Lit(text: string) | Field(key: string)

  datatype Template = Template(name: string, description: string, content: seq<Piece>)

  /** The error `str.format` raises, as far as the model distinguishes it. */
  datatype FormatError = MissingKey(key: string) | SingleBrace | Unterminated

  /** The text of a piece sequence. */
  function TemplateText(ps: seq<Piece>): string
  {
    if ps == [] then ""
    else
      match ps[0]
      case Lit(t) => t + TemplateText(ps[1..])
      case Field(k) => "{" + k + "}" + TemplateText(ps[1..])
  }

  /** The keys a piece sequence refers to. */
  function Keys(ps: seq<Piece>): set<string>
  {
    if ps == [] then {}
    else
      match ps[0]
      case Lit(_) => Keys(ps[1..])
      case Field(k) => {k} + Keys(ps[1..])
  }

  /** Literal runs hold no braces and keys hold no closing brace, so the
      text reads back as the same pieces. */
  predicate WellFormed(ps: seq<Piece>)
  {
    forall p :: p in ps ==> Braceless(p)
  }

  predicate Braceless(p: Piece)
  {
    match p
    case Lit(t) => '{' !in t && '}' !in t
    case Field(k) => '{' !in k && '}' !in k
  }

  function Prepend(prefix: string, r: Result<string, FormatError>): (p: Result<string, FormatError>)
    ensures p.Ok? <==> r.Ok?
    ensures p.Ok? ==> p.value == prefix + r.value
    ensures p.Err? ==> p.error == r.error
  {
    match r
    case Ok(v) => Ok(prefix + v)
    case Err(e) => Err(e)
  }

  /** Index of the first '}' in `s` at or after `from`. */
  function CloseAt(s: string, from: nat): (r: Option<nat>)
    requires from <= |s|
    ensures r.Some? ==> from <= r.value < |s| && s[r.value] == '}' && Lacks(s[from..r.value], '}')
    ensures r.None? ==> Lacks(s[from..], '}')
    decreases |s| - from
  {
    if from == |s| then None
    else if s[from] == '}' then Some(from)
    else CloseAt(s, from + 1)
  }

  /** `s.format(**vars)` for format strings whose fields are plain names:
      "{{" and "}}" stand for single braces, `{key}` for `vars[key]`; the
      first missing key or stray brace met from the left is the error. */
  function Format(s: string, vars: map<string, string>): (r: Result<string, FormatError>)
    decreases |s|
  {
    if s == [] then Ok("")
    else if s[0] == '{' && |s| > 1 && s[1] == '{' then Prepend("{", Format(s[2..], vars))
    else if s[0] == '}' && |s| > 1 && s[1] == '}' then Prepend("}", Format(s[2..], vars))
    else if s[0] == '}' then Err(SingleBrace)
    else if s[0] == '{' then
      match CloseAt(s, 1)
      case None => Err(Unterminated)
      case Some(j) =>
        var key := s[1..j];
        if key in vars then Prepend(vars[key], Format(s[j + 1..], vars)) else Err(MissingKey(key))
    else Prepend([s[0]], Format(s[1..], vars))
  }

  /** Filling a piece sequence: each field is replaced by its value; the
      first field without a value is the error. */
  function Render(ps: seq<Piece>, vars: map<string, string>): (r: Result<string, FormatError>)
  {
    if ps == [] then Ok("")
    else
      match ps[0]
      case Lit(t) => Prepend(t, Render(ps[1..], vars))
      case Field(k) => if k in vars then Prepend(vars[k], Render(ps[1..], vars)) else Err(MissingKey(k))
  }

  /** A literal run without braces is copied through. */
  lemma {:induction false} FormatLiteral(t: string, rest: string, vars: map<string, string>)
    requires '{' !in t && '}' !in t
    ensures Format(t + rest, vars) == Prepend(t, Format(rest, vars))
  {
    var r := Format(rest, vars);
    if t == [] {
      assert t + rest == rest;
      if r.Ok? {
        assert t + r.value == r.value;
      }
    } else {
      var s := t + rest;
      assert s[0] == t[0] && t[0] in t;
      assert s[1..] == t[1..] + rest;
      assert Format(s, vars) == Prepend([t[0]], Format(s[1..], vars));
      FormatLiteral(t[1..], rest, vars);
      if r.Ok? {
        assert [t[0]] + (t[1..] + r.value) == t + r.value;
      }
    }
  }

  /** A field is replaced by its value, or fails when the key is missing. */
  lemma FormatField(k: string, rest: string, vars: map<string, string>)
    requires '{' !in k && '}' !in k
    ensures Format("{" + k + "}" + rest, vars)
      == if k in vars then Prepend(vars[k], Format(rest, vars)) else Err(MissingKey(k))
  {
    var s := "{" + k + "}" + rest;
    assert s[0] == '{';
    assert |k| > 0 ==> s[1] == k[0] && k[0] != '{' && k[0] in k;
    assert |k| == 0 ==> s[1] == '}';
    CloseFound(s, k, 1);
    assert s[1..|k| + 1] == k;
    assert s[|k| + 2..] == rest;
  }

  lemma {:induction false} CloseFound(s: string, k: string, from: nat)
    requires 1 <= from <= |k| + 1 && '}' !in k
    requires |s| > |k| + 1 && s[|k| + 1] == '}' && s[1..|k| + 1] == k
    ensures CloseAt(s, from) == Some(|k| + 1)
    decreases |k| + 1 - from
  {
    if from < |k| + 1 {
      assert s[from] == k[from - 1] && k[from - 1] in k;
      CloseFound(s, k, from + 1);
    }
  }

  /** The text of well-formed pieces formats exactly as the pieces render. */
  lemma {:induction false} FormatText(ps: seq<Piece>, vars: map<string, string>)
    requires WellFormed(ps)
    ensures Format(TemplateText(ps), vars) == Render(ps, vars)
  {
    if ps != [] {
      assert ps[0] in ps;
      assert WellFormed(ps[1..]) by {
        forall p | p in ps[1..] ensures p in ps { }
      }
      FormatText(ps[1..], vars);
      match ps[0]
      case Lit(t) =>
        FormatLiteral(t, TemplateText(ps[1..]), vars);
      case Field(k) =>
        FormatField(k, TemplateText(ps[1..]), vars);
    }
  }

  /** Rendering fails exactly when a referenced key has no value, and then
      names a missing key. */
  lemma {:induction false} RenderOk(ps: seq<Piece>, vars: map<string, string>)
    ensures Render(ps, vars).Ok? <==> Keys(ps) <= vars.Keys
    ensures Render(ps, vars).Err? ==>
      Render(ps, vars).error.MissingKey? && Render(ps, vars).error.key in Keys(ps) && Render(ps, vars).error.key !in vars
  {
    if ps != [] {
      RenderOk(ps[1..], vars);
    }
  }

  /** Variables the pieces do not mention make no difference. */
  lemma {:induction false} RenderIgnoresExtra(ps: seq<Piece>, vars: map<string, string>, more: map<string, string>)
    requires forall k :: k in Keys(ps) ==> (k in vars <==> k in more) && (k in vars ==> vars[k] == more[k])
    ensures Render(ps, vars) == Render(ps, more)
  {
    if ps != [] {
      RenderIgnoresExtra(ps[1..], vars, more);
    }
  }

  /** The template ids in the order `get_template_names` yields them. */
  const TemplateNames: seq<string> := ["basic-server", "aws-ec2", "jump-host", "developer"]

  const BasicServer: Template := Template("Basic Server", "Simple SSH connection with username and host", [
    Lit("# Basic SSH Connection\nHost "),
    Field("name"),
    Lit("\n    HostName "),
    Field("host"),
    Lit("\n"),
    Field("user_line"),
    Lit("\n    Port "),
    Field("port"),
    Lit("\n    IdentityFile "),
    Field("key_file"),
    Lit("\n    \n    # Essential Connection Settings\n    ServerAliveInterval "),
    Field("server_alive_interval"),
    Lit("\n    ServerAliveCountMax "),
    Field("server_alive_count_max"),
    Lit("\n    ConnectTimeout "),
    Field("connect_timeout"),
    Lit("\n    Compression "),
    Field("compression"),
    Lit("\n    StrictHostKeyChecking "),
    Field("strict_host_key_checking"),
    Lit("\n    \n    # Developer Features\n    ControlMaster "),
    Field("control_master"),
    Lit("\n    ControlPath "),
    Field("control_path"),
    Lit("\n    ControlPersist "),
    Field("control_persist"),
    Lit("\n    ForwardX11 "),
    Field("forward_x11"),
    Lit("\n    ForwardAgent "),
    Field("forward_agent"),
    Lit("\n")
  ])

  const AwsEc2: Template := Template("AWS EC2 Instance", "AWS EC2 instance with key-based authentication", [
    Lit("# AWS EC2 Instance\nHost "),
    Field("name"),
    Lit("\n    HostName "),
    Field("host"),
    Lit("\n"),
    Field("user_line"),
    Lit("\n    Port "),
    Field("port"),
    Lit("\n    IdentityFile "),
    Field("key_file"),
    Lit("\n    \n    # AWS EC2 Optimized Settings\n    ServerAliveInterval 60\n    ServerAliveCountMax 3\n    ConnectTimeout 30\n    Compression yes\n    StrictHostKeyChecking no\n    UserKnownHostsFile /dev/null\n    \n    # Connection Multiplexing for Speed\n    ControlMaster auto\n    ControlPath ~/.ssh/control-%h-%p-%r\n    ControlPersist 10m\n")
  ])

  const JumpHost: Template := Template("Jump Host (Bastion)", "Connection through a jump host or bastion server", [
    Lit("# Jump Host Configuration\nHost "),
    Field("name"),
    Lit("\n    HostName "),
    Field("host"),
    Lit("\n"),
    Field("user_line"),
    Lit("\n    Port "),
    Field("port"),
    Lit("\n    IdentityFile "),
    Field("key_file"),
    Lit("\n    ProxyJump "),
    Field("jump_host"),
    Lit("\n    \n    # Jump Host Settings\n    ServerAliveInterval "),
    Field("server_alive_interval"),
    Lit("\n    ServerAliveCountMax "),
    Field("server_alive_count_max"),
    Lit("\n    ConnectTimeout "),
    Field("connect_timeout"),
    Lit("\n    Compression "),
    Field("compression"),
    Lit("\n    StrictHostKeyChecking "),
    Field("strict_host_key_checking"),
    Lit("\n    \n    # Connection Management\n    ControlMaster "),
    Field("control_master"),
    Lit("\n    ControlPath "),
    Field("control_path"),
    Lit("\n    ControlPersist "),
    Field("control_persist"),
    Lit("\n")
  ])

  const Developer: Template := Template("Developer Workstation", "Development server with X11 forwarding and port tunneling", [
    Lit("# Developer Workstation\nHost "),
    Field("name"),
    Lit("\n    HostName "),
    Field("host"),
    Lit("\n"),
    Field("user_line"),
    Lit("\n    Port "),
    Field("port"),
    Lit("\n    IdentityFile "),
    Field("key_file"),
    Lit("\n    \n    # Developer Features\n    ForwardX11 yes\n    ForwardX11Trusted yes\n    ForwardAgent yes\n    \n    # Port Forwarding\n"),
    Field("local_forwards"),
    Lit("\n"),
    Field("remote_forwards"),
    Lit("\n"),
    Field("dynamic_forward"),
    Lit("\n    \n    # Connection Settings\n    ServerAliveInterval "),
    Field("server_alive_interval"),
    Lit("\n    ServerAliveCountMax "),
    Field("server_alive_count_max"),
    Lit("\n    ConnectTimeout "),
    Field("connect_timeout"),
    Lit("\n    Compression "),
    Field("compression"),
    Lit("\n    StrictHostKeyChecking "),
    Field("strict_host_key_checking"),
    Lit("\n    \n    # Connection Multiplexing\n    ControlMaster "),
    Field("control_master"),
    Lit("\n    ControlPath "),
    Field("control_path"),
    Lit("\n    ControlPersist "),
    Field("control_persist"),
    Lit("\n")
  ])

  /** The built-in template of each id. */
  function Builtin(id: string): Template
    requires id in TemplateNames
  {
    if id == "basic-server" then BasicServer
    else if id == "aws-ec2" then AwsEc2
    else if id == "jump-host" then JumpHost
    else Developer
  }

  /** The dictionary `Templates.__init__` builds: the four built-ins by id. */
  const DefaultTemplates: map<string, Template> := map id | id in TemplateNames :: Builtin(id)

  /** The built-in ids are exactly the four names, each listed once. */
  lemma DefaultTemplateIds()
    ensures forall id :: id in DefaultTemplates <==> id in TemplateNames
    ensures forall i, j :: 0 <= i < j < |TemplateNames| ==> TemplateNames[i] != TemplateNames[j]
  {
  }

  /** `get_template` over a table of templates: the template, or the
      ValueError message for an unknown id. */
  function GetTemplateIn(table: map<string, Template>, id: string): (r: Result<Template, string>)
    ensures r.Ok? <==> id in table
    ensures r.Ok? ==> r.value == table[id]
    ensures r.Err? ==> r.error == "Template '" + id + "' not found"
  {
    if id in table then Ok(table[id]) else Err("Template '" + id + "' not found")
  }

  /** `create_from_template`: the template's pieces are filled in, and a
      missing key becomes the ValueError message of the source (a KeyError's
      text is the quoted key). `FormatText` shows this is `str.format` of the
      template's text whenever the literal runs hold no braces. */
  function CreateFromTemplateIn(table: map<string, Template>, id: string, vars: map<string, string>): (r: Result<string, string>)
  {
    match GetTemplateIn(table, id)
    case Err(e) => Err(e)
    case Ok(t) => FormatMessage(Render(t.content, vars))
  }

  /** The ValueError message for each way `str.format` can fail. */
  function FormatMessage(r: Result<string, FormatError>): (m: Result<string, string>)
  {
    match r
    case Ok(s) => Ok(s)
    case Err(MissingKey(k)) => Err("Missing template variable: '" + k + "'")
    case Err(SingleBrace) => Err("Single '}' encountered in format string")
    case Err(Unterminated) => Err("expected '}' before end of string")
  }

  /** A template fills in exactly when every key it mentions has a value;
      otherwise the message names a missing key. */
  lemma CreateFromTemplateSpec(table: map<string, Template>, id: string, vars: map<string, string>)
    ensures id !in table ==> CreateFromTemplateIn(table, id, vars) == Err("Template '" + id + "' not found")
    ensures id in table ==>
      var ps := table[id].content;
      && (CreateFromTemplateIn(table, id, vars).Ok? <==> Keys(ps) <= vars.Keys)
      && (CreateFromTemplateIn(table, id, vars).Err? ==>
            exists k :: k in Keys(ps) && k !in vars && CreateFromTemplateIn(table, id, vars).error == "Missing template variable: '" + k + "'")
  {
    if id in table {
      RenderOk(table[id].content, vars);
    }
  }

  /** The template store: its table of templates and the order in which it
      lists their ids. */
  class Templates {
    /** `self.default_templates` */
    const defaults: map<string, Template>
    /** The ids of `defaults` in insertion order. */
    const names: seq<string>

    ghost predicate Valid()
    {
      forall id :: id in defaults <==> id in names
    }

    constructor()
      ensures defaults == DefaultTemplates && names == TemplateNames
      ensures Valid()
    {
      defaults := DefaultTemplates;
      names := TemplateNames;
      DefaultTemplateIds();
    }

    /** `get_template_names` */
    function GetTemplateNames(): (r: seq<string>)
      requires Valid()
      ensures forall id :: id in r <==> GetTemplate(id).Ok?
    {
      names
    }

    /** `get_template` */
    function GetTemplate(id: string): (r: Result<Template, string>)
      ensures r.Ok? <==> id in defaults
      ensures r.Err? ==> r.error == "Template '" + id + "' not found"
    {
      GetTemplateIn(defaults, id)
    }

    /** `create_from_template` */
    function CreateFromTemplate(id: string, vars: map<string, string>): (r: Result<string, string>)
      ensures id !in defaults ==> r == Err("Template '" + id + "' not found")
      ensures id in defaults ==> (r.Ok? <==> Keys(defaults[id].content) <= vars.Keys)
    {
      CreateFromTemplateSpec(defaults, id, vars);
      CreateFromTemplateIn(defaults, id, vars)
    }
  }

  /** The keys of a forward entry that `format_port_forwards` and
      `format_remote_forwards` read. */
  datatype Style = Style(keyword: string, first: string, hostKey: string, second: string)

  const LocalStyle: Style := Style("LocalForward", "local_port", "remote_host", "remote_port")
  const RemoteStyle: Style := Style("RemoteForward", "remote_port", "local_host", "local_port")

  /** `forward.get(key)` is truthy. */
  predicate Truthy(f: map<string, string>, key: string)
  {
    key in f && f[key] != ""
  }

  /** An entry with both ports set yields a line; others are dropped. */
  predicate Qualifies(st: Style, f: map<string, string>)
  {
    Truthy(f, st.first) && Truthy(f, st.second)
  }

  /** `    <Keyword> <first> <host>:<second>`, the host defaulting to localhost. */
  function ForwardLine(st: Style, f: map<string, string>): (r: string)
    requires Qualifies(st, f)
  {
    var host := if st.hostKey in f then f[st.hostKey] else "localhost";
    "    " + st.keyword + " " + f[st.first] + " " + host + ":" + f[st.second]
  }

  /** The lines of all qualifying entries, in input order. */
  function ForwardLines(st: Style, fs: seq<map<string, string>>): (r: seq<string>)
    ensures |r| <= |fs|
  {
    if fs == [] then []
    else
      var init := ForwardLines(st, fs[..|fs| - 1]);
      var f := fs[|fs| - 1];
      if Qualifies(st, f) then init + [ForwardLine(st, f)] else init
  }

  /** Formatting distributes over concatenation of the entry list. */
  lemma {:induction false} ForwardLinesAppend(st: Style, a: seq<map<string, string>>, b: seq<map<string, string>>)
    ensures ForwardLines(st, a + b) == ForwardLines(st, a) + ForwardLines(st, b)
    decreases |b|
  {
    if b == [] {
      assert a + b == a;
    } else {
      assert (a + b)[..|a + b| - 1] == a + b[..|b| - 1];
      ForwardLinesAppend(st, a, b[..|b| - 1]);
    }
  }

  /** A single entry yields its line exactly when it qualifies. */
  lemma ForwardLinesSingle(st: Style, f: map<string, string>)
    ensures ForwardLines(st, [f]) == if Qualifies(st, f) then [ForwardLine(st, f)] else []
  {
    assert [f][..0] == [];
  }

  /** No line at all exactly when no entry qualifies. */
  lemma {:induction false} ForwardLinesEmpty(st: Style, fs: seq<map<string, string>>)
    ensures ForwardLines(st, fs) == [] <==> forall i :: 0 <= i < |fs| ==> !Qualifies(st, fs[i])
  {
    if fs != [] {
      ForwardLinesEmpty(st, fs[..|fs| - 1]);
      assert forall i :: 0 <= i < |fs| - 1 ==> fs[..|fs| - 1][i] == fs[i];
    }
  }

  /** The shared loop of `format_port_forwards` and `format_remote_forwards`. */
  method FormatForwards(st: Style, fs: seq<map<string, string>>) returns (r: string)
    ensures r == Join(ForwardLines(st, fs), "\n")
  {
    if fs == [] {
      return "";
    }
    var lines: seq<string> := [];
    var i := 0;
    while i < |fs|
      invariant 0 <= i <= |fs|
      invariant lines == ForwardLines(st, fs[..i])
    {
      assert fs[..i + 1][..i] == fs[..i];
      if Qualifies(st, fs[i]) {
        lines := lines + [ForwardLine(st, fs[i])];
      }
      i := i + 1;
    }
    assert fs[..i] == fs;
    r := if lines != [] then Join(lines, "\n") else "";
  }

  /** `format_port_forwards` */
  method FormatPortForwards(fs: seq<map<string, string>>) returns (r: string)
    ensures r == Join(ForwardLines(LocalStyle, fs), "\n")
  {
    r := FormatForwards(LocalStyle, fs);
  }

  /** `format_remote_forwards` */
  method FormatRemoteForwards(fs: seq<map<string, string>>) returns (r: string)
    ensures r == Join(ForwardLines(RemoteStyle, fs), "\n")
  {
    r := FormatForwards(RemoteStyle, fs);
  }

  /** The formatted text is empty exactly when no entry qualifies; when the
      values hold no newline, splitting it on newlines gives back one line
      per qualifying entry. */
  lemma FormattedForwards(st: Style, fs: seq<map<string, string>>)
    requires forall i :: 0 <= i < |fs| ==> forall k :: k in fs[i] ==> Lacks(fs[i][k], '\n')
    requires Lacks(st.keyword, '\n')
    ensures Join(ForwardLines(st, fs), "\n") == "" <==> forall i :: 0 <= i < |fs| ==> !Qualifies(st, fs[i])
    ensures ForwardLines(st, fs) != [] ==> Split(Join(ForwardLines(st, fs), "\n"), "\n") == ForwardLines(st, fs)
  {
    ForwardLinesEmpty(st, fs);
    LinesLackNewline(st, fs);
    var lines := ForwardLines(st, fs);
    if lines != [] {
      SplitJoin(lines, '\n');
      JoinNonEmpty(lines, "\n");
    }
  }

  /** Every formatted line is non-empty and free of newlines. */
  lemma {:induction false} LinesLackNewline(st: Style, fs: seq<map<string, string>>)
    requires forall i :: 0 <= i < |fs| ==> forall k :: k in fs[i] ==> Lacks(fs[i][k], '\n')
    requires Lacks(st.keyword, '\n')
    ensures forall j :: 0 <= j < |ForwardLines(st, fs)| ==>
      ForwardLines(st, fs)[j] != "" && Lacks(ForwardLines(st, fs)[j], '\n')
  {
    if fs != [] {
      LinesLackNewline(st, fs[..|fs| - 1]);
      var f := fs[|fs| - 1];
      if Qualifies(st, f) {
        var host := if st.hostKey in f then f[st.hostKey] else "localhost";
        assert Lacks(host, '\n');
        var line := ForwardLine(st, f);
        assert line == "    " + st.keyword + " " + f[st.first] + " " + host + ":" + f[st.second];
        assert Lacks(line, '\n');
      }
    }
  }

  /** Joining a non-empty list whose first part is non-empty is non-empty. */
  lemma JoinNonEmpty(parts: seq<string>, sep: string)
    requires parts != [] && parts[0] != ""
    ensures Join(parts, sep) != ""
  {
  }
}
