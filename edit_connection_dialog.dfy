/** The rules of the Edit Connection dialog that do not depend on widgets:
    the key/value reading of a connection's configuration text, the form it
    fills with its defaults, and the remove/add/restore sequence of saving. */
module EditConnectionDialog {
  import opened Wrappers
  import opened Text
  import opened FileSystem
  import opened FileUtils
  import opened SshManager
  import opened AddConnectionDialog

  // ---------------------------------------------------------------------
  // parse_ssh_config
  // ---------------------------------------------------------------------

  /** The entry one line contributes: none for a blank line, a comment, a
      `Host ` line or a line without a space; otherwise the first word in
      lower case and the rest stripped. */
  function LineEntry(raw: string): (r: Option<(string, string)>)
    ensures r.None? <==>
      (var line := Strip(raw); line == "" || "#" <= line || "Host " <= line || Lacks(line, ' '))
    ensures r.Some? ==> IsStripped(r.value.1) && |r.value.0| < |Strip(raw)|
  {
    var line := Strip(raw);
    if line == "" || "#" <= line || "Host " <= line then None
    else match SplitOnce(line, ' ')
      case None => None
      case Some((key, value)) => StripResult(value); Some((Lower(key), Strip(value)))
  }

  /** The dictionary after the given lines: later entries overwrite earlier
      ones. */
  function ParseLines(lines: seq<string>): map<string, string>
  {
    if lines == [] then map[]
    else
      var before := ParseLines(lines[..|lines| - 1]);
      match LineEntry(lines[|lines| - 1])
      case None => before
      case Some((key, value)) => before[key := value]
  }

  /** `parse_ssh_config`: the loop over the lines of the text. */
  method ParseSshConfig(content: string) returns (values: map<string, string>)
    ensures values == ParseLines(Split(content, "\n"))
  {
    var lines := Split(content, "\n");
    values := map[];
    var i := 0;
    while i < |lines|
      invariant 0 <= i <= |lines|
      invariant values == ParseLines(lines[..i])
    {
      var next := lines[..i + 1];
      assert next[..|next| - 1] == lines[..i] && next[|next| - 1] == lines[i];
      var entry := LineEntry(lines[i]);
      if entry.Some? {
        values := values[entry.value.0 := entry.value.1];
      }
      i := i + 1;
    }
    assert lines[..|lines|] == lines;
  }

  /** A key is present exactly when some line contributes an entry for it. */
  lemma ParsedKeys(lines: seq<string>, key: string)
    ensures key in ParseLines(lines) <==>
      exists i :: 0 <= i < |lines| && LineEntry(lines[i]).Some? && LineEntry(lines[i]).value.0 == key
  {
    if exists i :: 0 <= i < |lines| && GivesKey(lines[i], key) {
      var i :| 0 <= i < |lines| && GivesKey(lines[i], key);
      ParsedKeyGiven(lines, key, i);
    } else {
      ParsedKeyOnlyGiven(lines, key);
    }
  }

  /** The line gives an entry for `key`. */
  predicate GivesKey(line: string, key: string)
  {
    LineEntry(line).Some? && LineEntry(line).value.0 == key
  }

  /** A key some line gives is in the dictionary. */
  lemma {:induction false} ParsedKeyGiven(lines: seq<string>, key: string, i: nat)
    requires i < |lines| && GivesKey(lines[i], key)
    ensures key in ParseLines(lines)
  {
    var init := lines[..|lines| - 1];
    ParseLinesLast(lines);
    if i < |lines| - 1 {
      assert init[i] == lines[i];
      ParsedKeyGiven(init, key, i);
    }
  }

  /** A key in the dictionary is given by some line. */
  lemma {:induction false} ParsedKeyOnlyGiven(lines: seq<string>, key: string)
    ensures key in ParseLines(lines) ==> exists i :: 0 <= i < |lines| && GivesKey(lines[i], key)
  {
    if lines != [] && key in ParseLines(lines) {
      var last := |lines| - 1;
      var init := lines[..last];
      ParseLinesLast(lines);
      if GivesKey(lines[last], key) {
        assert 0 <= last < |lines| && GivesKey(lines[last], key);
      } else {
        assert key in ParseLines(init);
        ParsedKeyOnlyGiven(init, key);
        var i :| 0 <= i < |init| && GivesKey(init[i], key);
        assert lines[i] == init[i];
        assert 0 <= i < |lines| && GivesKey(lines[i], key);
      }
    }
  }

  /** The value of a key is the one of the last line that gives it. */
  lemma {:induction false} LastWins(lines: seq<string>, i: nat)
    requires i < |lines| && LineEntry(lines[i]).Some?
    requires forall j :: i < j < |lines| ==>
      LineEntry(lines[j]).None? || LineEntry(lines[j]).value.0 != LineEntry(lines[i]).value.0
    ensures LineEntry(lines[i]).value.0 in ParseLines(lines)
    ensures ParseLines(lines)[LineEntry(lines[i]).value.0] == LineEntry(lines[i]).value.1
  {
    var n := |lines| - 1;
    var init := lines[..n];
    var entry := LineEntry(lines[i]).value;
    var last := LineEntry(lines[n]);
    ParseLinesLast(lines);
    if i < n {
      assert entry.0 in ParseLines(init) && ParseLines(init)[entry.0] == entry.1 by {
        assert init[i] == lines[i];
        forall j | i < j < |init|
          ensures LineEntry(init[j]).None? || LineEntry(init[j]).value.0 != LineEntry(init[i]).value.0
        {
          assert init[j] == lines[j];
        }
        LastWins(init, i);
      }
      StepKeeps(ParseLines(init), ParseLines(lines), last, entry.0, entry.1);
    }
  }

  /** An entry for another key, or none, keeps what a key maps to. */
  lemma StepKeeps(before: map<string, string>, after: map<string, string>, e: Option<(string, string)>,
                  key: string, value: string)
    requires after == if e.None? then before else before[e.value.0 := e.value.1]
    requires key in before && before[key] == value && (e.None? || e.value.0 != key)
    ensures key in after && after[key] == value
  {
  }

  /** One step of `ParseLines`: the last line's entry, if any, overwrites. */
  lemma ParseLinesLast(lines: seq<string>)
    requires lines != []
    ensures var e := LineEntry(lines[|lines| - 1]);
      ParseLines(lines) == if e.None? then ParseLines(lines[..|lines| - 1])
        else ParseLines(lines[..|lines| - 1])[e.value.0 := e.value.1]
  {
  }

  /** Splitting at the first occurrence of a character is unique. */
  lemma FirstOccurrence(a: string, b: string, a': string, b': string, c: char)
    requires a + [c] + b == a' + [c] + b'
    requires Lacks(a, c) && Lacks(a', c)
    ensures a == a' && b == b'
  {
    var s := a + [c] + b;
    assert forall i :: 0 <= i < |a| ==> s[i] == a[i];
    assert forall i :: 0 <= i < |a'| ==> s[i] == a'[i];
    assert s[|a|] == c && s[|a'|] == c;
    assert |a| == |a'|;
    assert a == s[..|a|] == a';
    assert b == s[|a| + 1..] == b';
  }

  /** A line that starts with a word other than `Host` followed by a space
      is not a `Host ` line. */
  lemma NotHostLine(keyword: string, rest: string)
    requires NoSpace(keyword) && keyword != "Host"
    ensures !("Host " <= keyword + " " + rest)
  {
    var w := keyword + " " + rest;
    var host := "Host ";
    if |keyword| < 4 {
      assert w[|keyword|] == ' ' != host[|keyword|];
    } else if |keyword| == 4 {
      assert w[..4] == keyword != host[..4];
    } else {
      assert w[4] == keyword[4] != ' ';
    }
  }

  /** `line.split(' ', 1)` of a word, a space and a value. */
  lemma SplitAtSpace(keyword: string, value: string)
    requires NoSpace(keyword)
    ensures SplitOnce(keyword + " " + value, ' ') == Some((keyword, value))
  {
    var w := keyword + " " + value;
    assert w == keyword + [' '] + value;
    assert w[|keyword|] == ' ';
    var split := SplitOnce(w, ' ');
    assert Lacks(keyword, ' ');
    FirstOccurrence(split.value.0, split.value.1, keyword, value, ' ');
  }

  /** A line `<indent><Keyword> <value>` as the templates write it yields
      the keyword in lower case with the value. */
  lemma DirectiveEntry(indent: string, keyword: string, value: string)
    requires forall i :: 0 <= i < |indent| ==> indent[i] == ' '
    requires keyword != "" && NoSpace(keyword) && keyword[0] != '#' && keyword != "Host"
    requires value != "" && IsStripped(value)
    ensures LineEntry(indent + keyword + " " + value) == Some((Lower(keyword), value))
  {
    var w := keyword + " " + value;
    assert indent + keyword + " " + value == indent + w;
    assert w[0] == keyword[0] && w[|w| - 1] == value[|value| - 1];
    StripIndented(indent, w);
    assert !("#" <= w);
    NotHostLine(keyword, value);
    SplitAtSpace(keyword, value);
    StripStripped(value);
  }

  // ---------------------------------------------------------------------
  // populate_form_with_connection_data
  // ---------------------------------------------------------------------

  /** `dict.get(key, default)` */
  function Get(values: map<string, string>, key: string, default: string): (v: string)
    ensures key in values ==> v == values[key]
    ensures key !in values ==> v == default
  {
    if key in values then values[key] else default
  }

  /** The form filled from an entry of `list_connections`: name, group and
      icon from the entry, the rest from the dictionary of its text with
      the fixed defaults. An entry without text makes `split` fail, which is
      None here. */
  function PopulateForm(e: Entry): (r: Option<Form>)
    ensures r.None? <==> e.config.None?
    ensures r.Some? ==> r.value.name == e.name && r.value.group == e.group && r.value.icon == e.icon
    ensures r.Some? ==> r.value.template == InitialForm("").template
    ensures r.Some? ==>
      var values := ParseLines(Split(e.config.value, "\n"));
      && r.value.host == Get(values, "hostname", "")
      && r.value.port == Get(values, "port", "22")
      && (r.value.forwardX11 <==> "forwardx11" in values && Lower(values["forwardx11"]) == "yes")
      && (r.value.forwardAgent <==> "forwardagent" in values && Lower(values["forwardagent"]) == "yes")
  {
    match e.config
    case None => None
    case Some(content) =>
      var values := ParseLines(Split(content, "\n"));
      assert Lower("no") == "no";
      Some(Form(
        e.name, Get(values, "hostname", ""), Get(values, "user", ""), Get(values, "port", "22"),
        e.group, InitialForm("").template, e.icon,
        Get(values, "identityfile", "~/.ssh/id_ed25519"),
        Get(values, "serveraliveinterval", "60"), Get(values, "serveralivecountmax", "3"),
        Get(values, "connecttimeout", "10"), Get(values, "compression", "yes"),
        Get(values, "stricthostkeychecking", "ask"),
        Lower(Get(values, "forwardx11", "no")) == "yes",
        Lower(Get(values, "forwardagent", "no")) == "yes",
        Get(values, "controlmaster", "auto"), Get(values, "controlpersist", "10m")))
  }

  /** The host field shows the value of the last `HostName` line. */
  lemma PopulatedHost(e: Entry, i: nat, indent: string, keyword: string, host: string)
    requires e.config.Some? && i < |Split(e.config.value, "\n")|
    requires Split(e.config.value, "\n")[i] == indent + keyword + " " + host
    requires forall k :: 0 <= k < |indent| ==> indent[k] == ' '
    requires NoSpace(keyword) && Lower(keyword) == "hostname"
    requires host != "" && IsStripped(host)
    requires forall j :: i < j < |Split(e.config.value, "\n")| ==>
      LineEntry(Split(e.config.value, "\n")[j]).None? || LineEntry(Split(e.config.value, "\n")[j]).value.0 != "hostname"
    ensures PopulateForm(e).Some? && PopulateForm(e).value.host == host
  {
    var lines := Split(e.config.value, "\n");
    HostLineWins(lines, i, indent, keyword, host);
  }

  /** The value of `hostname` parsed from lines whose last `HostName` line
      gives `host`. */
  lemma HostLineWins(lines: seq<string>, i: nat, indent: string, keyword: string, host: string)
    requires i < |lines| && lines[i] == indent + keyword + " " + host
    requires forall k :: 0 <= k < |indent| ==> indent[k] == ' '
    requires NoSpace(keyword) && Lower(keyword) == "hostname"
    requires host != "" && IsStripped(host)
    requires forall j :: i < j < |lines| ==>
      LineEntry(lines[j]).None? || LineEntry(lines[j]).value.0 != "hostname"
    ensures "hostname" in ParseLines(lines) && ParseLines(lines)["hostname"] == host
  {
    HostNameKeyword(keyword);
    DirectiveEntry(indent, keyword, host);
    LastWins(lines, i);
  }

  /** A spelling of `HostName` is a directive keyword other than `Host`. */
  lemma HostNameKeyword(keyword: string)
    requires Lower(keyword) == "hostname"
    ensures keyword != "" && keyword[0] != '#' && keyword != "Host"
  {
    assert Lower("Host") == "host";
    assert |keyword| == |Lower(keyword)|;
    assert Lower(keyword)[0] == LowerChar(keyword[0]);
  }

  // ---------------------------------------------------------------------
  // save_changes
  // ---------------------------------------------------------------------

  /** How saving ended: the form was refused, the connection was saved, or
      an exception reached the handler, which then tried to write the
      original text back. */
  datatype SaveOutcome =
    | Rejected(message: string)
    | Saved(name: string, group: string)
    | Failed(error: Error, restored: bool)

  class EditConnectionDialog {
    const manager: SshManager
    /** `self.connection_info`, whose name and group are the originals. */
    const info: Entry
    var result: Option<(string, string)>

    ghost predicate Valid()
      reads manager, manager.utils, manager.utils.fs
    {
      manager.Valid()
    }

    constructor(manager: SshManager, info: Entry)
      ensures this.manager == manager && this.info == info && result == None
    {
      this.manager := manager;
      this.info := info;
      result := None;
    }

    /** The try-block of `save_changes` raises nothing: the original can be
        removed, and the form's options then added. */
    predicate CanReplace(files: map<Path, string>, dirs: set<Path>, f: Form, envUser: string)
    {
      && CanRemove(files, dirs, manager.utils.ManagerDir(), manager.utils.ConfigPath(), info.group, info.name)
      && CanAdd(Integrate(files - {ConnectionFileIn(manager.utils.ManagerDir(), info.group, info.name).value},
                          manager.utils.ConfigPath(), manager.utils.ManagerDir()),
                dirs, manager.utils.ManagerDir(), manager.utils.ConfigPath(), manager.templates.defaults, GetConnectionOptions(f), envUser)
    }

    /** The try-block of `save_changes`: the original is removed, then the
        form's options are added. */
    method Replace(f: Form, envUser: string) returns (r: Result<(string, string), Error>)
      requires Valid()
      modifies manager.utils.fs
      ensures Valid()
      ensures r.Ok? <==> CanReplace(old(manager.utils.fs.files), old(manager.utils.fs.dirs), f, envUser)
      ensures r.Ok? ==> r.value == (Strip(f.name), Strip(f.group)) && manager.Integrated()
      ensures r.Ok? ==> var o := GetConnectionOptions(f);
        && manager.utils.ConnectionFile(info.group, info.name).Ok?
        && manager.utils.ConnectionFile(GroupOf(o), NameOf(o)).Ok?
        && ConfigText(manager.templates.defaults, o, envUser).Ok?
      ensures r.Ok? ==> var o := GetConnectionOptions(f);
        var gone := manager.utils.ConnectionFile(info.group, info.name).value;
        var file := manager.utils.ConnectionFile(GroupOf(o), NameOf(o)).value;
        && manager.utils.fs.files == Integrate(old(manager.utils.fs.files) - {gone}, manager.utils.ConfigPath(), manager.utils.ManagerDir())
                                       [file := ConfigText(manager.templates.defaults, o, envUser).value]
        && manager.utils.fs.dirs == old(manager.utils.fs.dirs) + Prefixes(Parent(file))
    {
      var removed := manager.RemoveConnection(info.name, info.group);
      if removed.Err? {
        return Err(removed.error);
      }
      ghost var gone := manager.utils.ConnectionFile(info.group, info.name).value;
      r := manager.AddConnection(GetConnectionOptions(f), envUser);
      if r.Ok? {
        var o := GetConnectionOptions(f);
        var file := manager.utils.ConnectionFile(GroupOf(o), NameOf(o)).value;
        ConnectionFileIsConf(manager.utils.ManagerDir(), GroupOf(o), NameOf(o));
        IntegrateAgain(old(manager.utils.fs.files) - {gone}, manager.utils.ConfigPath(), manager.utils.ManagerDir(),
                       file, ConfigText(manager.templates.defaults, o, envUser).value);
      }
    }

    /** The handler's best effort: the original text, when there is one,
        is written back and the Include line brought in; any failure is
        swallowed. */
    method Restore() returns (restored: bool)
      requires Valid()
      modifies manager.utils.fs
      ensures Valid()
      ensures restored <==> HasText(info.config)
                            && CanWriteAndIntegrate(old(manager.utils.fs.files), old(manager.utils.fs.dirs), manager.utils.ManagerDir(),
                                                    manager.utils.ConfigPath(), info.group, info.name, info.config.value)
      ensures restored ==> HasText(info.config)
      ensures restored ==> manager.utils.ReadConfigFile(info.group, info.name) == Ok(info.config)
      ensures restored ==> manager.utils.ConnectionFile(info.group, info.name).Ok?
      ensures restored ==> (manager.utils.fs.files ==
        Integrate(old(manager.utils.fs.files)[manager.utils.ConnectionFile(info.group, info.name).value := info.config.value],
                  manager.utils.ConfigPath(), manager.utils.ManagerDir()))
      ensures !HasText(info.config) ==> unchanged(manager.utils.fs)
      ensures HasText(info.config) ==>
        AfterWriteAndIntegrate(old(manager.utils.fs.files), old(manager.utils.fs.dirs), manager.utils.fs.files, manager.utils.fs.dirs,
                               manager.utils.ManagerDir(), manager.utils.ConfigPath(), info.group, info.name, info.config.value, restored)
    {
      if !HasText(info.config) {
        return false;
      }
      var written := manager.WriteAndIntegrate(info.group, info.name, info.config.value);
      restored := written.Ok?;
    }

    /** `save_changes` */
    method SaveChanges(f: Form, envUser: string) returns (r: SaveOutcome)
      requires Valid()
      modifies this, manager.utils.fs
      ensures Valid()
      ensures ValidateBasicFields(f).Some? ==>
        r == Rejected(ValidateBasicFields(f).value) && result == old(result) && unchanged(manager.utils.fs)
      ensures ValidateBasicFields(f).None? ==> !r.Rejected?
      ensures r.Saved? <==> ValidateBasicFields(f).None? && CanReplace(old(manager.utils.fs.files), old(manager.utils.fs.dirs), f, envUser)
      ensures r.Saved? ==> result == Some((r.name, r.group)) && (r.name, r.group) == (Strip(f.name), Strip(f.group))
      ensures r.Saved? ==> var o := GetConnectionOptions(f);
        && manager.utils.ConnectionFile(info.group, info.name).Ok?
        && manager.utils.ConnectionFile(GroupOf(o), NameOf(o)).Ok?
        && ConfigText(manager.templates.defaults, o, envUser).Ok?
      ensures r.Saved? ==> var o := GetConnectionOptions(f);
        var gone := manager.utils.ConnectionFile(info.group, info.name).value;
        var file := manager.utils.ConnectionFile(GroupOf(o), NameOf(o)).value;
        && manager.utils.fs.files == Integrate(old(manager.utils.fs.files) - {gone}, manager.utils.ConfigPath(), manager.utils.ManagerDir())
                                       [file := ConfigText(manager.templates.defaults, o, envUser).value]
        && manager.utils.fs.dirs == old(manager.utils.fs.dirs) + Prefixes(Parent(file))
      ensures r.Failed? ==> result == old(result)
      ensures r.Failed? && r.restored ==>
        HasText(info.config) && manager.utils.ReadConfigFile(info.group, info.name) == Ok(info.config)
      ensures r.Failed? && !HasText(info.config) ==> !r.restored
    {
      var invalid := ValidateBasicFields(f);
      if invalid.Some? {
        return Rejected(invalid.value);
      }
      var replaced := Replace(f, envUser);
      if replaced.Err? {
        var restored := Restore();
        return Failed(replaced.error, restored);
      }
      result := Some(replaced.value);
      return Saved(replaced.value.0, replaced.value.1);
    }
  }
}
