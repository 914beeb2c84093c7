/** The backend façade `SSHManager`: adding a connection from an options
    dictionary, listing connections with the icon read back from their
    first line, removing and updating connections, the directive scan that
    precedes a test connection, and the integration state of ~/.ssh/config. */
module SshManager {
  import opened Wrappers
  import opened Text
  import opened FileSystem
  import opened Templates
  import opened FileUtils
  import opened Sorting

  // ---------------------------------------------------------------------
  // The options of add_connection
  // ---------------------------------------------------------------------

  /** The options dictionary of `add_connection`: its text options by key,
      and the two forward lists (an absent list is empty). */
  datatype Options = Options(text: map<string, string>,
                             localForwards: seq<map<string, string>>,
                             remoteForwards: seq<map<string, string>>)

  /** `options.get(key, default)` */
  function Setting(o: Options, key: string, default: string): string
  {
    if key in o.text then o.text[key] else default
  }

  function NameOf(o: Options): string
  {
    Setting(o, "name", "")
  }

  function GroupOf(o: Options): string
  {
    Setting(o, "group", "personal")
  }

  /** `name` and `host` are present and non-empty. */
  predicate HasNameAndHost(o: Options)
  {
    NameOf(o) != "" && Setting(o, "host", "") != ""
  }

  const DefaultIcon: string := "💻"

  /** The keys `add_connection` passes to the template. */
  const VariableNames: set<string> := {
    "name", "host", "user_line", "port", "key_file", "jump_host",
    "server_alive_interval", "server_alive_count_max", "connect_timeout",
    "compression", "strict_host_key_checking", "control_master",
    "control_path", "control_persist", "forward_x11", "forward_agent",
    "local_forwards", "remote_forwards", "dynamic_forward"
  }

  /** The template variable `key` of `add_connection`: the option with its
      default, the user line, the formatted forwards and the dynamic
      forward line. The user defaults to the USER environment variable,
      given here as `envUser`. */
  function Value(o: Options, envUser: string, key: string): string
  {
    if key == "user_line" then
      var user := Setting(o, "user", envUser);
      if user != "" then "    User " + user else ""
    else if key == "local_forwards" then Join(ForwardLines(LocalStyle, o.localForwards), "\n")
    else if key == "remote_forwards" then Join(ForwardLines(RemoteStyle, o.remoteForwards), "\n")
    else if key == "dynamic_forward" then
      var dynamic := Setting(o, "dynamic_forward", "");
      if dynamic != "" then "    DynamicForward " + dynamic else ""
    else Setting(o, key, Default(key))
  }

  /** The default of each plain option. */
  function Default(key: string): string
  {
    if key == "port" then "22"
    else if key == "key_file" then "~/.ssh/id_ed25519"
    else if key == "jump_host" then "bastion.example.com"
    else if key == "server_alive_interval" then "60"
    else if key == "server_alive_count_max" then "3"
    else if key == "connect_timeout" then "10"
    else if key == "compression" then "yes"
    else if key == "strict_host_key_checking" then "ask"
    else if key == "control_master" then "auto"
    else if key == "control_path" then "~/.ssh/control-%h-%p-%r"
    else if key == "control_persist" then "10m"
    else if key == "forward_x11" then "no"
    else if key == "forward_agent" then "no"
    else ""
  }

  /** The template variables of `add_connection`. */
  function Variables(o: Options, envUser: string): (r: map<string, string>)
    ensures r.Keys == VariableNames
  {
    map key | key in VariableNames :: Value(o, envUser, key)
  }

  /** The user line is `    User <user>` for a non-empty user and empty
      otherwise; the forward variables are empty exactly when no entry
      yields a line, and the dynamic forward line is empty exactly when the
      option is. */
  lemma VariableLines(o: Options, envUser: string)
    ensures var v := Variables(o, envUser);
      && (v["user_line"] == "" <==> Setting(o, "user", envUser) == "")
      && (v["user_line"] != "" ==> v["user_line"] == "    User " + Setting(o, "user", envUser))
      && (v["dynamic_forward"] == "" <==> Setting(o, "dynamic_forward", "") == "")
      && (v["local_forwards"] == "" <==> forall i :: 0 <= i < |o.localForwards| ==> !Qualifies(LocalStyle, o.localForwards[i]))
      && (v["remote_forwards"] == "" <==> forall i :: 0 <= i < |o.remoteForwards| ==> !Qualifies(RemoteStyle, o.remoteForwards[i]))
  {
    ForwardsEmpty(LocalStyle, o.localForwards);
    ForwardsEmpty(RemoteStyle, o.remoteForwards);
    var v := Variables(o, envUser);
    assert v["user_line"] == Value(o, envUser, "user_line");
    assert v["dynamic_forward"] == Value(o, envUser, "dynamic_forward");
    assert v["local_forwards"] == Value(o, envUser, "local_forwards");
    assert v["remote_forwards"] == Value(o, envUser, "remote_forwards");
  }

  /** The joined forward lines are empty exactly when no entry qualifies. */
  lemma ForwardsEmpty(st: Style, fs: seq<map<string, string>>)
    ensures Join(ForwardLines(st, fs), "\n") == "" <==> forall i :: 0 <= i < |fs| ==> !Qualifies(st, fs[i])
  {
    ForwardLinesEmpty(st, fs);
    if ForwardLines(st, fs) != [] {
      var lines := ForwardLines(st, fs);
      assert lines[0] != "" by {
        var i :| 0 <= i < |fs| && Qualifies(st, fs[i]);
        FirstLineNonEmpty(st, fs);
      }
      JoinHead(lines, "\n");
    }
  }

  /** Every forward line starts with its four-space indent. */
  lemma {:induction false} FirstLineNonEmpty(st: Style, fs: seq<map<string, string>>)
    ensures forall i :: 0 <= i < |ForwardLines(st, fs)| ==> ForwardLines(st, fs)[i] != ""
  {
    if fs != [] {
      FirstLineNonEmpty(st, fs[..|fs| - 1]);
    }
  }

  /** The keys a piece sequence mentions are among `names` when every field
      piece's key is. */
  lemma {:induction false} KeysWithin(ps: seq<Piece>, names: set<string>)
    requires forall i :: 0 <= i < |ps| && ps[i].Field? ==> ps[i].key in names
    ensures Keys(ps) <= names
  {
    if ps != [] {
      KeysWithin(ps[1..], names);
    }
  }

  /** Every key each template of `table` mentions is a variable
      `add_connection` supplies. */
  ghost predicate Fillable(table: map<string, Template>)
  {
    forall id :: id in table ==> Keys(table[id].content) <= VariableNames
  }

  lemma BasicServerKeys()
    ensures Keys(BasicServer.content) <= VariableNames
  {
    KeysWithin(BasicServer.content, VariableNames);
  }

  lemma AwsEc2Keys()
    ensures Keys(AwsEc2.content) <= VariableNames
  {
    KeysWithin(AwsEc2.content, VariableNames);
  }

  lemma JumpHostKeys()
    ensures Keys(JumpHost.content) <= VariableNames
  {
    KeysWithin(JumpHost.content, VariableNames);
  }

  lemma DeveloperKeys()
    ensures Keys(Developer.content) <= VariableNames
  {
    KeysWithin(Developer.content, VariableNames);
  }

  /** The keys of each built-in template are among the variables. */
  lemma BuiltinKeys(id: string)
    requires id in TemplateNames
    ensures Keys(Builtin(id).content) <= VariableNames
  {
    if id == "basic-server" {
      BasicServerKeys();
    } else if id == "aws-ec2" {
      AwsEc2Keys();
    } else if id == "jump-host" {
      JumpHostKeys();
    } else {
      DeveloperKeys();
    }
  }

  /** The built-in templates mention only variables `add_connection` supplies. */
  lemma DefaultsFillable()
    ensures Fillable(DefaultTemplates)
  {
    forall id | id in DefaultTemplates
      ensures Keys(DefaultTemplates[id].content) <= VariableNames
    {
      BuiltinKeys(id);
    }
  }

  /** Filling a template with the variables of `add_connection` fails only
      for an unknown template name. */
  lemma VariablesFillTemplates(table: map<string, Template>, o: Options, envUser: string, id: string)
    requires Fillable(table)
    ensures CreateFromTemplateIn(table, id, Variables(o, envUser)).Ok? <==> id in table
  {
    CreateFromTemplateSpec(table, id, Variables(o, envUser));
  }

  // ---------------------------------------------------------------------
  // The icon comment
  // ---------------------------------------------------------------------

  /** What `list_connections` tests the content for. */
  const IconPrefix: string := "# SSH Manager Icon:"
  /** What `add_connection` writes and `list_connections` splits at. */
  const IconMarker: string := "# SSH Manager Icon: "

  /** The first line of a file `add_connection` writes. */
  function IconLine(icon: string): string
  {
    IconMarker + icon + "\n"
  }

  /** The text `add_connection` writes: the icon line, then the filled
      template; a template error is a ValueError with its message. */
  function ConfigText(table: map<string, Template>, o: Options, envUser: string): (r: Result<string, Error>)
    ensures Fillable(table) ==> (r.Ok? <==> Setting(o, "template", "basic-server") in table)
    ensures r.Ok? ==> IconLine(Setting(o, "icon", DefaultIcon)) <= r.value
  {
    var id := Setting(o, "template", "basic-server");
    assert Fillable(table) ==> (CreateFromTemplateIn(table, id, Variables(o, envUser)).Ok? <==> id in table) by {
      if Fillable(table) {
        VariablesFillTemplates(table, o, envUser, id);
      }
    }
    match CreateFromTemplateIn(table, Setting(o, "template", "basic-server"), Variables(o, envUser))
    case Err(m) => Err(ValueError(m))
    case Ok(content) =>
      var t := IconLine(Setting(o, "icon", DefaultIcon)) + content;
      assert t[..|IconLine(Setting(o, "icon", DefaultIcon))|] == IconLine(Setting(o, "icon", DefaultIcon));
      Ok(t)
  }

  /** The icon `list_connections` reports for a file's content: the text
      after the marker on the first line, or the default when the content is
      missing, empty or does not start with the icon comment. A first line
      that starts with the comment but lacks the space after its colon has
      no second piece, and the lookup raises IndexError. */
  function IconOf(content: Option<string>): (r: Result<string, Error>)
    ensures r.Err? ==> content.Some? && IconPrefix <= content.value
    ensures content.None? || !(IconPrefix <= content.value) ==> r == Ok(DefaultIcon)
  {
    if content.None? || content.value == "" || !(IconPrefix <= content.value) then Ok(DefaultIcon)
    else
      var firstLine := Split(content.value, "\n")[0];
      var parts := Split(firstLine, IconMarker);
      if |parts| < 2 then Err(IndexError("list index out of range")) else Ok(parts[1])
  }

  /** The first line of a file `IconLine` started is the icon comment. */
  lemma IconFirstLine(icon: string, body: string)
    requires Lacks(icon, '\n')
    ensures Split(IconLine(icon) + body, "\n")[0] == IconMarker + icon
  {
    var first := IconMarker + icon;
    assert IconLine(icon) + body == first + ['\n'] + body;
    assert Lacks(first, '\n') by {
      forall i | 0 <= i < |first|
        ensures first[i] != '\n'
      {
        if i >= |IconMarker| {
          assert first[i] == icon[i - |IconMarker|];
        }
      }
    }
    SplitFirstPiece(first, '\n', body);
  }

  /** An icon without a newline and without the marker text is read back
      from any file whose first line `IconLine` wrote. */
  lemma IconReadBack(icon: string, body: string)
    requires Lacks(icon, '\n') && !Contains(icon, IconMarker)
    ensures IconOf(Some(IconLine(icon) + body)) == Ok(icon)
  {
    var content := IconLine(icon) + body;
    assert content[..|IconPrefix|] == IconPrefix;
    IconFirstLine(icon, body);
    SplitKeyword(IconMarker, icon);
  }

  /** So `list_connections` reports the icon `add_connection` was given. */
  lemma WrittenIconReadBack(table: map<string, Template>, o: Options, envUser: string)
    requires ConfigText(table, o, envUser).Ok?
    requires Lacks(Setting(o, "icon", DefaultIcon), '\n') && !Contains(Setting(o, "icon", DefaultIcon), IconMarker)
    ensures IconOf(Some(ConfigText(table, o, envUser).value)) == Ok(Setting(o, "icon", DefaultIcon))
  {
    var icon := Setting(o, "icon", DefaultIcon);
    var t := ConfigText(table, o, envUser).value;
    IconReadBack(icon, t[|IconLine(icon)|..]);
    assert IconLine(icon) + t[|IconLine(icon)|..] == t;
  }

  /** A first line that starts with the comment but does not hold the
      marker with its space (`# SSH Manager Icon:x`) splits into one piece,
      and the icon lookup raises IndexError. */
  lemma IconWithoutSpace(content: string)
    requires IconPrefix <= content && !Contains(Split(content, "\n")[0], IconMarker)
    ensures IconOf(Some(content)) == Err(IndexError("list index out of range"))
  {
    SplitNoSep(Split(content, "\n")[0], IconMarker);
  }

  // ---------------------------------------------------------------------
  // Listing connections
  // ---------------------------------------------------------------------

  /** One dictionary of `list_connections`. */
  datatype Entry = Entry(name: string, group: string, icon: string, config: Option<string>)

  /** The entry of connection `name` in `group`: its content read and its
      icon read back, either of which can raise. */
  function EntryIn(files: map<Path, string>, dirs: set<Path>, managerDir: Path, group: string, name: string): (r: Result<Entry, Error>)
    ensures r.Ok? ==> r.value.name == name && r.value.group == group
    ensures r.Ok? ==> ReadIn(files, dirs, managerDir, group, name) == Ok(r.value.config)
    ensures r.Ok? ==> IconOf(r.value.config) == Ok(r.value.icon)
  {
    match ReadIn(files, dirs, managerDir, group, name)
    case Err(e) => Err(e)
    case Ok(content) =>
      match IconOf(content)
      case Err(e) => Err(e)
      case Ok(icon) => Ok(Entry(name, group, icon, content))
  }

  /** `name` is a connection of `group`: the group's directory exists and
      holds `name`.conf. */
  ghost predicate InGroup(files: map<Path, string>, dirs: set<Path>, managerDir: Path, group: string, name: string)
  {
    match GroupDirIn(managerDir, group)
    case Err(_) => false
    case Ok(dir) => dir in dirs && name in StemsIn(files, dirs, dir)
  }

  /** Some entry of `es` is connection `name` of `group`. */
  ghost predicate Covered(es: seq<Entry>, group: string, name: string)
  {
    exists i :: 0 <= i < |es| && es[i].group == group && es[i].name == name
  }

  /** An entry that `list_connections` may report for the state. */
  ghost predicate Reported(files: map<Path, string>, dirs: set<Path>, managerDir: Path, e: Entry)
  {
    InGroup(files, dirs, managerDir, e.group, e.name) && EntryIn(files, dirs, managerDir, e.group, e.name) == Ok(e)
  }

  /** The inner loop of `list_connections`: one entry per listed name. */
  method EntriesOf(files: map<Path, string>, dirs: set<Path>, managerDir: Path, group: string, names: seq<string>)
    returns (r: Result<seq<Entry>, Error>)
    ensures r.Ok? ==> |r.value| == |names|
    ensures r.Ok? ==> forall i :: 0 <= i < |names| ==> EntryIn(files, dirs, managerDir, group, names[i]) == Ok(r.value[i])
    ensures r.Err? ==> exists i :: 0 <= i < |names| && EntryIn(files, dirs, managerDir, group, names[i]) == Err(r.error)
  {
    var es: seq<Entry> := [];
    for i := 0 to |names|
      invariant |es| == i
      invariant forall j :: 0 <= j < i ==> EntryIn(files, dirs, managerDir, group, names[j]) == Ok(es[j])
    {
      var e := EntryIn(files, dirs, managerDir, group, names[i]);
      if e.Err? {
        return Err(e.error);
      }
      es := es + [e.value];
    }
    return Ok(es);
  }

  /** Every entry of `acc` is reportable and belongs to one of the first
      `k` groups. */
  ghost predicate AllReported(files: map<Path, string>, dirs: set<Path>, managerDir: Path, groups: seq<string>, k: nat, acc: seq<Entry>)
    requires k <= |groups|
  {
    forall i :: 0 <= i < |acc| ==> acc[i].group in groups[..k] && Reported(files, dirs, managerDir, acc[i])
  }

  /** `acc` covers every connection of the first `k` groups. */
  ghost predicate AllCovered(files: map<Path, string>, dirs: set<Path>, managerDir: Path, groups: seq<string>, k: nat, acc: seq<Entry>)
    requires k <= |groups|
  {
    forall j, n :: 0 <= j < k && InGroup(files, dirs, managerDir, groups[j], n) ==> Covered(acc, groups[j], n)
  }

  /** Appending the entries of group `k`'s listing keeps every entry
      reportable. */
  lemma AppendReported(files: map<Path, string>, dirs: set<Path>, managerDir: Path, groups: seq<string>, k: nat,
                       acc: seq<Entry>, names: seq<string>, es: seq<Entry>)
    requires k < |groups| && AllReported(files, dirs, managerDir, groups, k, acc)
    requires ListingIn(files, dirs, managerDir, groups[k], names)
    requires |es| == |names| && forall i :: 0 <= i < |names| ==> EntryIn(files, dirs, managerDir, groups[k], names[i]) == Ok(es[i])
    ensures AllReported(files, dirs, managerDir, groups, k + 1, acc + es)
  {
    var all := acc + es;
    forall i | 0 <= i < |all|
      ensures all[i].group in groups[..k + 1] && Reported(files, dirs, managerDir, all[i])
    {
      if i < |acc| {
        assert all[i] == acc[i];
        assert acc[i].group in groups[..k];
      } else {
        var n := names[i - |acc|];
        assert EntryIn(files, dirs, managerDir, groups[k], n) == Ok(all[i]);
        assert n in names;
        assert groups[..k + 1][k] == groups[k];
      }
    }
  }

  /** Appending the entries of group `k`'s listing covers that group too. */
  lemma AppendCovered(files: map<Path, string>, dirs: set<Path>, managerDir: Path, groups: seq<string>, k: nat,
                      acc: seq<Entry>, names: seq<string>, es: seq<Entry>)
    requires k < |groups| && AllCovered(files, dirs, managerDir, groups, k, acc)
    requires ListingIn(files, dirs, managerDir, groups[k], names)
    requires |es| == |names| && forall i :: 0 <= i < |names| ==> es[i].group == groups[k] && es[i].name == names[i]
    ensures AllCovered(files, dirs, managerDir, groups, k + 1, acc + es)
  {
    var all := acc + es;
    forall j, n | 0 <= j < k + 1 && InGroup(files, dirs, managerDir, groups[j], n)
      ensures Covered(all, groups[j], n)
    {
      if j < k {
        CoveredGrows(acc, es, groups[j], n);
      } else {
        ListedName(files, dirs, managerDir, groups[k], names, n);
        CoveredByListing(acc, es, names, groups[k], n);
      }
    }
  }

  lemma CoveredGrows(acc: seq<Entry>, es: seq<Entry>, group: string, name: string)
    requires Covered(acc, group, name)
    ensures Covered(acc + es, group, name)
  {
    var i :| 0 <= i < |acc| && acc[i].group == group && acc[i].name == name;
    assert (acc + es)[i] == acc[i];
  }

  /** A connection of a group is in the group's listing. */
  lemma ListedName(files: map<Path, string>, dirs: set<Path>, managerDir: Path, group: string, names: seq<string>, name: string)
    requires ListingIn(files, dirs, managerDir, group, names) && InGroup(files, dirs, managerDir, group, name)
    ensures name in names
  {
  }

  lemma CoveredByListing(acc: seq<Entry>, es: seq<Entry>, names: seq<string>, group: string, name: string)
    requires |es| == |names| && name in names
    requires forall i :: 0 <= i < |names| ==> es[i].group == group && es[i].name == names[i]
    ensures Covered(acc + es, group, name)
  {
    var m :| 0 <= m < |names| && names[m] == name;
    assert (acc + es)[|acc| + m] == es[m];
  }

  /** Listing group `g` raises nothing: it parses and every connection of
      it reads and has a readable icon line. */
  ghost predicate Listable(files: map<Path, string>, dirs: set<Path>, managerDir: Path, g: string)
  {
    && ParseGroupPath(g).Ok?
    && forall n :: InGroup(files, dirs, managerDir, g, n) ==> EntryIn(files, dirs, managerDir, g, n).Ok?
  }

  /** The error raised for group `g`: its parse error, or that of one of
      its connections. */
  ghost predicate RaisedBy(files: map<Path, string>, dirs: set<Path>, managerDir: Path, g: string, e: Error)
  {
    || ParseGroupPath(g) == Err(e)
    || exists n :: InGroup(files, dirs, managerDir, g, n) && EntryIn(files, dirs, managerDir, g, n) == Err(e)
  }

  /** The first `k` groups are listable. */
  ghost predicate AllListable(files: map<Path, string>, dirs: set<Path>, managerDir: Path, groups: seq<string>, k: nat)
    requires k <= |groups|
  {
    forall j :: 0 <= j < k ==> Listable(files, dirs, managerDir, groups[j])
  }

  lemma AllListableStep(files: map<Path, string>, dirs: set<Path>, managerDir: Path, groups: seq<string>, k: nat)
    requires k < |groups| && AllListable(files, dirs, managerDir, groups, k) && Listable(files, dirs, managerDir, groups[k])
    ensures AllListable(files, dirs, managerDir, groups, k + 1)
  {
  }

  /** A group whose listing and entries all succeed is listable. */
  lemma ListableGroup(files: map<Path, string>, dirs: set<Path>, managerDir: Path, g: string, names: seq<string>, es: seq<Entry>)
    requires ListingIn(files, dirs, managerDir, g, names)
    requires |es| == |names| && forall i :: 0 <= i < |names| ==> EntryIn(files, dirs, managerDir, g, names[i]) == Ok(es[i])
    ensures Listable(files, dirs, managerDir, g)
  {
    forall n | InGroup(files, dirs, managerDir, g, n)
      ensures EntryIn(files, dirs, managerDir, g, n).Ok?
    {
      ListedName(files, dirs, managerDir, g, names, n);
      var i :| 0 <= i < |names| && names[i] == n;
    }
  }

  /** How many entries `list_connections` appends for group `g`: one per
      `.conf` entry of its directory, none for a missing directory. */
  ghost function ListedCount(files: map<Path, string>, dirs: set<Path>, managerDir: Path, g: string): nat
  {
    match GroupDirIn(managerDir, g)
    case Err(_) => 0
    case Ok(dir) => if dir in dirs then |ConfEntriesIn(files, dirs, dir)| else 0
  }

  /** The number of entries listed for `groups`, the last group counted last. */
  ghost function TotalListed(files: map<Path, string>, dirs: set<Path>, managerDir: Path, groups: seq<string>): nat
  {
    if groups == [] then 0
    else TotalListed(files, dirs, managerDir, groups[..|groups| - 1]) + ListedCount(files, dirs, managerDir, groups[|groups| - 1])
  }

  /** A group's listing has one name per counted entry. */
  lemma ListingCounted(files: map<Path, string>, dirs: set<Path>, managerDir: Path, g: string, names: seq<string>)
    requires ListingIn(files, dirs, managerDir, g, names)
    ensures |names| == ListedCount(files, dirs, managerDir, g)
  {
  }

  /** Counting one more group adds its count. */
  lemma TotalListedStep(files: map<Path, string>, dirs: set<Path>, managerDir: Path, groups: seq<string>, k: nat)
    requires k < |groups|
    ensures TotalListed(files, dirs, managerDir, groups[..k + 1])
            == TotalListed(files, dirs, managerDir, groups[..k]) + ListedCount(files, dirs, managerDir, groups[k])
  {
    assert groups[..k + 1][..k] == groups[..k];
  }

  /** The outer loop of `list_connections` over the groups to scan. */
  method ListIn(files: map<Path, string>, dirs: set<Path>, managerDir: Path, groups: seq<string>)
    returns (r: Result<seq<Entry>, Error>)
    ensures r.Ok? ==> forall i :: 0 <= i < |r.value| ==> r.value[i].group in groups && Reported(files, dirs, managerDir, r.value[i])
    ensures r.Ok? ==> forall g, n :: g in groups && InGroup(files, dirs, managerDir, g, n) ==> Covered(r.value, g, n)
    ensures r.Ok? <==> forall g :: g in groups ==> Listable(files, dirs, managerDir, g)
    ensures r.Err? ==> exists g :: g in groups && RaisedBy(files, dirs, managerDir, g, r.error)
    ensures r.Ok? ==> |r.value| == TotalListed(files, dirs, managerDir, groups)
  {
    var acc: seq<Entry> := [];
    for k := 0 to |groups|
      invariant |acc| == TotalListed(files, dirs, managerDir, groups[..k])
      invariant AllReported(files, dirs, managerDir, groups, k, acc)
      invariant AllCovered(files, dirs, managerDir, groups, k, acc)
      invariant AllListable(files, dirs, managerDir, groups, k)
    {
      var names := ConnectionsIn(files, dirs, managerDir, groups[k]);
      if names.Err? {
        assert groups[k] in groups && RaisedBy(files, dirs, managerDir, groups[k], names.error);
        return Err(names.error);
      }
      var es := EntriesOf(files, dirs, managerDir, groups[k], names.value);
      if es.Err? {
        EntryFailureRaised(files, dirs, managerDir, groups[k], names.value, es.error);
        assert groups[k] in groups;
        return Err(es.error);
      }
      ListableGroup(files, dirs, managerDir, groups[k], names.value, es.value);
      AllListableStep(files, dirs, managerDir, groups, k);
      AppendReported(files, dirs, managerDir, groups, k, acc, names.value, es.value);
      assert forall i :: 0 <= i < |names.value| ==> es.value[i].group == groups[k] && es.value[i].name == names.value[i];
      AppendCovered(files, dirs, managerDir, groups, k, acc, names.value, es.value);
      ListingCounted(files, dirs, managerDir, groups[k], names.value);
      TotalListedStep(files, dirs, managerDir, groups, k);
      acc := acc + es.value;
    }
    assert groups[..|groups|] == groups;
    ListedAll(files, dirs, managerDir, groups, acc);
    EveryGroupListable(files, dirs, managerDir, groups);
    return Ok(acc);
  }

  /** A connection whose entry fails raises its group's error. */
  lemma EntryFailureRaised(files: map<Path, string>, dirs: set<Path>, managerDir: Path, g: string, names: seq<string>, e: Error)
    requires ListingIn(files, dirs, managerDir, g, names)
    requires exists i :: 0 <= i < |names| && EntryIn(files, dirs, managerDir, g, names[i]) == Err(e)
    ensures RaisedBy(files, dirs, managerDir, g, e)
  {
    var i :| 0 <= i < |names| && EntryIn(files, dirs, managerDir, g, names[i]) == Err(e);
    assert names[i] in names;
  }

  /** Every group of the scanned list was found listable. */
  lemma EveryGroupListable(files: map<Path, string>, dirs: set<Path>, managerDir: Path, groups: seq<string>)
    requires AllListable(files, dirs, managerDir, groups, |groups|)
    ensures forall g :: g in groups ==> Listable(files, dirs, managerDir, g)
  {
    forall g | g in groups
      ensures Listable(files, dirs, managerDir, g)
    {
      var j :| 0 <= j < |groups| && groups[j] == g;
    }
  }

  /** After the last group, every entry is reportable and every connection
      of every group is covered. */
  lemma ListedAll(files: map<Path, string>, dirs: set<Path>, managerDir: Path, groups: seq<string>, acc: seq<Entry>)
    requires AllReported(files, dirs, managerDir, groups, |groups|, acc)
    requires AllCovered(files, dirs, managerDir, groups, |groups|, acc)
    ensures forall i :: 0 <= i < |acc| ==> acc[i].group in groups && Reported(files, dirs, managerDir, acc[i])
    ensures forall g, n :: g in groups && InGroup(files, dirs, managerDir, g, n) ==> Covered(acc, g, n)
  {
    assert groups[..|groups|] == groups;
    forall g, n | g in groups && InGroup(files, dirs, managerDir, g, n)
      ensures Covered(acc, g, n)
    {
      var j :| 0 <= j < |groups| && groups[j] == g;
    }
  }

  // ---------------------------------------------------------------------
  // The directive scan of test_connection
  // ---------------------------------------------------------------------

  /** What `test_connection` gathers before connecting. */
  datatype Probe = Probe(host: Option<string>, user: Option<string>, port: int, keyFile: Option<string>)

  const InitialProbe: Probe := Probe(None, None, 22, None)

  /** `line.split(keyword)[1]` for a line starting with the keyword: the text
      up to the keyword's next occurrence. */
  function After(line: string, keyword: string): string
    requires keyword != [] && keyword <= line
  {
    SplitLeading(line, keyword);
    Split(line, keyword)[1]
  }

  /** One line of the scan: the stripped line's directive replaces what an
      earlier one set; a `Port` value that `int()` rejects raises. */
  function ProbeLine(p: Probe, raw: string): Result<Probe, Error>
  {
    var line := Strip(raw);
    if "HostName " <= line then Ok(p.(host := Some(After(line, "HostName "))))
    else if "User " <= line then Ok(p.(user := Some(After(line, "User "))))
    else if "Port " <= line then
      match ParseInt(After(line, "Port "))
      case None => Err(ValueError("invalid literal for int() with base 10: '" + After(line, "Port ") + "'"))
      case Some(n) => Ok(p.(port := n))
    else if "IdentityFile " <= line then Ok(p.(keyFile := Some(After(line, "IdentityFile "))))
    else Ok(p)
  }

  /** The scan over all lines, in order. */
  function ProbeLines(p: Probe, lines: seq<string>): Result<Probe, Error>
  {
    if lines == [] then Ok(p)
    else
      match ProbeLines(p, lines[..|lines| - 1])
      case Err(e) => Err(e)
      case Ok(q) => ProbeLine(q, lines[|lines| - 1])
  }

  /** A scan that succeeds succeeded on every prefix. */
  lemma {:induction false} ProbePrefix(p: Probe, lines: seq<string>, k: nat)
    requires k <= |lines| && ProbeLines(p, lines).Ok?
    ensures ProbeLines(p, lines[..k]).Ok?
    decreases |lines|
  {
    if k < |lines| {
      assert lines[..|lines| - 1][..k] == lines[..k];
      ProbePrefix(p, lines[..|lines| - 1], k);
    } else {
      assert lines[..k] == lines;
    }
  }

  /** The last `HostName` line decides the host. */
  lemma {:induction false} HostNameLastWins(p: Probe, lines: seq<string>, i: nat)
    requires i < |lines| && "HostName " <= Strip(lines[i])
    requires forall j :: i < j < |lines| ==> !("HostName " <= Strip(lines[j]))
    requires ProbeLines(p, lines).Ok?
    ensures ProbeLines(p, lines).value.host == Some(After(Strip(lines[i]), "HostName "))
    decreases |lines|, 1
  {
    ProbePrefix(p, lines, |lines| - 1);
    if i < |lines| - 1 {
      HostNameBefore(p, lines, i);
    } else {
      LineSetsHost(ProbeLines(p, lines[..|lines| - 1]).value, lines[i]);
    }
  }

  /** The case of `HostNameLastWins` where later lines follow the deciding
      one. */
  lemma {:induction false} HostNameBefore(p: Probe, lines: seq<string>, i: nat)
    requires i < |lines| - 1 && "HostName " <= Strip(lines[i])
    requires forall j :: i < j < |lines| ==> !("HostName " <= Strip(lines[j]))
    requires ProbeLines(p, lines).Ok? && ProbeLines(p, lines[..|lines| - 1]).Ok?
    ensures ProbeLines(p, lines).value.host == Some(After(Strip(lines[i]), "HostName "))
    decreases |lines|, 0
  {
    var init := lines[..|lines| - 1];
    assert forall j :: i < j < |init| ==> init[j] == lines[j];
    HostNameLastWins(p, init, i);
    LineKeepsHost(ProbeLines(p, init).value, lines[|lines| - 1]);
  }

  /** A `HostName` line sets the host. */
  lemma LineSetsHost(p: Probe, raw: string)
    requires "HostName " <= Strip(raw)
    ensures ProbeLine(p, raw) == Ok(p.(host := Some(After(Strip(raw), "HostName "))))
  {
  }

  /** Any other line leaves the host as it was. */
  lemma LineKeepsHost(p: Probe, raw: string)
    requires !("HostName " <= Strip(raw)) && ProbeLine(p, raw).Ok?
    ensures ProbeLine(p, raw).value.host == p.host
  {
  }

  /** Without a `Port` line the scan cannot fail and the port keeps its
      default. */
  lemma {:induction false} PortDefault(p: Probe, lines: seq<string>)
    requires forall j :: 0 <= j < |lines| ==> !("Port " <= Strip(lines[j]))
    ensures ProbeLines(p, lines).Ok? && ProbeLines(p, lines).value.port == p.port
    decreases |lines|
  {
    if lines != [] {
      var init := lines[..|lines| - 1];
      assert forall j :: 0 <= j < |init| ==> init[j] == lines[j];
      PortDefault(p, init);
      LineKeepsPort(ProbeLines(p, init).value, lines[|lines| - 1]);
    }
  }

  /** A line that is not a `Port` line cannot fail and keeps the port. */
  lemma LineKeepsPort(p: Probe, raw: string)
    requires !("Port " <= Strip(raw))
    ensures ProbeLine(p, raw).Ok? && ProbeLine(p, raw).value.port == p.port
  {
  }

  /** A connection text names a host: its directives scan, and the host
      name found is non-empty. */
  predicate NamesHost(text: string)
  {
    && ProbeLines(InitialProbe, Split(text, "\n")).Ok?
    && ProbeLines(InitialProbe, Split(text, "\n")).value.host.Some?
    && ProbeLines(InitialProbe, Split(text, "\n")).value.host.value != ""
  }

  /** The loop of `test_connection` over the content's lines. */
  method Scan(content: string) returns (r: Result<Probe, Error>)
    ensures r == ProbeLines(InitialProbe, Split(content, "\n"))
  {
    r := ScanLines(Split(content, "\n"));
  }

  method ScanLines(lines: seq<string>) returns (r: Result<Probe, Error>)
    ensures r == ProbeLines(InitialProbe, lines)
  {
    var p := InitialProbe;
    for i := 0 to |lines|
      invariant ProbeLines(InitialProbe, lines[..i]) == Ok(p)
    {
      ProbeStep(InitialProbe, lines, i, p);
      var next := ProbeLine(p, lines[i]);
      if next.Err? {
        ProbeFailureSticks(InitialProbe, lines, i + 1);
        return next;
      }
      p := next.value;
    }
    assert lines[..|lines|] == lines;
    return Ok(p);
  }

  /** Scanning one line more continues from the scan of the prefix. */
  lemma ProbeStep(p0: Probe, lines: seq<string>, i: nat, q: Probe)
    requires i < |lines| && ProbeLines(p0, lines[..i]) == Ok(q)
    ensures ProbeLines(p0, lines[..i + 1]) == ProbeLine(q, lines[i])
  {
    assert lines[..i + 1][..i] == lines[..i];
  }

  /** Once the scan of a prefix fails, the scan of the whole fails with the
      same error. */
  lemma {:induction false} ProbeFailureSticks(p: Probe, lines: seq<string>, k: nat)
    requires k <= |lines| && ProbeLines(p, lines[..k]).Err?
    ensures ProbeLines(p, lines) == ProbeLines(p, lines[..k])
    decreases |lines| - k
  {
    if k < |lines| {
      assert lines[..k + 1][..k] == lines[..k];
      ProbeFailureSticks(p, lines, k + 1);
    } else {
      assert lines[..k] == lines;
    }
  }

  /** `Connection '<name>' not found in group '<group>'` */
  function NotFound(name: string, group: string): Error
  {
    ValueError("Connection '" + name + "' not found in group '" + group + "'")
  }

  /** `Connection '<name>' already exists in group '<group>'` */
  function Duplicate(name: string, group: string): Error
  {
    ValueError("Connection '" + name + "' already exists in group '" + group + "'")
  }

  /** A read result Python treats as true: a file with non-empty text. */
  predicate HasText(read: Option<string>)
  {
    read.Some? && read.value != ""
  }

  // ---------------------------------------------------------------------
  // The integration state
  // ---------------------------------------------------------------------

  /** The dictionary `get_ssh_manager_state` returns. */
  datatype IntegrationState = IntegrationState(integrated: bool, backupExists: bool, backupPath: Option<string>)

  /** `get_ssh_manager_state` over a file tree: the config counts as
      integrated when the manager directory's path occurs in it; reading a
      directory raises. */
  function StateIn(files: map<Path, string>, dirs: set<Path>, configPath: Path, backupPath: Path, managerDir: Path)
    : (r: Result<IntegrationState, Error>)
    ensures r.Err? <==> configPath in dirs
    ensures r.Ok? ==> (r.value.backupPath.Some? <==> r.value.backupExists)
    ensures r.Ok? ==> (r.value.integrated <==> configPath in files && Contains(files[configPath], PathText(managerDir)))
    ensures r.Ok? ==> (r.value.backupExists <==> backupPath in files || backupPath in dirs)
    ensures r.Ok? && r.value.backupExists ==> r.value.backupPath == Some(PathText(backupPath))
  {
    var backupExists := backupPath in files || backupPath in dirs;
    if configPath in dirs then Err(OSError(configPath))
    else
      var integrated := configPath in files && Contains(files[configPath], PathText(managerDir));
      Ok(IntegrationState(integrated, backupExists, if backupExists then Some(PathText(backupPath)) else None))
  }

  /** The options `update_connection` passes on: name and group, then the
      updates over them. */
  function Merged(name: string, group: string, updates: Options): (r: Options)
    ensures NameOf(r) == if "name" in updates.text then updates.text["name"] else name
    ensures GroupOf(r) == if "group" in updates.text then updates.text["group"] else group
    ensures forall k :: k in updates.text ==> k in r.text && r.text[k] == updates.text[k]
    ensures r.text.Keys == updates.text.Keys + {"name", "group"}
    ensures r.localForwards == updates.localForwards && r.remoteForwards == updates.remoteForwards
  {
    Options(map["name" := name, "group" := group] + updates.text, updates.localForwards, updates.remoteForwards)
  }

  // ---------------------------------------------------------------------
  // When the façade's operations raise nothing
  // ---------------------------------------------------------------------

  /** The last two steps of `add_connection` raise nothing: the group
      parses, the file can be written, and the Include line can then be
      brought in. */
  predicate CanWriteAndIntegrate(files: map<Path, string>, dirs: set<Path>, managerDir: Path, configPath: Path,
                                 group: string, name: string, text: string)
  {
    && ConnectionFileIn(managerDir, group, name).Ok?
    && var file := ConnectionFileIn(managerDir, group, name).value;
       && CanWriteFile(files, dirs, file)
       && CanIntegrate(files[file := text], dirs + Prefixes(Parent(file)), configPath)
  }

  /** The tree `(files, dirs)` the last two steps of `add_connection` leave
      behind from `(files0, dirs0)`, with `ok` telling whether they raised
      nothing. A failure keeps what was done before it: the directories
      `mkdir` made, and the file when only the config update failed. */
  ghost predicate AfterWriteAndIntegrate(files0: map<Path, string>, dirs0: set<Path>, files: map<Path, string>, dirs: set<Path>,
                                         managerDir: Path, configPath: Path, group: string, name: string, text: string, ok: bool)
  {
    match ConnectionFileIn(managerDir, group, name)
    case Err(_) => files == files0 && dirs == dirs0
    case Ok(file) =>
      && dirs == DirsAfterWrite(files0, dirs0, file)
      && files == (if ok then Integrate(files0[file := text], configPath, managerDir)
                   else if CanWriteFile(files0, dirs0, file) then files0[file := text]
                   else files0)
  }

  /** `add_connection` raises nothing: name and host are given, the file
      reads and holds no text, the template fills, and the last two steps
      raise nothing. */
  predicate CanAdd(files: map<Path, string>, dirs: set<Path>, managerDir: Path, configPath: Path,
                   table: map<string, Template>, o: Options, envUser: string)
  {
    && HasNameAndHost(o)
    && ReadIn(files, dirs, managerDir, GroupOf(o), NameOf(o)).Ok?
    && !HasText(ReadIn(files, dirs, managerDir, GroupOf(o), NameOf(o)).value)
    && ConfigText(table, o, envUser).Ok?
    && CanWriteAndIntegrate(files, dirs, managerDir, configPath, GroupOf(o), NameOf(o), ConfigText(table, o, envUser).value)
  }

  /** `remove_connection` raises nothing: the group parses, the file is not
      a directory, and the Include line can be brought in afterwards. */
  predicate CanRemove(files: map<Path, string>, dirs: set<Path>, managerDir: Path, configPath: Path, group: string, name: string)
  {
    && ConnectionFileIn(managerDir, group, name).Ok?
    && ConnectionFileIn(managerDir, group, name).value !in dirs
    && CanIntegrate(files - {ConnectionFileIn(managerDir, group, name).value}, dirs, configPath)
  }

  // ---------------------------------------------------------------------
  // The façade
  // ---------------------------------------------------------------------

  class SshManager {
    const utils: FileUtils
    const templates: Templates

    ghost predicate Valid()
      reads this, utils, utils.fs
    {
      utils.Valid() && Fillable(templates.defaults)
    }

    constructor(utils: FileUtils)
      requires utils.Valid()
      ensures this.utils == utils && templates.defaults == DefaultTemplates
      ensures Valid()
    {
      this.utils := utils;
      templates := new Templates();
      DefaultsFillable();
    }

    /** `get_ssh_manager_state` */
    function State(): (r: Result<IntegrationState, Error>)
      reads utils.fs
      ensures r.Err? <==> utils.ConfigPath() in utils.fs.dirs
      ensures r.Ok? ==> (r.value.integrated <==> utils.ConfigPath() in utils.fs.files
                                                 && Contains(utils.fs.files[utils.ConfigPath()], PathText(utils.ManagerDir())))
      ensures r.Ok? ==> (r.value.backupExists <==> utils.fs.Exists(utils.BackupPath()))
    {
      StateIn(utils.fs.files, utils.fs.dirs, utils.ConfigPath(), utils.BackupPath(), utils.ManagerDir())
    }

    /** The config includes the manager directory. */
    predicate Integrated()
      reads utils.fs
    {
      State().Ok? && State().value.integrated
    }

    /** The groups `list_connections` scans: the filter when it is given
        and non-empty, otherwise every group `list_groups` reports. */
    function ScannedGroups(filter: Option<string>): set<string>
      reads utils.fs
    {
      if filter.Some? && filter.value != "" then {filter.value} else GroupNamesIn(utils.fs.dirs, utils.ConfigDir())
    }

    /** `list_connections`: one entry per connection file of each scanned
        group, with its content and the icon read back from it; a group
        that does not parse, a content that cannot be read or an icon line
        without its space raises. `scanned` is the list of groups scanned,
        in order: the filter, or what `list_groups` returned. */
    method ListConnections(filter: Option<string>) returns (r: Result<seq<Entry>, Error>, ghost scanned: seq<string>)
      ensures r.Ok? ==> forall i :: 0 <= i < |r.value| ==>
        r.value[i].group in ScannedGroups(filter) && Reported(utils.fs.files, utils.fs.dirs, utils.ManagerDir(), r.value[i])
      ensures r.Ok? ==> forall g, n :: g in ScannedGroups(filter) && InGroup(utils.fs.files, utils.fs.dirs, utils.ManagerDir(), g, n) ==>
        Covered(r.value, g, n)
      ensures r.Ok? <==> forall g :: g in ScannedGroups(filter) ==> Listable(utils.fs.files, utils.fs.dirs, utils.ManagerDir(), g)
      ensures r.Err? ==> exists g :: g in ScannedGroups(filter) && RaisedBy(utils.fs.files, utils.fs.dirs, utils.ManagerDir(), g, r.error)
      ensures filter.Some? && filter.value != "" && ParseGroupPath(filter.value).Err? ==> r.Err?
      ensures filter.Some? && filter.value != "" ==> scanned == [filter.value]
      ensures !(filter.Some? && filter.value != "") ==> SortedBy(scanned, Identity)
      ensures forall g :: g in scanned <==> g in ScannedGroups(filter)
      ensures r.Ok? ==> |r.value| == TotalListed(utils.fs.files, utils.fs.dirs, utils.ManagerDir(), scanned)
      ensures r.Ok? ==> (filter.Some? && filter.value != "" ==> |r.value| == ListedCount(utils.fs.files, utils.fs.dirs, utils.ManagerDir(), filter.value))
    {
      var groups: seq<string>;
      if filter.Some? && filter.value != "" {
        groups := [filter.value];
      } else {
        groups := utils.ListGroups();
      }
      assert forall g :: g in groups <==> g in ScannedGroups(filter);
      scanned := groups;
      r := ListIn(utils.fs.files, utils.fs.dirs, utils.ManagerDir(), groups);
      if filter.Some? && filter.value != "" {
        assert filter.value in ScannedGroups(filter);
      }
    }

    /** `add_connection`: name and host are checked before any file is
        touched, an existing non-empty file for (group, name) is refused,
        the icon line and the filled template are written, and the Include
        line is brought into ~/.ssh/config. */
    method AddConnection(o: Options, envUser: string) returns (r: Result<(string, string), Error>)
      requires Valid()
      modifies utils.fs
      ensures Valid()
      ensures !HasNameAndHost(o) ==> r == Err(ValueError("Name and host are required"))
      ensures HasNameAndHost(o) && old(utils.ReadConfigFile(GroupOf(o), NameOf(o))).Err? ==>
        r == Err(old(utils.ReadConfigFile(GroupOf(o), NameOf(o))).error)
      ensures (HasNameAndHost(o) && old(utils.ReadConfigFile(GroupOf(o), NameOf(o))).Ok?
               && HasText(old(utils.ReadConfigFile(GroupOf(o), NameOf(o))).value)) ==>
        r == Err(Duplicate(NameOf(o), GroupOf(o)))
      ensures r.Ok? <==> CanAdd(old(utils.fs.files), old(utils.fs.dirs), utils.ManagerDir(), utils.ConfigPath(), templates.defaults, o, envUser)
      ensures r.Ok? ==> r.value == (NameOf(o), GroupOf(o)) && HasNameAndHost(o)
      ensures r.Ok? ==> (old(utils.ReadConfigFile(GroupOf(o), NameOf(o))).Ok?
                         && !HasText(old(utils.ReadConfigFile(GroupOf(o), NameOf(o))).value))
      ensures r.Ok? ==> (ConfigText(templates.defaults, o, envUser).Ok?
                         && utils.ReadConfigFile(GroupOf(o), NameOf(o)) == Ok(Some(ConfigText(templates.defaults, o, envUser).value)))
      ensures r.Ok? ==> Integrated()
      ensures r.Ok? ==> utils.ConnectionFile(GroupOf(o), NameOf(o)).Ok?
      ensures r.Ok? ==> var file := utils.ConnectionFile(GroupOf(o), NameOf(o)).value;
        && utils.fs.files == Integrate(old(utils.fs.files)[file := ConfigText(templates.defaults, o, envUser).value], utils.ConfigPath(), utils.ManagerDir())
        && utils.fs.dirs == old(utils.fs.dirs) + Prefixes(Parent(file))
      ensures r.Err? && (!HasNameAndHost(o) || !old(utils.ReadConfigFile(GroupOf(o), NameOf(o))).Ok?
                         || HasText(old(utils.ReadConfigFile(GroupOf(o), NameOf(o))).value)
                         || ConfigText(templates.defaults, o, envUser).Err?) ==>
        utils.fs.files == old(utils.fs.files) && utils.fs.dirs == old(utils.fs.dirs)
      ensures (HasNameAndHost(o) && old(utils.ReadConfigFile(GroupOf(o), NameOf(o))).Ok?
               && !HasText(old(utils.ReadConfigFile(GroupOf(o), NameOf(o))).value)
               && ConfigText(templates.defaults, o, envUser).Ok?) ==>
        AfterWriteAndIntegrate(old(utils.fs.files), old(utils.fs.dirs), utils.fs.files, utils.fs.dirs, utils.ManagerDir(),
                               utils.ConfigPath(), GroupOf(o), NameOf(o), ConfigText(templates.defaults, o, envUser).value, r.Ok?)
    {
      if !HasNameAndHost(o) {
        return Err(ValueError("Name and host are required"));
      }
      var name := NameOf(o);
      var group := GroupOf(o);
      var existing := utils.ReadConfigFile(group, name);
      if existing.Err? {
        return Err(existing.error);
      }
      if HasText(existing.value) {
        return Err(Duplicate(name, group));
      }
      var text := ConfigText(templates.defaults, o, envUser);
      if text.Err? {
        return Err(text.error);
      }
      var written := WriteAndIntegrate(group, name, text.value);
      if written.Err? {
        return Err(written.error);
      }
      return Ok((name, group));
    }

    /** The last two steps of `add_connection`: write the file, then bring
        the Include line into ~/.ssh/config. */
    method WriteAndIntegrate(group: string, name: string, text: string) returns (r: Result<(), Error>)
      requires Valid()
      modifies utils.fs
      ensures Valid()
      ensures r.Ok? <==> CanWriteAndIntegrate(old(utils.fs.files), old(utils.fs.dirs), utils.ManagerDir(), utils.ConfigPath(), group, name, text)
      ensures r.Ok? ==> utils.ReadConfigFile(group, name) == Ok(Some(text)) && Integrated()
      ensures r.Ok? ==> utils.ConnectionFile(group, name).Ok?
      ensures r.Ok? ==> var file := utils.ConnectionFile(group, name).value;
        && utils.fs.files == Integrate(old(utils.fs.files)[file := text], utils.ConfigPath(), utils.ManagerDir())
        && utils.fs.dirs == old(utils.fs.dirs) + Prefixes(Parent(file))
      ensures AfterWriteAndIntegrate(old(utils.fs.files), old(utils.fs.dirs), utils.fs.files, utils.fs.dirs,
                                     utils.ManagerDir(), utils.ConfigPath(), group, name, text, r.Ok?)
    {
      var written := utils.WriteConfigFile(group, name, text);
      if written.Err? {
        return Err(written.error);
      }
      ghost var file := utils.ConnectionFile(group, name).value;
      ConnectionFileIsConf(utils.ManagerDir(), group, name);
      var updated := utils.UpdateMainSshConfig();
      if updated.Err? {
        return Err(updated.error);
      }
      assert file != utils.ConfigPath();
      return Ok(());
    }

    /** `remove_connection`: the file is deleted (a missing one silently),
        then the Include line is brought into ~/.ssh/config. */
    method RemoveConnection(name: string, group: string) returns (r: Result<(), Error>)
      requires Valid()
      modifies utils.fs
      ensures Valid()
      ensures ParseGroupPath(group).Err? ==>
        r == Err(ParseGroupPath(group).error) && utils.fs.files == old(utils.fs.files) && utils.fs.dirs == old(utils.fs.dirs)
      ensures r.Ok? <==> CanRemove(old(utils.fs.files), old(utils.fs.dirs), utils.ManagerDir(), utils.ConfigPath(), group, name)
      ensures r.Ok? ==> utils.ReadConfigFile(group, name) == Ok(None) && Integrated()
      ensures r.Ok? ==> utils.ConnectionFile(group, name).Ok?
      ensures r.Ok? ==> utils.fs.files == Integrate(old(utils.fs.files) - {utils.ConnectionFile(group, name).value}, utils.ConfigPath(), utils.ManagerDir())
      ensures utils.fs.dirs == old(utils.fs.dirs)
    {
      var deleted := utils.DeleteConfigFile(group, name);
      if deleted.Err? {
        return Err(deleted.error);
      }
      ghost var file := utils.ConnectionFile(group, name).value;
      ConnectionFileIsConf(utils.ManagerDir(), group, name);
      var updated := utils.UpdateMainSshConfig();
      if updated.Err? {
        return Err(updated.error);
      }
      assert file != utils.ConfigPath();
      return Ok(());
    }

    /** `update_connection`: a connection that cannot be found (or is
        empty) is refused; otherwise it is removed and re-added from its
        name and group with the updates over them. The removal is not
        undone when the re-adding fails. */
    method UpdateConnection(name: string, group: string, updates: Options, envUser: string) returns (r: Result<(string, string), Error>)
      requires Valid()
      modifies utils.fs
      ensures Valid()
      ensures old(utils.ReadConfigFile(group, name)).Err? ==> r == Err(old(utils.ReadConfigFile(group, name)).error)
      ensures old(utils.ReadConfigFile(group, name)).Ok? && !HasText(old(utils.ReadConfigFile(group, name)).value) ==>
        r == Err(NotFound(name, group)) && utils.fs.files == old(utils.fs.files) && utils.fs.dirs == old(utils.fs.dirs)
      ensures r.Ok? <==> && old(utils.ReadConfigFile(group, name)).Ok? && HasText(old(utils.ReadConfigFile(group, name)).value)
                         && CanRemove(old(utils.fs.files), old(utils.fs.dirs), utils.ManagerDir(), utils.ConfigPath(), group, name)
                         && CanAdd(Integrate(old(utils.fs.files) - {utils.ConnectionFile(group, name).value}, utils.ConfigPath(), utils.ManagerDir()),
                                   old(utils.fs.dirs), utils.ManagerDir(), utils.ConfigPath(), templates.defaults, Merged(name, group, updates), envUser)
      ensures r.Ok? ==> r.value == (NameOf(Merged(name, group, updates)), GroupOf(Merged(name, group, updates)))
      ensures r.Ok? ==> var m := Merged(name, group, updates);
        ConfigText(templates.defaults, m, envUser).Ok? && utils.ReadConfigFile(GroupOf(m), NameOf(m)) == Ok(Some(ConfigText(templates.defaults, m, envUser).value))
      ensures r.Ok? ==> utils.ConnectionFile(group, name).Ok? && utils.ConnectionFile(GroupOf(Merged(name, group, updates)), NameOf(Merged(name, group, updates))).Ok?
      ensures r.Ok? ==> var m := Merged(name, group, updates);
        var gone := utils.ConnectionFile(group, name).value;
        var file := utils.ConnectionFile(GroupOf(m), NameOf(m)).value;
        && utils.fs.files == Integrate(old(utils.fs.files) - {gone}, utils.ConfigPath(), utils.ManagerDir())[file := ConfigText(templates.defaults, m, envUser).value]
        && utils.fs.dirs == old(utils.fs.dirs) + Prefixes(Parent(file))
        && (gone != file ==> gone !in utils.fs.files)
    {
      var existing := utils.ReadConfigFile(group, name);
      if existing.Err? {
        return Err(existing.error);
      }
      if !HasText(existing.value) {
        return Err(NotFound(name, group));
      }
      var removed := RemoveConnection(name, group);
      if removed.Err? {
        return Err(removed.error);
      }
      ghost var removedFiles := utils.fs.files;
      ghost var gone := utils.ConnectionFile(group, name).value;
      ConnectionFileIsConf(utils.ManagerDir(), group, name);
      r := AddConnection(Merged(name, group, updates), envUser);
      if r.Ok? {
        var m := Merged(name, group, updates);
        var file := utils.ConnectionFile(GroupOf(m), NameOf(m)).value;
        ConnectionFileIsConf(utils.ManagerDir(), GroupOf(m), NameOf(m));
        IntegrateAgain(old(utils.fs.files) - {gone}, utils.ConfigPath(), utils.ManagerDir(), file, ConfigText(templates.defaults, m, envUser).value);
      }
    }

    /** The part of `test_connection` before connecting: the content is
        read, an absent or empty one is refused, the directives are scanned
        and a missing host name is refused. */
    method ConnectionTarget(name: string, group: string) returns (r: Result<Probe, Error>)
      ensures utils.ReadConfigFile(group, name).Err? ==> r == Err(utils.ReadConfigFile(group, name).error)
      ensures utils.ReadConfigFile(group, name).Ok? && !HasText(utils.ReadConfigFile(group, name).value) ==>
        r == Err(NotFound(name, group))
      ensures r.Ok? ==> (utils.ReadConfigFile(group, name).Ok? && HasText(utils.ReadConfigFile(group, name).value)
                         && ProbeLines(InitialProbe, Split(utils.ReadConfigFile(group, name).value.value, "\n")) == Ok(r.value))
      ensures r.Ok? ==> r.value.host.Some? && r.value.host.value != ""
      ensures r.Ok? <==> && utils.ReadConfigFile(group, name).Ok? && HasText(utils.ReadConfigFile(group, name).value)
                         && NamesHost(utils.ReadConfigFile(group, name).value.value)
      ensures (utils.ReadConfigFile(group, name).Ok? && HasText(utils.ReadConfigFile(group, name).value)
               && ProbeLines(InitialProbe, Split(utils.ReadConfigFile(group, name).value.value, "\n")).Ok?) ==>
        var p := ProbeLines(InitialProbe, Split(utils.ReadConfigFile(group, name).value.value, "\n")).value;
        (p.host.None? || p.host.value == "") <==> r == Err(ValueError("Could not parse hostname from connection config"))
    {
      var content := utils.ReadConfigFile(group, name);
      if content.Err? {
        return Err(content.error);
      }
      if !HasText(content.value) {
        return Err(NotFound(name, group));
      }
      r := Scan(content.value.value);
      if r.Err? {
        return;
      }
      if r.value.host.None? || r.value.host.value == "" {
        return Err(ValueError("Could not parse hostname from connection config"));
      }
    }
  }
}
