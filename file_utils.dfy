/** The backend's file layer: connection files under
    ~/ssh_manager/config/<group path>/<name>.conf, the one-time backup of
    ~/.ssh/config, the Include line it prepends to that config, and the
    listings of groups and connections. */
module FileUtils {
  import opened Wrappers
  import opened Text
  import opened Sorting
  import opened FileSystem

  // ---------------------------------------------------------------------
  // Group paths
  // ---------------------------------------------------------------------

  /** The dictionary `parse_group_path` returns. */
  datatype GroupPath = GroupPath(segments: seq<string>, depth: nat, parent: Option<string>, name: string)

  /** `parse_group_path`: strip the slashes at both ends and split at '/'.
      Repeated slashes inside the path are kept as empty segments. */
  function ParseGroupPath(group: string): (r: Result<GroupPath, Error>)
    ensures group == "" ==> r == Err(ValueError("Group path must be a non-empty string"))
    ensures r.Ok? ==> r.value.depth == |r.value.segments| >= 1
  {
    if group == "" then Err(ValueError("Group path must be a non-empty string"))
    else
      var normalized := StripChar(group, '/');
      if normalized == "" then Err(ValueError("Group path cannot be empty after normalization"))
      else
        var segments := Split(normalized, "/");
        var depth := |segments|;
        var parent := if depth > 1 then Some(Join(segments[..depth - 1], "/")) else None;
        Ok(GroupPath(segments, depth, parent, segments[depth - 1]))
  }

  /** Parsing fails exactly for a text made only of slashes (the empty text
      included), with the message for the case. */
  lemma ParseGroupPathFails(group: string)
    ensures ParseGroupPath(group).Err? <==> forall i :: 0 <= i < |group| ==> group[i] == '/'
    ensures group != "" && ParseGroupPath(group).Err? ==>
      ParseGroupPath(group) == Err(ValueError("Group path cannot be empty after normalization"))
  {
    StripCharEmpty(group, '/');
  }

  /** The segments rejoin to the normalized path, none holds a '/', the name
      is the last one and the parent is the rest joined: `parent + "/" + name`
      is the normalized path, and so is `name` alone at depth 1. */
  lemma ParseGroupPathRebuilds(group: string)
    requires ParseGroupPath(group).Ok?
    ensures var g := ParseGroupPath(group).value;
      && Join(g.segments, "/") == StripChar(group, '/')
      && (forall i :: 0 <= i < |g.segments| ==> Lacks(g.segments[i], '/'))
      && g.name == g.segments[g.depth - 1]
      && (g.parent.Some? <==> g.depth > 1)
      && (g.parent.Some? ==> g.parent.value + "/" + g.name == StripChar(group, '/'))
      && (g.parent.None? ==> g.name == StripChar(group, '/'))
  {
    var normalized := StripChar(group, '/');
    var segments := Split(normalized, "/");
    JoinSplit(normalized, '/');
    SplitLacks(normalized, '/');
    if |segments| > 1 {
      JoinSnoc(segments[..|segments| - 1], "/", segments[|segments| - 1]);
      assert segments[..|segments| - 1] + [segments[|segments| - 1]] == segments;
    }
  }

  /** Despite the source's comment, '//' is not collapsed: "a//b" has an
      empty middle segment, depth 3 and parent "a/". */
  lemma DoubleSlashKept()
    ensures ParseGroupPath("a//b") == Ok(GroupPath(["a", "", "b"], 3, Some("a/"), "b"))
  {
    assert StripChar("a//b", '/') == "a//b";
    LacksNotContains("b", "/");
    SplitNoSep("b", "/");
    assert "/b"[1..] == "b" && "//b"[1..] == "/b" && "a//b"[1..] == "//b";
    SplitAtPrefix("/b", "/");
    SplitAtPrefix("//b", "/");
    assert Split("//b", "/") == ["", "", "b"];
    assert !("/" <= "a//b");
    var t := Split("//b", "/");
    assert Split("a//b", "/") == [['a'] + t[0]] + t[1..];
    assert ['a'] + t[0] == "a" && t[1..] == ["", "b"];
    var segments := Split("a//b", "/");
    assert segments == ["a", "", "b"];
    assert segments[..2] == ["a", ""];
    assert Join(["a", ""], "/") == "a/";
    assert |segments| == 3 && segments[2] == "b";
    assert ParseGroupPath("a//b") == Ok(GroupPath(segments, 3, Some(Join(segments[..2], "/")), segments[2]));
  }

  /** `ssh_manager_dir / 'config' / Path(*segments)`: `pathlib` drops the
      empty and "." segments. */
  function GroupDirIn(managerDir: Path, group: string): (r: Result<Path, Error>)
    ensures r.Ok? <==> ParseGroupPath(group).Ok?
    ensures r.Ok? ==> Below(r.value, managerDir)
  {
    match ParseGroupPath(group)
    case Err(e) => Err(e)
    case Ok(g) => Ok(managerDir + ["config"] + Clean(g.segments))
  }

  /** `group_dir / f"{name}.conf"` */
  function ConnectionFileIn(managerDir: Path, group: string, name: string): (r: Result<Path, Error>)
    ensures r.Ok? <==> ParseGroupPath(group).Ok?
    ensures r.Ok? ==> r.value != []
  {
    match GroupDirIn(managerDir, group)
    case Err(e) => Err(e)
    case Ok(dir) => ConfNamesNonEmpty(name); Ok(Under(dir, name + ".conf"))
  }

  /** A connection file's last name is a `*.conf` name, so it is never
      ~/.ssh/config or its backup. */
  lemma ConnectionFileIsConf(managerDir: Path, group: string, name: string)
    requires ConnectionFileIn(managerDir, group, name).Ok?
    ensures var p := ConnectionFileIn(managerDir, group, name).value;
      p != [] && IsConfName(p[|p| - 1])
  {
    ConfFileLast(GroupDirIn(managerDir, group).value, name);
  }

  /** `read_config_file`: None for a missing file; reading a directory
      raises. */
  function ReadIn(files: map<Path, string>, dirs: set<Path>, managerDir: Path, group: string, name: string): (r: Result<Option<string>, Error>)
    ensures r.Err? <==> ParseGroupPath(group).Err?
                        || (ConnectionFileIn(managerDir, group, name).value in dirs && ConnectionFileIn(managerDir, group, name).value !in files)
    ensures r.Ok? ==> (r.value.Some? <==> ConnectionFileIn(managerDir, group, name).value in files)
    ensures r.Ok? && r.value.Some? ==> r.value.value == files[ConnectionFileIn(managerDir, group, name).value]
  {
    match ConnectionFileIn(managerDir, group, name)
    case Err(e) => Err(e)
    case Ok(p) =>
      if p in files then Ok(Some(files[p]))
      else if p in dirs then Err(OSError(p))
      else Ok(None)
  }

  // ---------------------------------------------------------------------
  // The Include line, prepended
  // ---------------------------------------------------------------------

  /** The Include line `update_main_ssh_config` prepends: the manager
      directory's config files one group level down. */
  function PrependedInclude(managerDir: Path): string
  {
    "Include " + PathText(managerDir) + "/config/*/*.conf\n"
  }

  /** What `update_main_ssh_config` writes over the config text it found
      ("" for none): nothing when the manager directory's path occurs
      anywhere in it, else the Include line and a blank line before it. */
  function PrependPlan(existing: string, managerDir: Path): Option<string>
  {
    if Contains(existing, PathText(managerDir)) then None
    else Some(PrependedInclude(managerDir) + "\n" + existing)
  }

  /** The written text starts with the Include line, ends with the old text
      and names the manager directory, so a second update writes nothing. */
  lemma PrependIdempotent(existing: string, managerDir: Path)
    ensures PrependPlan(existing, managerDir).Some? ==>
      var t := PrependPlan(existing, managerDir).value;
      && PrependedInclude(managerDir) <= t
      && t[|t| - |existing|..] == existing
      && PrependPlan(t, managerDir) == None
  {
    var t := PrependedInclude(managerDir) + "\n" + existing;
    assert t == "Include " + PathText(managerDir) + ("/config/*/*.conf\n" + "\n" + existing);
    ContainsMiddle("Include ", PathText(managerDir), "/config/*/*.conf\n" + "\n" + existing);
  }

  /** The files after `update_main_ssh_config` succeeded on `files`: the
      config rewritten when the plan says so, nothing else changed. */
  function Integrate(files: map<Path, string>, configPath: Path, managerDir: Path): map<Path, string>
  {
    match PrependPlan(if configPath in files then files[configPath] else "", managerDir)
    case None => files
    case Some(t) => files[configPath := t]
  }

  /** `update_main_ssh_config` raises nothing on this tree: the config is
      not a directory, and it is a file or can be created in its directory. */
  predicate CanIntegrate(files: map<Path, string>, dirs: set<Path>, configPath: Path)
  {
    configPath != [] && configPath !in dirs && (configPath in files || Parent(configPath) in dirs)
  }

  /** `write_config_file` raises nothing for `file`: its directory can be
      made with its parents, and the file can then be written there. */
  predicate CanWriteFile(files: map<Path, string>, dirs: set<Path>, file: Path)
  {
    file != [] && CanMakeDirs(files, Parent(file)) && CanWrite(dirs + Prefixes(Parent(file)), file)
  }

  /** The directories after `write_config_file` for `file`, whether the
      write raised or not: `mkdir` made the folder with its parents, or
      failed having made nothing. */
  function DirsAfterWrite(files: map<Path, string>, dirs: set<Path>, file: Path): set<Path>
    requires file != []
  {
    if CanMakeDirs(files, Parent(file)) then dirs + Prefixes(Parent(file)) else dirs
  }

  /** A second update after writing some other file writes nothing. */
  lemma IntegrateAgain(files: map<Path, string>, configPath: Path, managerDir: Path, p: Path, text: string)
    requires p != configPath
    ensures Integrate(Integrate(files, configPath, managerDir)[p := text], configPath, managerDir)
      == Integrate(files, configPath, managerDir)[p := text]
  {
    var existing := if configPath in files then files[configPath] else "";
    PrependIdempotent(existing, managerDir);
  }

  // ---------------------------------------------------------------------
  // Listings
  // ---------------------------------------------------------------------

  /** The directories `rglob('*')` yields below the config directory. */
  function GroupDirsIn(dirs: set<Path>, configDir: Path): set<Path>
  {
    set q | q in dirs && Below(q, configDir)
  }

  /** The names `list_groups` returns: each directory relative to the config
      directory, none when the config directory is not a directory. */
  function GroupNamesIn(dirs: set<Path>, configDir: Path): set<string>
  {
    if configDir in dirs then set q | q in GroupDirsIn(dirs, configDir) :: RelativeText(q, configDir) else {}
  }

  /** The entries `glob('*.conf')` yields in `dir`. */
  function ConfEntriesIn(files: map<Path, string>, dirs: set<Path>, dir: Path): set<Path>
  {
    set q | q in files.Keys + dirs && |q| == |dir| + 1 && q[..|dir|] == dir && IsConfName(q[|dir|])
  }

  /** The stems of those entries: the names `list_connections_in_group`
      returns. */
  function StemsIn(files: map<Path, string>, dirs: set<Path>, dir: Path): set<string>
  {
    StemsAt(ConfEntriesIn(files, dirs, dir), |dir|)
  }

  /** The stems of the names at depth `k` of `entries`. */
  function StemsAt(entries: set<Path>, k: nat): set<string>
  {
    set q | q in entries && k < |q| :: ConfStem(q[k])
  }

  /** `cs` is the sorted listing of group `group`: one stem per `*.conf`
      entry of its directory. */
  ghost predicate ListingIn(files: map<Path, string>, dirs: set<Path>, managerDir: Path, group: string, cs: seq<string>)
  {
    match GroupDirIn(managerDir, group)
    case Err(_) => false
    case Ok(dir) =>
      && SortedBy(cs, Identity)
      && |cs| == (if dir in dirs then |ConfEntriesIn(files, dirs, dir)| else 0)
      && forall x :: x in cs <==> dir in dirs && x in StemsIn(files, dirs, dir)
  }

  // ---------------------------------------------------------------------
  // The groups tree of `get_groups_tree`
  // ---------------------------------------------------------------------

  /** `{'connections': [...], 'subgroups': {...}}` */
  datatype GroupNode = GroupNode(connections: seq<string>, subgroups: map<string, GroupNode>)

  const NewGroup: GroupNode := GroupNode([], map[])

  /** Create the missing nodes along `segments` and set the last one's
      connections. */
  function PlaceGroup(nodes: map<string, GroupNode>, segments: seq<string>, conns: seq<string>): (r: map<string, GroupNode>)
    requires segments != []
    ensures r.Keys == nodes.Keys + {segments[0]}
    decreases |segments|
  {
    var node := if segments[0] in nodes then nodes[segments[0]] else NewGroup;
    if |segments| == 1 then nodes[segments[0] := node.(connections := conns)]
    else nodes[segments[0] := node.(subgroups := PlaceGroup(node.subgroups, segments[1..], conns))]
  }

  /** The node reached by following `segments`. */
  function GroupAt(nodes: map<string, GroupNode>, segments: seq<string>): Option<GroupNode>
    requires segments != []
    decreases |segments|
  {
    if segments[0] !in nodes then None
    else if |segments| == 1 then Some(nodes[segments[0]])
    else GroupAt(nodes[segments[0]].subgroups, segments[1..])
  }

  /** After placing, the node at the path exists and holds the
      connections. */
  lemma {:induction false} PlaceGroupFinds(nodes: map<string, GroupNode>, segments: seq<string>, conns: seq<string>)
    requires segments != []
    ensures GroupAt(PlaceGroup(nodes, segments, conns), segments).Some?
    ensures GroupAt(PlaceGroup(nodes, segments, conns), segments).value.connections == conns
    decreases |segments|
  {
    if |segments| > 1 {
      var node := if segments[0] in nodes then nodes[segments[0]] else NewGroup;
      PlaceGroupFinds(node.subgroups, segments[1..], conns);
    }
  }

  /** A node reached by a path is reached through a node for each of its
      prefixes, so every prefix of a placed group has its node. */
  lemma {:induction false} GroupAtPrefix(nodes: map<string, GroupNode>, segments: seq<string>, k: nat)
    requires 1 <= k <= |segments| && GroupAt(nodes, segments).Some?
    ensures GroupAt(nodes, segments[..k]).Some?
    decreases |segments|
  {
    assert segments[..k][0] == segments[0];
    if k > 1 {
      GroupAtPrefix(nodes[segments[0]].subgroups, segments[1..], k - 1);
      assert segments[..k][1..] == segments[1..][..k - 1];
    }
  }

  /** Placing a group leaves every other node and its connections alone. */
  lemma {:induction false} PlaceGroupKeeps(nodes: map<string, GroupNode>, segments: seq<string>, conns: seq<string>, other: seq<string>)
    requires segments != [] && other != [] && other != segments
    requires GroupAt(nodes, other).Some?
    ensures GroupAt(PlaceGroup(nodes, segments, conns), other).Some?
    ensures GroupAt(PlaceGroup(nodes, segments, conns), other).value.connections == GroupAt(nodes, other).value.connections
    decreases |segments|
  {
    if segments[0] == other[0] {
      if |segments| == 1 {
        assert |other| > 1;
      } else if |other| > 1 {
        assert other[1..] != segments[1..];
        PlaceGroupKeeps(nodes[segments[0]].subgroups, segments[1..], conns, other[1..]);
      }
    }
  }

  /** Placing a group adds no node off its path: a node of the result was
      there before or lies on the path, and a new node other than the
      group's own holds no connections. */
  lemma {:induction false} PlaceGroupOnly(nodes: map<string, GroupNode>, segments: seq<string>, conns: seq<string>, path: seq<string>)
    requires segments != [] && path != []
    requires GroupAt(PlaceGroup(nodes, segments, conns), path).Some?
    ensures GroupAt(nodes, path).Some? || path <= segments
    ensures path != segments && GroupAt(nodes, path).None? ==> GroupAt(PlaceGroup(nodes, segments, conns), path).value.connections == []
    decreases |segments|
  {
    var node := if segments[0] in nodes then nodes[segments[0]] else NewGroup;
    if path[0] == segments[0] && |path| > 1 {
      if |segments| > 1 {
        assert path != segments ==> path[1..] != segments[1..];
        PlaceGroupOnly(node.subgroups, segments[1..], conns, path[1..]);
        assert path[1..] <= segments[1..] ==> path <= segments;
      }
    }
  }

  // ---------------------------------------------------------------------
  // The files and directories of the backend
  // ---------------------------------------------------------------------

  /** `list_connections_in_group`: [] when the group directory is
      missing. */
  method ConnectionsIn(files: map<Path, string>, dirs: set<Path>, managerDir: Path, group: string) returns (r: Result<seq<string>, Error>)
    ensures r.Err? <==> ParseGroupPath(group).Err?
    ensures r.Err? ==> r.error == ParseGroupPath(group).error
    ensures r.Ok? ==> ListingIn(files, dirs, managerDir, group, r.value)
  {
    var dir := GroupDirIn(managerDir, group);
    if dir.Err? {
      return Err(dir.error);
    }
    if dir.value !in dirs {
      return Ok([]);
    }
    var stems := StemsListing(files, dirs, dir.value);
    return Ok(stems);
  }

  /** `list_connections_in_group` once the directory exists: the stems of
      its `.conf` entries, in sorted order. */
  method StemsListing(files: map<Path, string>, dirs: set<Path>, dir: Path) returns (r: seq<string>)
    ensures SortedBy(r, Identity)
    ensures |r| == |ConfEntriesIn(files, dirs, dir)|
    ensures forall x :: x in r <==> x in StemsIn(files, dirs, dir)
  {
    var connections := CollectStems(ConfEntriesIn(files, dirs, dir), |dir|);
    r := Sort(connections);
  }

  /** The loop of `list_connections_in_group`: one stem per entry. */
  method CollectStems(entries: set<Path>, k: nat) returns (connections: seq<string>)
    requires forall q :: q in entries ==> k < |q|
    ensures |connections| == |entries|
    ensures forall x :: x in connections <==> x in StemsAt(entries, k)
  {
    var todo := entries;
    connections := [];
    ghost var done: set<Path> := {};
    while todo != {}
      invariant todo + done == entries && todo !! done
      invariant |connections| == |done|
      invariant forall x :: x in connections <==> x in StemsAt(done, k)
      decreases |todo|
    {
      var q :| q in todo;
      var stem := ConfStem(q[k]);
      assert StemsAt(done + {q}, k) == StemsAt(done, k) + {stem};
      connections := connections + [stem];
      todo := todo - {q};
      done := done + {q};
    }
  }

  /** The elements of a list, as a set. */
  function Elements(s: seq<string>): set<string>
  {
    set h | h in s
  }

  /** Extending a prefix by one element adds that element. */
  lemma ElementsStep(s: seq<string>, i: nat)
    requires i < |s|
    ensures Elements(s[..i + 1]) == Elements(s[..i]) + {s[i]}
  {
    assert s[..i + 1] == s[..i] + [s[i]];
  }

  /** The node of `g` exists and holds the listing of some group in `seen`
      with the same segments. */
  ghost predicate TreeHolds(files: map<Path, string>, dirs: set<Path>, managerDir: Path,
                            tree: map<string, GroupNode>, seen: set<string>, g: string)
  {
    && ParseGroupPath(g).Ok?
    && GroupAt(tree, ParseGroupPath(g).value.segments).Some?
    && exists h :: h in seen && ParseGroupPath(h).Ok?
         && ParseGroupPath(h).value.segments == ParseGroupPath(g).value.segments
         && ListingIn(files, dirs, managerDir, h, GroupAt(tree, ParseGroupPath(g).value.segments).value.connections)
  }

  /** `path` leads towards the node of some group in `seen`. */
  ghost predicate OnPath(seen: set<string>, path: seq<string>)
  {
    exists g :: g in seen && ParseGroupPath(g).Ok? && path <= ParseGroupPath(g).value.segments
  }

  /** `path` is the node of some group in `seen`. */
  ghost predicate OwnNode(seen: set<string>, path: seq<string>)
  {
    exists g :: g in seen && ParseGroupPath(g).Ok? && ParseGroupPath(g).value.segments == path
  }

  /** Every node of `tree` lies on the path of a group in `seen`, and one
      holding connections is that group's own node. */
  ghost predicate Spanned(tree: map<string, GroupNode>, seen: set<string>)
  {
    forall path :: path != [] && GroupAt(tree, path).Some? ==>
      OnPath(seen, path) && (GroupAt(tree, path).value.connections != [] ==> OwnNode(seen, path))
  }

  lemma SeenWider(seen: set<string>, wider: set<string>, path: seq<string>)
    requires seen <= wider
    ensures OnPath(seen, path) ==> OnPath(wider, path)
    ensures OwnNode(seen, path) ==> OwnNode(wider, path)
  {
    if OnPath(seen, path) {
      var g :| g in seen && ParseGroupPath(g).Ok? && path <= ParseGroupPath(g).value.segments;
      assert g in wider;
    }
    if OwnNode(seen, path) {
      var g :| g in seen && ParseGroupPath(g).Ok? && ParseGroupPath(g).value.segments == path;
      assert g in wider;
    }
  }

  /** Placing one more group keeps the tree spanned by the groups seen. */
  lemma PlaceSpanned(tree: map<string, GroupNode>, seen: set<string>, group: string, conns: seq<string>)
    requires Spanned(tree, seen) && ParseGroupPath(group).Ok?
    ensures Spanned(PlaceGroup(tree, ParseGroupPath(group).value.segments, conns), seen + {group})
  {
    var segments := ParseGroupPath(group).value.segments;
    var next := PlaceGroup(tree, segments, conns);
    var wider := seen + {group};
    forall path | path != [] && GroupAt(next, path).Some?
      ensures OnPath(wider, path) && (GroupAt(next, path).value.connections != [] ==> OwnNode(wider, path))
    {
      PlaceGroupOnly(tree, segments, conns, path);
      if path == segments {
        assert group in wider && segments <= segments;
      } else if GroupAt(tree, path).Some? {
        PlaceGroupKeeps(tree, segments, conns, path);
        SeenWider(seen, wider, path);
      } else {
        assert group in wider;
      }
    }
  }

  /** A group found among some groups is found among more, in any tree
      that keeps its node. */
  lemma TreeHoldsMoved(files: map<Path, string>, dirs: set<Path>, managerDir: Path,
                       tree: map<string, GroupNode>, next: map<string, GroupNode>,
                       seen: set<string>, wider: set<string>, g: string)
    requires TreeHolds(files, dirs, managerDir, tree, seen, g) && seen <= wider
    requires GroupAt(next, ParseGroupPath(g).value.segments).Some?
    requires GroupAt(next, ParseGroupPath(g).value.segments).value.connections
      == GroupAt(tree, ParseGroupPath(g).value.segments).value.connections
    ensures TreeHolds(files, dirs, managerDir, next, wider, g)
  {
    TreeHoldsWider(files, dirs, managerDir, tree, seen, wider, g);
  }

  /** A group found among some groups is found among more. */
  lemma TreeHoldsWider(files: map<Path, string>, dirs: set<Path>, managerDir: Path,
                       tree: map<string, GroupNode>, seen: set<string>, wider: set<string>, g: string)
    requires TreeHolds(files, dirs, managerDir, tree, seen, g) && seen <= wider
    ensures TreeHolds(files, dirs, managerDir, tree, wider, g)
  {
    var segments := ParseGroupPath(g).value.segments;
    var h :| h in seen && ParseGroupPath(h).Ok? && ParseGroupPath(h).value.segments == segments
             && ListingIn(files, dirs, managerDir, h, GroupAt(tree, segments).value.connections);
    assert h in wider;
  }

  /** `groups` holds exactly the names of the directories in `done`. */
  ghost predicate NamesOf(groups: seq<string>, done: set<Path>, configDir: Path)
  {
    forall x :: x in groups <==> exists q :: q in done && Below(q, configDir) && RelativeText(q, configDir) == x
  }

  /** Collecting one more directory adds its name. */
  lemma NamesOfStep(groups: seq<string>, done: set<Path>, configDir: Path, q: Path)
    requires NamesOf(groups, done, configDir) && Below(q, configDir)
    ensures NamesOf(groups + [RelativeText(q, configDir)], done + {q}, configDir)
  {
    forall x | x in groups + [RelativeText(q, configDir)]
      ensures exists p :: p in done + {q} && Below(p, configDir) && RelativeText(p, configDir) == x
    {
      if x in groups {
        var p :| p in done && Below(p, configDir) && RelativeText(p, configDir) == x;
        assert p in done + {q};
      } else {
        assert q in done + {q};
      }
    }
  }

  /** The names collected from all the group directories are the names of
      `list_groups`. */
  lemma ListedNames(dirs: set<Path>, configDir: Path, done: set<Path>, groups: seq<string>)
    requires configDir in dirs && done == GroupDirsIn(dirs, configDir)
    requires NamesOf(groups, done, configDir)
    ensures forall x :: x in groups <==> x in GroupNamesIn(dirs, configDir)
  {
    forall x | x in GroupNamesIn(dirs, configDir) ensures x in groups {
      var q :| q in done && RelativeText(q, configDir) == x;
    }
  }

  /** The tree built from the first `i` groups: each has its node, and
      the tree spans them. */
  ghost predicate Built(files: map<Path, string>, dirs: set<Path>, managerDir: Path, groups: seq<string>, i: nat,
                        tree: map<string, GroupNode>)
    requires i <= |groups|
  {
    && (forall j :: 0 <= j < i ==> TreeHolds(files, dirs, managerDir, tree, Elements(groups[..i]), groups[j]))
    && Spanned(tree, Elements(groups[..i]))
  }

  /** One iteration of the loop of `get_groups_tree`: placing group `i`
      with its listing keeps every earlier group found and the tree
      spanned. */
  lemma TreeStep(files: map<Path, string>, dirs: set<Path>, managerDir: Path, groups: seq<string>, i: nat,
                 tree: map<string, GroupNode>, connections: seq<string>)
    requires i < |groups| && ListingIn(files, dirs, managerDir, groups[i], connections)
    requires Built(files, dirs, managerDir, groups, i, tree)
    ensures Built(files, dirs, managerDir, groups, i + 1, PlaceGroup(tree, ParseGroupPath(groups[i]).value.segments, connections))
  {
    ElementsStep(groups, i);
    TreeStepHolds(files, dirs, managerDir, groups, i, tree, connections);
    PlaceSpanned(tree, Elements(groups[..i]), groups[i], connections);
  }

  /** The first half of `TreeStep`: every group placed so far keeps its
      node. */
  lemma TreeStepHolds(files: map<Path, string>, dirs: set<Path>, managerDir: Path, groups: seq<string>, i: nat,
                      tree: map<string, GroupNode>, connections: seq<string>)
    requires i < |groups| && ListingIn(files, dirs, managerDir, groups[i], connections)
    requires forall j :: 0 <= j < i ==> TreeHolds(files, dirs, managerDir, tree, Elements(groups[..i]), groups[j])
    requires Elements(groups[..i + 1]) == Elements(groups[..i]) + {groups[i]}
    ensures forall j :: 0 <= j < i + 1 ==>
      TreeHolds(files, dirs, managerDir, PlaceGroup(tree, ParseGroupPath(groups[i]).value.segments, connections), Elements(groups[..i + 1]), groups[j])
  {
    var group := groups[i];
    var segments := ParseGroupPath(group).value.segments;
    var next := PlaceGroup(tree, segments, connections);
    PlaceGroupFinds(tree, segments, connections);
    var seen := Elements(groups[..i + 1]);
    assert group in seen;
    forall j | 0 <= j <= i
      ensures TreeHolds(files, dirs, managerDir, next, seen, groups[j])
    {
      var other := ParseGroupPath(groups[j]).value.segments;
      if other != segments {
        PlaceGroupKeeps(tree, segments, connections, other);
        TreeHoldsMoved(files, dirs, managerDir, tree, next, Elements(groups[..i]), seen, groups[j]);
      }
    }
  }

  /** The loop of `get_groups_tree` over the listed groups. */
  method GroupsTreeOf(files: map<Path, string>, dirs: set<Path>, managerDir: Path, groups: seq<string>)
    returns (r: Result<map<string, GroupNode>, Error>)
    ensures r.Err? <==> exists g :: g in groups && ParseGroupPath(g).Err?
    ensures r.Ok? ==> forall g :: g in groups ==> TreeHolds(files, dirs, managerDir, r.value, Elements(groups), g)
    ensures r.Ok? ==> Spanned(r.value, Elements(groups))
  {
    var tree: map<string, GroupNode> := map[];
    for i := 0 to |groups|
      invariant Built(files, dirs, managerDir, groups, i, tree)
    {
      var connections := ConnectionsIn(files, dirs, managerDir, groups[i]);
      if connections.Err? {
        assert groups[i] in groups;
        return Err(connections.error);
      }
      TreeStep(files, dirs, managerDir, groups, i, tree, connections.value);
      tree := PlaceGroup(tree, ParseGroupPath(groups[i]).value.segments, connections.value);
    }
    TreeDone(files, dirs, managerDir, groups, tree);
    r := Ok(tree);
  }

  /** After the last group the loop's invariant speaks of all groups. */
  lemma TreeDone(files: map<Path, string>, dirs: set<Path>, managerDir: Path, groups: seq<string>, tree: map<string, GroupNode>)
    requires Built(files, dirs, managerDir, groups, |groups|, tree)
    ensures forall g :: g in groups ==> ParseGroupPath(g).Ok?
    ensures forall g :: g in groups ==> TreeHolds(files, dirs, managerDir, tree, Elements(groups), g)
    ensures Spanned(tree, Elements(groups))
  {
    assert groups[..|groups|] == groups;
  }

  /** What the loop builds for a list of groups holds for the same groups
      as a set. */
  lemma TreeOfNames(files: map<Path, string>, dirs: set<Path>, managerDir: Path, groups: seq<string>, names: set<string>,
                    tree: map<string, GroupNode>)
    requires forall g :: g in groups ==> TreeHolds(files, dirs, managerDir, tree, Elements(groups), g)
    requires Spanned(tree, Elements(groups))
    requires forall x :: x in groups <==> x in names
    ensures forall g :: g in names ==> TreeHolds(files, dirs, managerDir, tree, names, g)
    ensures Spanned(tree, names)
  {
    assert Elements(groups) == names;
  }

  /** The directories `ensure_directory_structure` creates under the manager
      directory. */
  const Structure: seq<seq<string>> := [[], ["config"], ["config", "personal"], ["config", "work"],
                                         ["config", "projects"], ["keys"], ["templates"], ["backups"]]

  /** The directories `ensure_directory_structure` creates, in order. */
  function StructureDirs(managerDir: Path): (r: seq<Path>)
    ensures |r| == |Structure|
  {
    seq(|Structure|, j requires 0 <= j < |Structure| => managerDir + Structure[j])
  }

  /** Every path of `paths` with all its ancestors. */
  function AllPrefixes(paths: seq<Path>): (r: set<Path>)
    ensures forall j :: 0 <= j < |paths| ==> paths[j] in r && Prefixes(paths[j]) <= r
  {
    if paths == [] then {}
    else
      var last := paths[|paths| - 1];
      assert last[..|last|] == last;
      AllPrefixes(paths[..|paths| - 1]) + Prefixes(last)
  }

  /** The loop of `ensure_directory_structure`: `mkdir(parents=True,
      exist_ok=True)` on each path in turn, stopping at the first failure.
      It fails exactly when a file stands on some path or its ancestors. */
  method MakeEach(fs: FileSystem, paths: seq<Path>) returns (r: Result<(), Error>)
    requires fs.Valid()
    modifies fs
    ensures fs.Valid()
    ensures fs.files == old(fs.files) && old(fs.dirs) <= fs.dirs
    ensures r.Ok? <==> forall j :: 0 <= j < |paths| ==> CanMakeDirs(old(fs.files), paths[j])
    ensures r.Ok? ==> fs.dirs == old(fs.dirs) + AllPrefixes(paths)
    ensures r.Ok? ==> forall j :: 0 <= j < |paths| ==> paths[j] in fs.dirs
  {
    for i := 0 to |paths|
      invariant fs.Valid()
      invariant fs.files == old(fs.files)
      invariant fs.dirs == old(fs.dirs) + AllPrefixes(paths[..i])
      invariant forall j :: 0 <= j < i ==> CanMakeDirs(old(fs.files), paths[j])
    {
      assert paths[..i + 1][..i] == paths[..i];
      var ok := fs.MakeDirs(paths[i]);
      if !ok {
        return Err(OSError(paths[i]));
      }
    }
    assert paths[..|paths|] == paths;
    return Ok(());
  }

  /** What `create_ssh_config_backup` reports. */
  datatype BackupOutcome = AlreadyExists | Copied(path: string) | EmptyMarker(path: string)

  class FileUtils {
    const fs: FileSystem
    const home: Path

    ghost predicate Valid()
      reads this, fs
    {
      fs.Valid()
    }

    constructor(fs: FileSystem, home: Path)
      ensures this.fs == fs && this.home == home
    {
      this.fs := fs;
      this.home := home;
    }

    function ManagerDir(): Path
    {
      home + ["ssh_manager"]
    }

    function ConfigDir(): Path
    {
      ManagerDir() + ["config"]
    }

    function SshDir(): Path
    {
      home + [".ssh"]
    }

    function ConfigPath(): Path
    {
      SshDir() + ["config"]
    }

    function BackupPath(): Path
    {
      SshDir() + ["config.ssh-manager-backup"]
    }

    /** `get_connection_file_path` */
    function ConnectionFile(group: string, name: string): Result<Path, Error>
    {
      ConnectionFileIn(ManagerDir(), group, name)
    }

    /** `read_config_file` */
    function ReadConfigFile(group: string, name: string): (r: Result<Option<string>, Error>)
      reads fs
      ensures r.Err? <==> ParseGroupPath(group).Err?
                          || (ConnectionFile(group, name).value in fs.dirs && ConnectionFile(group, name).value !in fs.files)
      ensures r.Ok? ==> (r.value.Some? <==> ConnectionFile(group, name).value in fs.files)
      ensures r.Ok? && r.value.Some? ==> r.value.value == fs.files[ConnectionFile(group, name).value]
    {
      ReadIn(fs.files, fs.dirs, ManagerDir(), group, name)
    }

    /** `ensure_directory_structure`: the manager directory and its seven
        subdirectories with their parents, then ~/.ssh without parents. */
    method EnsureDirectoryStructure() returns (r: Result<(), Error>)
      requires Valid()
      modifies fs
      ensures Valid()
      ensures fs.files == old(fs.files) && old(fs.dirs) <= fs.dirs
      ensures r.Ok? <==> (forall i :: 0 <= i < |Structure| ==> CanMakeDirs(old(fs.files), StructureDirs(ManagerDir())[i]))
                         && SshDir() !in old(fs.files)
      ensures r.Ok? ==> fs.dirs == old(fs.dirs) + AllPrefixes(StructureDirs(ManagerDir())) + {SshDir()}
      ensures r.Ok? ==> forall i :: 0 <= i < |Structure| ==> StructureDirs(ManagerDir())[i] in fs.dirs
      ensures r.Ok? ==> SshDir() in fs.dirs
    {
      r := MakeEach(fs, StructureDirs(ManagerDir()));
      if r.Err? {
        return;
      }
      assert StructureDirs(ManagerDir())[0] == ManagerDir();
      assert Parent(SshDir()) == home == ManagerDir()[..|home|];
      assert home in Prefixes(ManagerDir());
      var ok := fs.MakeDir(SshDir());
      if !ok {
        return Err(OSError(SshDir()));
      }
    }

    /** `create_ssh_config_backup`: an existing backup is kept; otherwise
        the config is copied, or an empty marker is created when there is no
        config. It raises when the config is a directory, or when there is
        no config and no `~/.ssh`; on success a backup exists. */
    method CreateSshConfigBackup() returns (r: Result<BackupOutcome, Error>)
      requires Valid()
      modifies fs
      ensures Valid()
      ensures fs.dirs == old(fs.dirs)
      ensures old(fs.Exists(BackupPath())) ==> r == Ok(AlreadyExists) && fs.files == old(fs.files)
      ensures !old(fs.Exists(BackupPath())) && ConfigPath() in old(fs.files) && r.Ok? ==>
        r.value == Copied(PathText(BackupPath())) && fs.files == old(fs.files)[BackupPath() := old(fs.files[ConfigPath()])]
      ensures !old(fs.Exists(BackupPath())) && !old(fs.Exists(ConfigPath())) && r.Ok? ==>
        r.value == EmptyMarker(PathText(BackupPath())) && fs.files == old(fs.files)[BackupPath() := ""]
      ensures r.Err? <==> !old(fs.Exists(BackupPath())) && (ConfigPath() in old(fs.dirs) || (ConfigPath() !in old(fs.files) && SshDir() !in old(fs.dirs)))
      ensures r.Err? ==> fs.files == old(fs.files)
      ensures r.Ok? ==> fs.Exists(BackupPath())
    {
      var backup := BackupPath();
      var config := ConfigPath();
      if fs.Exists(backup) {
        return Ok(AlreadyExists);
      }
      if fs.Exists(config) {
        var ok := fs.CopyFile(config, backup);
        if !ok {
          return Err(OSError(config));
        }
        return Ok(Copied(PathText(backup)));
      }
      var ok := fs.Touch(backup);
      if !ok {
        return Err(OSError(backup));
      }
      return Ok(EmptyMarker(PathText(backup)));
    }

    /** `write_config_file`: the file's directory is created with its
        parents; afterwards reading the file gives the content back. */
    method WriteConfigFile(group: string, name: string, content: string) returns (r: Result<(), Error>)
      requires Valid()
      modifies fs
      ensures Valid()
      ensures ParseGroupPath(group).Err? ==> r == Err(ParseGroupPath(group).error) && fs.files == old(fs.files) && fs.dirs == old(fs.dirs)
      ensures r.Ok? <==> ParseGroupPath(group).Ok? && CanWriteFile(old(fs.files), old(fs.dirs), ConnectionFile(group, name).value)
      ensures r.Ok? ==> fs.files == old(fs.files)[ConnectionFile(group, name).value := content]
      ensures r.Ok? ==> fs.dirs == old(fs.dirs) + Prefixes(Parent(ConnectionFile(group, name).value))
      ensures r.Ok? ==> ReadConfigFile(group, name) == Ok(Some(content))
      ensures r.Err? ==> fs.files == old(fs.files)
      ensures ParseGroupPath(group).Ok? ==> fs.dirs == DirsAfterWrite(old(fs.files), old(fs.dirs), ConnectionFile(group, name).value)
    {
      var file := ConnectionFile(group, name);
      if file.Err? {
        return Err(file.error);
      }
      r := WriteCreatingDirs(fs, Parent(file.value), file.value, content);
    }

    /** `delete_config_file`: silent when the file is missing; afterwards
        reading it gives None. */
    method DeleteConfigFile(group: string, name: string) returns (r: Result<(), Error>)
      requires Valid()
      modifies fs
      ensures Valid()
      ensures fs.dirs == old(fs.dirs)
      ensures r.Err? <==> ParseGroupPath(group).Err? || ConnectionFile(group, name).value in old(fs.dirs)
      ensures ParseGroupPath(group).Err? ==> r == Err(ParseGroupPath(group).error)
      ensures r.Err? ==> fs.files == old(fs.files)
      ensures r.Ok? ==> fs.files == old(fs.files) - {ConnectionFile(group, name).value}
      ensures r.Ok? ==> ReadConfigFile(group, name) == Ok(None)
    {
      var file := ConnectionFile(group, name);
      if file.Err? {
        return Err(file.error);
      }
      if fs.Exists(file.value) {
        var ok := fs.Unlink(file.value);
        if !ok {
          return Err(OSError(file.value));
        }
      }
      return Ok(());
    }

    /** `list_groups`: every directory below the config directory, relative
        to it, in sorted order. */
    method ListGroups() returns (r: seq<string>)
      ensures SortedBy(r, Identity)
      ensures forall x :: x in r <==> x in GroupNamesIn(fs.dirs, ConfigDir())
      ensures ConfigDir() in fs.dirs ==> |r| == |GroupDirsIn(fs.dirs, ConfigDir())|
      ensures ConfigDir() !in fs.dirs ==> r == []
    {
      var configDir := ConfigDir();
      if configDir !in fs.dirs {
        return [];
      }
      var todo := GroupDirsIn(fs.dirs, configDir);
      var groups: seq<string> := [];
      ghost var done: set<Path> := {};
      while todo != {}
        invariant todo + done == GroupDirsIn(fs.dirs, configDir) && todo !! done
        invariant |groups| == |done|
        invariant NamesOf(groups, done, configDir)
        decreases |todo|
      {
        var q :| q in todo;
        NamesOfStep(groups, done, configDir, q);
        groups := groups + [RelativeText(q, configDir)];
        todo := todo - {q};
        done := done + {q};
      }
      ListedNames(fs.dirs, configDir, done, groups);
      r := Sort(groups);
    }

    /** `list_connections_in_group` */
    method ListConnectionsInGroup(group: string) returns (r: Result<seq<string>, Error>)
      ensures r.Err? <==> ParseGroupPath(group).Err?
      ensures r.Err? ==> r.error == ParseGroupPath(group).error
      ensures r.Ok? ==> ListingIn(fs.files, fs.dirs, ManagerDir(), group, r.value)
    {
      r := ConnectionsIn(fs.files, fs.dirs, ManagerDir(), group);
    }

    /** `get_groups_tree`: every listed group has a node holding the
        listing of a group with the same segments (the last one listed);
        `GroupAtPrefix` gives the nodes of the prefixes, and there are no
        other nodes. It fails exactly when some listed group does not
        parse. */
    method GetGroupsTree() returns (r: Result<map<string, GroupNode>, Error>)
      ensures r.Err? <==> exists g :: g in GroupNamesIn(fs.dirs, ConfigDir()) && ParseGroupPath(g).Err?
      ensures r.Ok? ==> forall g :: g in GroupNamesIn(fs.dirs, ConfigDir()) ==> TreeHolds(fs.files, fs.dirs, ManagerDir(), r.value, GroupNamesIn(fs.dirs, ConfigDir()), g)
      ensures r.Ok? ==> Spanned(r.value, GroupNamesIn(fs.dirs, ConfigDir()))
    {
      var groups := ListGroups();
      r := GroupsTreeOf(fs.files, fs.dirs, ManagerDir(), groups);
      if r.Ok? {
        TreeOfNames(fs.files, fs.dirs, ManagerDir(), groups, GroupNamesIn(fs.dirs, ConfigDir()), r.value);
      }
    }

    /** `update_main_ssh_config`: prepends the Include line unless the
        manager directory's path already occurs in the config. */
    method UpdateMainSshConfig() returns (r: Result<(), Error>)
      requires Valid()
      modifies fs
      ensures Valid()
      ensures fs.dirs == old(fs.dirs)
      ensures ConfigPath() in old(fs.dirs) ==> r.Err?
      ensures r.Ok? <==> CanIntegrate(old(fs.files), old(fs.dirs), ConfigPath())
      ensures r.Err? ==> fs.files == old(fs.files)
      ensures r.Ok? ==> fs.files == Integrate(old(fs.files), ConfigPath(), ManagerDir())
      ensures r.Ok? ==> ConfigPath() in fs.files && Contains(fs.files[ConfigPath()], PathText(ManagerDir()))
    {
      var config := ConfigPath();
      var existing := "";
      if fs.Exists(config) {
        if config in fs.dirs {
          return Err(OSError(config));
        }
        existing := fs.files[config];
      }
      PrependIdempotent(existing, ManagerDir());
      var plan := PrependPlan(existing, ManagerDir());
      if plan.None? {
        return Ok(());
      }
      var ok := fs.WriteText(config, plan.value);
      if !ok {
        return Err(OSError(config));
      }
      return Ok(());
    }

    /** Where `shutil.copy2(backup, config)` puts the copy: into the config
        under the backup's name when the config is a directory. */
    function RevertTarget(dirs: set<Path>): (p: Path)
      ensures p != [] && Parent(p) in {ConfigPath(), SshDir()}
    {
      if ConfigPath() in dirs then ConfigPath() + ["config.ssh-manager-backup"] else ConfigPath()
    }

    /** `revert_to_original_config`: a non-empty backup is copied over the
        config (into it, when the config is a directory); an empty one (no
        config existed) removes the config. */
    method RevertToOriginalConfig() returns (r: Result<(), Error>)
      requires Valid()
      modifies fs
      ensures Valid()
      ensures fs.dirs == old(fs.dirs)
      ensures !old(fs.Exists(BackupPath())) ==> r == Err(FileNotFoundError("No backup found to revert to"))
      ensures r.Err? ==> fs.files == old(fs.files)
      ensures BackupPath() in old(fs.files) && old(fs.files[BackupPath()]) != "" ==>
        (r.Ok? <==> RevertTarget(old(fs.dirs)) !in old(fs.dirs))
      ensures BackupPath() in old(fs.files) && old(fs.files[BackupPath()]) == "" ==>
        (r.Ok? <==> ConfigPath() !in old(fs.dirs))
      ensures r.Ok? ==> BackupPath() in old(fs.files)
      ensures r.Ok? && old(fs.files[BackupPath()]) != "" ==>
        fs.files == old(fs.files)[RevertTarget(old(fs.dirs)) := old(fs.files[BackupPath()])]
      ensures r.Ok? && old(fs.files[BackupPath()]) == "" ==> fs.files == old(fs.files) - {ConfigPath()}
    {
      var backup := BackupPath();
      var config := ConfigPath();
      if !fs.Exists(backup) {
        return Err(FileNotFoundError("No backup found to revert to"));
      }
      if backup in fs.dirs {
        return Err(OSError(backup));
      }
      if fs.files[backup] != "" {
        var target := RevertTarget(fs.dirs);
        var ok := fs.CopyFile(backup, target);
        if !ok {
          return Err(OSError(target));
        }
        return Ok(());
      }
      if fs.Exists(config) {
        var ok := fs.Unlink(config);
        if !ok {
          return Err(OSError(config));
        }
      }
      return Ok(());
    }
  }
}
