/** The folder store of core/config_manager.py: one `<name>.conf` file per
    connection under a base directory, folders as directories, and the
    `Include` line that makes OpenSSH read them from ~/.ssh/config. */
module ConfigManager {
  import opened Wrappers
  import opened Text
  import opened Sorting
  import opened FileSystem
  import opened Connection
  import opened ConnectionRoundTrip

  // ---------------------------------------------------------------------
  // The texts written into ~/.ssh/config
  // ---------------------------------------------------------------------

  const Header: string := "# SSH Manager - Auto-generated connections"

  /** `Include <base>/**/*.conf` */
  function IncludeLine(base: Path): string
  {
    "Include " + PathText(base) + "/**/*.conf"
  }

  /** The config `add_include_statement` creates when there is none. */
  function FreshConfig(base: Path): string
  {
    Header + "\n" + IncludeLine(base) + "\n"
  }

  /** An existing config with the block appended after a blank line; a
      missing final newline is added first. */
  function AppendInclude(content: string, base: Path): string
  {
    var c := if content != [] && content[|content| - 1] == '\n' then content else content + "\n";
    c + "\n" + Header + "\n" + IncludeLine(base) + "\n"
  }

  /** The appended text keeps the user's config in front and contains the
      include line, so a second call finds it and changes nothing. */
  lemma AppendIncludeSpec(content: string, base: Path)
    ensures content <= AppendInclude(content, base)
    ensures Contains(AppendInclude(content, base), IncludeLine(base))
    ensures Contains(FreshConfig(base), IncludeLine(base))
  {
    var c := if content != [] && content[|content| - 1] == '\n' then content else content + "\n";
    ContainsMiddle(c + "\n" + Header + "\n", IncludeLine(base), "\n");
    assert AppendInclude(content, base) == c + "\n" + Header + "\n" + IncludeLine(base) + "\n";
    ContainsMiddle(Header + "\n", IncludeLine(base), "\n");
  }

  /** What `add_include_statement` does with the current config (None when
      there is none): whether it writes, and the text the config then holds. */
  function IncludePlan(current: Option<string>, base: Path): (bool, string)
  {
    match current
    case None => (true, FreshConfig(base))
    case Some(content) =>
      if Contains(content, IncludeLine(base)) then (false, content)
      else (true, AppendInclude(content, base))
  }

  /** Afterwards the config holds the include line, keeps what it held as a
      prefix, and is written exactly when the line was missing. */
  lemma IncludePlanSpec(current: Option<string>, base: Path)
    ensures Contains(IncludePlan(current, base).1, IncludeLine(base))
    ensures current.Some? ==> current.value <= IncludePlan(current, base).1
    ensures IncludePlan(current, base).0 <==> current.None? || !Contains(current.value, IncludeLine(base))
  {
    if current.Some? {
      AppendIncludeSpec(current.value, base);
      assert current.value <= current.value;
    } else {
      AppendIncludeSpec("", base);
    }
  }

  /** A second `add_include_statement` writes nothing. */
  lemma IncludeIdempotent(current: Option<string>, base: Path)
    ensures IncludePlan(Some(IncludePlan(current, base).1), base) == (false, IncludePlan(current, base).1)
  {
    IncludePlanSpec(current, base);
  }

  /** A line counted as an existing connection: stripped, it starts "Host ". */
  predicate IsHostLine(line: string)
  {
    "Host " <= Strip(line)
  }

  /** The connection names `check_existing_ssh_config` lists: the text
      between the first and second "Host " of each host line. */
  function HostNames(lines: seq<string>): (r: seq<string>)
    ensures |r| == HostCount(lines)
  {
    if lines == [] then []
    else if IsHostLine(lines[0]) then [Split(Strip(lines[0]), "Host ")[1]] + HostNames(lines[1..])
    else HostNames(lines[1..])
  }

  function HostCount(lines: seq<string>): nat
  {
    if lines == [] then 0 else (if IsHostLine(lines[0]) then 1 else 0) + HostCount(lines[1..])
  }

  /** What `check_existing_ssh_config` reports. */
  datatype ExistingConfig = ExistingConfig(present: bool, hasInclude: bool, connectionCount: nat, connections: seq<string>)

  /** The report for an existing config text. */
  function Inspect(content: string, base: Path): (r: ExistingConfig)
    ensures r.present && r.connectionCount == |r.connections|
  {
    var lines := Split(content, "\n");
    ExistingConfig(true, Contains(content, "Include " + PathText(base)), HostCount(lines), HostNames(lines))
  }

  /** The include line counts as the include check of the report. */
  lemma IncludeDetected(content: string, base: Path)
    requires Contains(content, IncludeLine(base))
    ensures Inspect(content, base).hasInclude
  {
    ContainsPrefix(content, IncludeLine(base), "Include " + PathText(base));
  }

  /** A text containing `sub` contains every prefix of `sub`. */
  lemma {:induction false} ContainsPrefix(s: string, sub: string, pre: string)
    requires Contains(s, sub) && pre <= sub
    ensures Contains(s, pre)
  {
    if !(sub <= s) {
      ContainsPrefix(s[1..], sub, pre);
    }
  }

  /** The lines of the message `initialize` reports, one per thing done. */
  function InitLines(createdDirs: bool, createdBackup: bool, addedInclude: bool, existing: nat,
                     base: Path, backup: Path): (r: seq<string>)
    ensures r == [] <==> !createdDirs && !createdBackup && !addedInclude && existing == 0
    ensures forall m :: m in r ==> m != "" && m[0] != 'S'
  {
    var dirs := "Created directory structure at " + PathText(base);
    var backedUp := "Backed up existing SSH config to " + PathText(backup);
    var detected := "Detected " + IntToString(existing) + " existing SSH connections";
    var added := "Added SSH Manager " + "Include statement to ~/.ssh/config";
    assert dirs[0] == 'C' && backedUp[0] == 'B' && added[0] == 'A' && detected[0] == 'D';
    (if createdDirs then [dirs] else [])
    + (if createdBackup then [backedUp] else [])
    + (if addedInclude then [added] else [])
    + (if existing > 0 then [detected] else [])
  }

  function InitMessage(createdDirs: bool, createdBackup: bool, addedInclude: bool, existing: nat,
                       base: Path, backup: Path): string
  {
    var lines := InitLines(createdDirs, createdBackup, addedInclude, existing, base, backup);
    if lines == [] then "SSH Manager already initialized" else Join(lines, "\n")
  }

  /** The message says "already initialized" exactly when nothing was
      created, backed up or added and no connection was detected. */
  lemma InitMessageQuiet(createdDirs: bool, createdBackup: bool, addedInclude: bool, existing: nat,
                         base: Path, backup: Path)
    ensures InitMessage(createdDirs, createdBackup, addedInclude, existing, base, backup)
      == "SSH Manager already initialized"
      <==> !createdDirs && !createdBackup && !addedInclude && existing == 0
  {
    var lines := InitLines(createdDirs, createdBackup, addedInclude, existing, base, backup);
    if lines != [] {
      assert lines[0] in lines;
      JoinHead(lines, "\n");
    }
  }

  datatype InitReport = InitReport(createdDirs: bool, createdBackup: bool, addedInclude: bool,
                                   existingConnections: nat, message: string)

  /** `Connection '<name>' not found in folder '<folder>'` */
  function NotFoundMessage(folder: string, name: string): string
  {
    "Connection '" + name + "' not found in folder '" + folder + "'"
  }

  /** The ValueError `int()` raises. */
  function IntError(e: ParseError): Error
  {
    ValueError("invalid literal for int() with base 10: '" + e.text + "'")
  }

  /** `conns` holds the records of exactly the entries that loaded. */
  predicate Collected(results: map<Path, Result<Connection, Error>>, conns: seq<Connection>)
  {
    && (forall c :: c in conns ==> exists p :: p in results && results[p] == Ok(c))
    && (forall p :: p in results && results[p].Ok? ==> results[p].value in conns)
  }

  /** The loop of `list_connections`: visit the entries in any order, keep
      what loads and skip what raises. */
  method Collect(results: map<Path, Result<Connection, Error>>) returns (conns: seq<Connection>)
    ensures Collected(results, conns)
  {
    var todo := results.Keys;
    ghost var done: set<Path> := {};
    conns := [];
    while todo != {}
      invariant todo + done == results.Keys && todo !! done
      invariant forall c :: c in conns ==> exists p :: p in done && results[p] == Ok(c)
      invariant forall p :: p in done && results[p].Ok? ==> results[p].value in conns
      decreases |todo|
    {
      var q :| q in todo;
      var loaded := results[q];
      if loaded.Ok? {
        conns := conns + [loaded.value];
      }
      todo := todo - {q};
      done := done + {q};
    }
  }

  /** `base_path / folder / f"{name}.conf"` */
  function ConfPath(base: Path, folder: string, name: string): Path
  {
    Under(Under(base, folder), name + ".conf")
  }

  /** `load_connection` on a tree given by its files and directories. */
  function LoadIn(files: map<Path, string>, dirs: set<Path>, base: Path, folder: string, name: string): (r: Result<Connection, Error>)
  {
    var p := ConfPath(base, folder, name);
    if p !in files && p !in dirs then Err(FileNotFoundError(NotFoundMessage(folder, name)))
    else if p in dirs then Err(OSError(p))
    else
      match ParseConfig(files[p], name, folder)
      case Ok(c) => Ok(c)
      case Err(e) => Err(IntError(e))
  }

  /** The `.conf` entries `list_connections` visits: those directly in the
      folder for a folder argument, all below the base otherwise. */
  function CandidatesIn(files: map<Path, string>, dirs: set<Path>, base: Path, folder: string): (r: set<Path>)
    ensures forall q :: q in r ==> q != [] && IsConfName(q[|q| - 1]) && (folder == "" ==> Below(q, base))
  {
    var dir := Under(base, folder);
    set q | q in files.Keys + dirs && q != [] && IsConfName(q[|q| - 1])
              && (if folder != "" then Below(q, dir) && |q| == |dir| + 1 else Below(q, base))
  }

  /** How `list_connections` loads an entry: by the folder argument, or by
      the entry's directory relative to the base, and the entry's stem. */
  function EntryLoad(files: map<Path, string>, dirs: set<Path>, base: Path, folder: string, q: Path): Result<Connection, Error>
    requires q != [] && (folder != "" || Below(q, base))
  {
    var f := if folder != "" then folder else RelativeText(q[..|q| - 1], base);
    LoadIn(files, dirs, base, f, ConfStem(q[|q| - 1]))
  }

  /** What loading each entry gives. */
  function LoadsIn(files: map<Path, string>, dirs: set<Path>, base: Path, folder: string): (r: map<Path, Result<Connection, Error>>)
    ensures r.Keys == CandidatesIn(files, dirs, base, folder)
  {
    map q | q in CandidatesIn(files, dirs, base, folder) :: EntryLoad(files, dirs, base, folder, q)
  }

  /** The records listed are those the candidate entries load to. */
  lemma CollectedLoads(files: map<Path, string>, dirs: set<Path>, base: Path, folder: string, conns: seq<Connection>)
    requires Collected(LoadsIn(files, dirs, base, folder), conns)
    ensures forall c :: c in conns ==>
      exists q :: q in CandidatesIn(files, dirs, base, folder) && EntryLoad(files, dirs, base, folder, q) == Ok(c)
    ensures forall q :: q in CandidatesIn(files, dirs, base, folder) && EntryLoad(files, dirs, base, folder, q).Ok? ==>
      EntryLoad(files, dirs, base, folder, q).value in conns
  {
    var results := LoadsIn(files, dirs, base, folder);
    forall c | c in conns
      ensures exists q :: q in CandidatesIn(files, dirs, base, folder) && EntryLoad(files, dirs, base, folder, q) == Ok(c)
    {
      var p :| p in results && results[p] == Ok(c);
      assert p in CandidatesIn(files, dirs, base, folder) && EntryLoad(files, dirs, base, folder, p) == Ok(c);
    }
    forall q | q in CandidatesIn(files, dirs, base, folder) && EntryLoad(files, dirs, base, folder, q).Ok?
      ensures EntryLoad(files, dirs, base, folder, q).value in conns
    {
      assert q in results && results[q] == EntryLoad(files, dirs, base, folder, q);
    }
  }

  // ---------------------------------------------------------------------
  // The nested dictionaries of `get_folder_tree`
  // ---------------------------------------------------------------------

  /** `{'_folders': {...}, '_connections': [...]}` */
  datatype FolderNode = FolderNode(folders: map<string, FolderNode>, connections: seq<string>)

  /** The top level: the folders, and `_connections` once a connection lies
      directly in the base. */
  datatype FolderTree = FolderTree(folders: map<string, FolderNode>, rootConnections: Option<seq<string>>)

  const EmptyNode: FolderNode := FolderNode(map[], [])

  /** Create the missing nodes along `parts` and append `stem` to the last. */
  function AddAt(folders: map<string, FolderNode>, parts: seq<string>, stem: string): (r: map<string, FolderNode>)
    requires parts != []
    ensures r.Keys == folders.Keys + {parts[0]}
    decreases |parts|
  {
    var node := if parts[0] in folders then folders[parts[0]] else EmptyNode;
    if |parts| == 1 then folders[parts[0] := node.(connections := node.connections + [stem])]
    else folders[parts[0] := node.(folders := AddAt(node.folders, parts[1..], stem))]
  }

  /** The node reached by following `parts`. */
  function Lookup(folders: map<string, FolderNode>, parts: seq<string>): Option<FolderNode>
    requires parts != []
    decreases |parts|
  {
    if parts[0] !in folders then None
    else if |parts| == 1 then Some(folders[parts[0]])
    else Lookup(folders[parts[0]].folders, parts[1..])
  }

  /** The connections of the node at `parts`, [] when there is none. */
  function ConnectionsAt(folders: map<string, FolderNode>, parts: seq<string>): seq<string>
    requires parts != []
  {
    match Lookup(folders, parts) case None => [] case Some(n) => n.connections
  }

  /** After adding, the node at `parts` exists and holds `stem` after what
      it held before. */
  lemma {:induction false} AddAtFinds(folders: map<string, FolderNode>, parts: seq<string>, stem: string)
    requires parts != []
    ensures Lookup(AddAt(folders, parts, stem), parts).Some?
    ensures ConnectionsAt(AddAt(folders, parts, stem), parts) == ConnectionsAt(folders, parts) + [stem]
    decreases |parts|
  {
    if |parts| > 1 {
      var node := if parts[0] in folders then folders[parts[0]] else EmptyNode;
      AddAtFinds(node.folders, parts[1..], stem);
      if parts[0] !in folders {
        assert Lookup(EmptyNode.folders, parts[1..]) == None;
      }
    }
  }

  /** Adding never removes a node or a connection elsewhere in the tree. */
  lemma {:induction false} AddAtKeeps(folders: map<string, FolderNode>, parts: seq<string>, stem: string, other: seq<string>)
    requires parts != [] && other != []
    requires Lookup(folders, other).Some?
    ensures Lookup(AddAt(folders, parts, stem), other).Some?
    ensures ConnectionsAt(folders, other) <= ConnectionsAt(AddAt(folders, parts, stem), other)
    decreases |parts|
  {
    if parts[0] == other[0] && |parts| > 1 && |other| > 1 {
      AddAtKeeps(folders[parts[0]].folders, parts[1..], stem, other[1..]);
    }
  }

  /** `stem` is listed at `parts` (the top level for []). */
  predicate Listed(tree: FolderTree, parts: seq<string>, stem: string)
  {
    if parts == [] then tree.rootConnections.Some? && stem in tree.rootConnections.value
    else Lookup(tree.folders, parts).Some? && stem in ConnectionsAt(tree.folders, parts)
  }

  /** One iteration of the loop of `get_folder_tree`. */
  function AddEntry(tree: FolderTree, parts: seq<string>, stem: string): FolderTree
  {
    if parts == [] then
      tree.(rootConnections := Some((if tree.rootConnections.Some? then tree.rootConnections.value else []) + [stem]))
    else tree.(folders := AddAt(tree.folders, parts, stem))
  }

  /** An entry is listed once added and stays listed after later additions. */
  lemma AddEntryListed(tree: FolderTree, parts: seq<string>, stem: string, other: seq<string>, name: string)
    ensures Listed(AddEntry(tree, parts, stem), parts, stem)
    ensures Listed(tree, other, name) ==> Listed(AddEntry(tree, parts, stem), other, name)
  {
    if parts != [] {
      AddAtFinds(tree.folders, parts, stem);
      if other != [] && Lookup(tree.folders, other).Some? {
        AddAtKeeps(tree.folders, parts, stem, other);
      }
    }
  }

  /** The entry `q` is listed by its stem at the node of its directory
      relative to `base`. */
  predicate EntryListed(tree: FolderTree, base: Path, q: Path)
    requires Below(q, base)
  {
    Listed(tree, q[|base|..|q| - 1], ConfStem(q[|q| - 1]))
  }

  /** The loop of `get_folder_tree` over the entries `rglob` found. */
  method BuildTree(entries: set<Path>, base: Path) returns (tree: FolderTree)
    requires forall q :: q in entries ==> Below(q, base)
    ensures forall q :: q in entries ==> EntryListed(tree, base, q)
  {
    var todo := entries;
    ghost var done: set<Path> := {};
    tree := FolderTree(map[], None);
    while todo != {}
      invariant todo + done == entries && todo !! done
      invariant forall q :: q in done ==> EntryListed(tree, base, q)
      decreases |todo|
    {
      var q :| q in todo;
      var parts := q[|base|..|q| - 1];
      var stem := ConfStem(q[|q| - 1]);
      var next := AddEntry(tree, parts, stem);
      forall p | p in done
        ensures EntryListed(next, base, p)
      {
        AddEntryListed(tree, parts, stem, p[|base|..|p| - 1], ConfStem(p[|p| - 1]));
      }
      AddEntryListed(tree, parts, stem, parts, stem);
      assert EntryListed(next, base, q);
      tree := next;
      todo := todo - {q};
      done := done + {q};
    }
  }

  // ---------------------------------------------------------------------
  // The store
  // ---------------------------------------------------------------------

  class ConfigManager {
    const fs: FileSystem
    /** The directory holding the folders (~/ssh_manager/groups by default). */
    const base: Path
    /** ~/.ssh */
    const sshDir: Path

    ghost predicate Valid()
      reads this, fs
    {
      fs.Valid()
    }

    constructor (fs: FileSystem, home: Path, basePath: Option<Path>)
      ensures this.fs == fs
      ensures base == if basePath.Some? then basePath.value else home + ["ssh_manager", "groups"]
      ensures sshDir == home + [".ssh"]
    {
      this.fs := fs;
      base := if basePath.Some? then basePath.value else home + ["ssh_manager", "groups"];
      sshDir := home + [".ssh"];
    }

    function SshConfig(): Path
      reads this
    {
      sshDir + ["config"]
    }

    function BackupPath(): Path
      reads this
    {
      sshDir + ["config.backup"]
    }

    /** `base_path / folder` */
    function FolderPath(folder: string): Path
      reads this
    {
      Under(base, folder)
    }

    /** `base_path / folder / f"{name}.conf"` */
    function ConfFile(folder: string, name: string): Path
      reads this
    {
      ConfPath(base, folder, name)
    }

    /** `check_existing_ssh_config` */
    function CheckExistingSshConfig(): (r: Result<ExistingConfig, Error>)
      reads this, fs
      ensures r.Ok? && !r.value.present ==> !fs.Exists(SshConfig()) && r.value.connectionCount == 0
      ensures r.Ok? && r.value.present ==> SshConfig() in fs.files
      ensures r.Err? <==> SshConfig() in fs.dirs
    {
      var p := SshConfig();
      if p !in fs.files && p !in fs.dirs then Ok(ExistingConfig(false, false, 0, []))
      else if p in fs.dirs then Err(OSError(p))
      else Ok(Inspect(fs.files[p], base))
    }

    /** The config as a value: None when absent. */
    function CurrentConfig(): Option<string>
      reads this, fs
    {
      if SshConfig() in fs.files then Some(fs.files[SshConfig()]) else None
    }

    /** `add_include_statement`: True when the block was written. A config
        that is a directory, or a missing ~/.ssh, is an `OSError` and
        changes nothing. */
    method AddIncludeStatement() returns (r: Result<bool, Error>)
      requires Valid()
      modifies fs
      ensures Valid()
      ensures fs.dirs == old(fs.dirs)
      ensures r.Ok? ==> fs.files == old(fs.files)[SshConfig() := IncludePlan(old(CurrentConfig()), base).1]
      ensures r.Ok? ==> r.value == IncludePlan(old(CurrentConfig()), base).0
      ensures r.Err? <==> SshConfig() in old(fs.dirs) || (SshConfig() !in old(fs.files) && sshDir !in old(fs.dirs))
      ensures r.Err? ==> fs.files == old(fs.files)
    {
      var p := SshConfig();
      var current := CurrentConfig();
      var plan := IncludePlan(current, base);
      if !fs.Exists(p) {
        var ok := fs.WriteText(p, plan.1);
        if !ok {
          return Err(OSError(p));
        }
        return Ok(true);
      }
      if p in fs.dirs {
        return Err(OSError(p));
      }
      if !plan.0 {
        assert fs.files == fs.files[p := plan.1];
        return Ok(false);
      }
      var ok := fs.WriteText(p, plan.1);
      return Ok(true);
    }

    /** The directories there are once the base exists: the base's
        ancestors join when it had to be made. */
    function BaseDirs(dirs: set<Path>): set<Path>
      reads this
    {
      if base in dirs then dirs else dirs + Prefixes(base)
    }

    /** The directories after the directory part of `initialize`. */
    function StructureDirs(dirs: set<Path>): set<Path>
      reads this
    {
      BaseDirs(dirs) + {base + ["work"], base + ["personal"], sshDir}
    }

    /** The directory part of `initialize` raises nothing: the base is a
        directory or can be made, no file stands where `work` or
        `personal` goes, and ~/.ssh is a directory or can be made in its
        parent. */
    predicate CanMakeStructure(files: map<Path, string>, dirs: set<Path>)
      reads this
    {
      && (base in dirs || CanMakeDirs(files, base))
      && base + ["work"] !in files && base + ["personal"] !in files
      && (sshDir == [] || (sshDir !in files && Parent(sshDir) in StructureDirs(dirs) - {sshDir}))
    }

    /** The directory part of `initialize`: the base (True when it was
        absent), its `work` and `personal` folders, and ~/.ssh. */
    method MakeStructure() returns (r: Result<bool, Error>)
      requires Valid()
      modifies fs
      ensures Valid()
      ensures fs.files == old(fs.files) && old(fs.dirs) <= fs.dirs
      ensures r.Ok? <==> CanMakeStructure(old(fs.files), old(fs.dirs))
      ensures r.Ok? ==> r.value == !old(fs.Exists(base))
      ensures r.Ok? ==> fs.dirs == StructureDirs(old(fs.dirs))
      ensures r.Ok? ==> fs.dirs == old(fs.dirs) + (if r.value then Prefixes(base) else {}) + {base + ["work"], base + ["personal"], sshDir}
    {
      var createdDirs := false;
      var ok: bool;
      if !fs.Exists(base) {
        ok := fs.MakeDirs(base);
        if !ok {
          return Err(OSError(base));
        }
        createdDirs := true;
      }
      ghost var made := fs.dirs;
      assert base[..|base|] == base;
      assert made == old(fs.dirs) + (if createdDirs then Prefixes(base) else {});
      var defaults := ["work", "personal"];
      for i := 0 to |defaults|
        invariant fs.Valid()
        invariant made <= fs.dirs <= made + {base + ["work"], base + ["personal"]}
        invariant forall j :: 0 <= j < i ==> base + [defaults[j]] in fs.dirs && base + [defaults[j]] !in fs.files
        invariant fs.files == old(fs.files)
        invariant base in fs.dirs || base in old(fs.files)
      {
        ok := fs.MakeDir(base + [defaults[i]]);
        if !ok {
          assert !CanMakeStructure(old(fs.files), old(fs.dirs));
          return Err(OSError(base + [defaults[i]]));
        }
      }
      assert base + [defaults[0]] in fs.dirs && base + [defaults[1]] in fs.dirs;
      assert Parent(base + [defaults[0]]) == base;
      assert |base + [defaults[0]]| != |base| && |base + [defaults[1]]| != |base|;
      assert base in made && made == BaseDirs(old(fs.dirs));
      assert fs.dirs == made + {base + ["work"], base + ["personal"]};
      ok := fs.MakeDir(sshDir);
      if !ok {
        return Err(OSError(sshDir));
      }
      return Ok(createdDirs);
    }

    /** The backup part of `initialize`: copy the config once, never over an
        existing backup. True when the copy was made. */
    method BackupOnce() returns (r: Result<bool, Error>)
      requires Valid()
      modifies fs
      ensures Valid()
      ensures fs.dirs == old(fs.dirs)
      ensures r.Ok?
      ensures r.Ok? ==> (r.value <==> SshConfig() in old(fs.files) && !old(fs.Exists(BackupPath())))
      ensures r.Ok? && r.value ==> fs.files == old(fs.files)[BackupPath() := old(fs.files[SshConfig()])]
      ensures !(r.Ok? && r.value) ==> fs.files == old(fs.files)
    {
      if SshConfig() in fs.files && !fs.Exists(BackupPath()) {
        assert Parent(SshConfig()) == sshDir == Parent(BackupPath());
        var ok := fs.CopyFile(SshConfig(), BackupPath());
        if !ok {
          return Err(OSError(BackupPath()));
        }
        return Ok(true);
      }
      return Ok(false);
    }

    /** `initialize` */
    method Initialize() returns (r: Result<InitReport, Error>)
      requires Valid()
      modifies fs
      ensures Valid()
      ensures r.Ok? <==> CanMakeStructure(old(fs.files), old(fs.dirs)) && SshConfig() !in StructureDirs(old(fs.dirs))
      ensures r.Ok? ==> r.value.createdDirs == !old(fs.Exists(base))
      ensures r.Ok? ==> fs.dirs == old(fs.dirs) + (if r.value.createdDirs then Prefixes(base) else {}) + {base + ["work"], base + ["personal"], sshDir}
      ensures r.Ok? ==> r.value.existingConnections == if SshConfig() in old(fs.files) then HostCount(Split(old(fs.files[SshConfig()]), "\n")) else 0
      ensures r.Ok? ==> (r.value.createdBackup <==> SshConfig() in old(fs.files) && BackupPath() !in old(fs.files) && BackupPath() !in fs.dirs)
      ensures r.Ok? && r.value.createdBackup ==> BackupPath() in fs.files && fs.files[BackupPath()] == old(fs.files[SshConfig()])
      ensures r.Ok? && !r.value.createdBackup ==> (BackupPath() in fs.files <==> BackupPath() in old(fs.files))
      ensures r.Ok? && !r.value.createdBackup && BackupPath() in fs.files ==> fs.files[BackupPath()] == old(fs.files[BackupPath()])
      ensures r.Ok? ==> r.value.addedInclude == IncludePlan(old(CurrentConfig()), base).0
      ensures r.Ok? ==> (fs.files ==
        (if r.value.createdBackup then old(fs.files)[BackupPath() := old(fs.files[SshConfig()])] else old(fs.files))
          [SshConfig() := IncludePlan(old(CurrentConfig()), base).1])
      ensures r.Ok? ==> SshConfig() in fs.files && Contains(fs.files[SshConfig()], IncludeLine(base))
      ensures r.Ok? ==> r.value.message == InitMessage(r.value.createdDirs, r.value.createdBackup, r.value.addedInclude, r.value.existingConnections, base, BackupPath())
    {
      var createdDirs := MakeStructure();
      if createdDirs.Err? {
        return Err(createdDirs.error);
      }
      ghost var start := fs.files;
      assert start == old(fs.files);
      var existing := CheckExistingSshConfig();
      if existing.Err? {
        return Err(existing.error);
      }
      var createdBackup := BackupOnce();
      ghost var backedUp := fs.files;
      IncludePlanSpec(CurrentConfig(), base);
      var added := AddIncludeStatement();
      assert added.Ok?;
      assert SshConfig() != BackupPath() by {
        assert SshConfig()[|sshDir|] != BackupPath()[|sshDir|];
      }
      assert BackupPath() in fs.files <==> BackupPath() in backedUp;
      var count := existing.value.connectionCount;
      var message := InitMessage(createdDirs.value, createdBackup.value, added.value, count, base, BackupPath());
      return Ok(InitReport(createdDirs.value, createdBackup.value, added.value, count, message));
    }

    /** `save_connection` raises nothing: the record is valid, its folder
        can be made with its parents, and its file then written. */
    predicate CanSave(files: map<Path, string>, dirs: set<Path>, conn: Connection)
      reads this
    {
      && IsValid(conn) && CanMakeDirs(files, FolderPath(conn.folder))
      && CanWrite(dirs + Prefixes(FolderPath(conn.folder)), ConfFile(conn.folder, conn.name))
    }

    /** `save_connection`: nothing is written unless `validate` is silent. */
    method SaveConnection(conn: Connection) returns (r: Result<(), Error>)
      requires Valid()
      modifies fs
      ensures Valid()
      ensures !IsValid(conn) ==>
        r == Err(ValueError("Connection validation failed: " + Join(ValidationErrors(conn), ", ")))
        && fs.files == old(fs.files) && fs.dirs == old(fs.dirs)
      ensures r.Ok? <==> CanSave(old(fs.files), old(fs.dirs), conn)
      ensures fs.files == if r.Ok? then old(fs.files)[ConfFile(conn.folder, conn.name) := SshConfigText(conn)] else old(fs.files)
      ensures fs.dirs == if IsValid(conn) && CanMakeDirs(old(fs.files), FolderPath(conn.folder))
                         then old(fs.dirs) + Prefixes(FolderPath(conn.folder)) else old(fs.dirs)
    {
      var errors := Validate(conn);
      ValidateEmptyIff(conn);
      if errors != [] {
        return Err(ValueError("Connection validation failed: " + Join(errors, ", ")));
      }
      var text := ToSshConfig(conn);
      r := WriteCreatingDirs(fs, FolderPath(conn.folder), ConfFile(conn.folder, conn.name), text);
    }

    /** Loading what `save_connection` wrote gives the record back, for every
        record whose fields survive the text format. */
    lemma SavedLoads(conn: Connection)
      requires Valid() && RoundTrips(conn)
      requires ConfFile(conn.folder, conn.name) in fs.files
      requires fs.files[ConfFile(conn.folder, conn.name)] == SshConfigText(conn)
      ensures LoadConnection(conn.folder, conn.name) == Ok(conn)
    {
      RoundTrip(conn);
    }

    /** `load_connection` */
    function LoadConnection(folder: string, name: string): (r: Result<Connection, Error>)
      reads this, fs
      ensures !fs.Exists(ConfFile(folder, name)) <==> r == Err(FileNotFoundError(NotFoundMessage(folder, name)))
      ensures r.Ok? ==> ConfFile(folder, name) in fs.files
    {
      LoadIn(fs.files, fs.dirs, base, folder, name)
    }

    /** `delete_connection`: removes that one file. */
    method DeleteConnection(folder: string, name: string) returns (r: Result<(), Error>)
      requires Valid()
      modifies fs
      ensures Valid()
      ensures fs.dirs == old(fs.dirs)
      ensures !old(fs.Exists(ConfFile(folder, name))) ==> r == Err(FileNotFoundError(NotFoundMessage(folder, name)))
      ensures r.Ok? <==> ConfFile(folder, name) in old(fs.files)
      ensures fs.files == old(fs.files) - {ConfFile(folder, name)}
    {
      var p := ConfFile(folder, name);
      if !fs.Exists(p) {
        return Err(FileNotFoundError(NotFoundMessage(folder, name)));
      }
      var ok := fs.Unlink(p);
      if !ok {
        return Err(OSError(p));
      }
      return Ok(());
    }

    /** `connection_exists`: true exactly when loading does not report the
        connection as missing. */
    predicate ConnectionExists(folder: string, name: string)
      reads this, fs
      ensures ConnectionExists(folder, name) <==> LoadConnection(folder, name) != Err(FileNotFoundError(NotFoundMessage(folder, name)))
    {
      fs.Exists(ConfFile(folder, name))
    }

    /** `list_connections`: every entry that loads, in the order the
        directory walk yields them; the others are skipped. */
    method ListConnections(folder: string) returns (conns: seq<Connection>)
      ensures Collected(LoadsIn(fs.files, fs.dirs, base, folder), conns)
    {
      var results := LoadsIn(fs.files, fs.dirs, base, folder);
      conns := Collect(results);
    }

    /** `move_connection`: the file changes folder, keeping its text, and the
        record's folder is updated. */
    method MoveConnection(conn: Connection, newFolder: string) returns (r: Result<Connection, Error>)
      requires Valid()
      modifies fs
      ensures Valid()
      ensures !old(fs.Exists(ConfFile(conn.folder, conn.name))) ==>
        r == Err(FileNotFoundError("Source connection not found: " + PathText(ConfFile(conn.folder, conn.name))))
      ensures old(fs.Exists(ConfFile(conn.folder, conn.name))) && old(fs.Exists(ConfFile(newFolder, conn.name))) ==>
        r == Err(ValueError("Connection '" + conn.name + "' already exists in folder '" + newFolder + "'"))
      ensures r.Err? && (r.error.FileNotFoundError? || r.error.ValueError?) ==>
        fs.files == old(fs.files) && fs.dirs == old(fs.dirs)
      ensures r.Ok? ==> r.value == conn.(folder := newFolder)
      ensures r.Ok? ==> ConfFile(conn.folder, conn.name) in old(fs.files)
      ensures r.Ok? ==> fs.files == (old(fs.files) - {ConfFile(conn.folder, conn.name)})[ConfFile(newFolder, conn.name) := old(fs.files[ConfFile(conn.folder, conn.name)])]
      ensures r.Ok? <==> ConfFile(conn.folder, conn.name) in old(fs.files) && !old(fs.Exists(ConfFile(newFolder, conn.name)))
                         && CanMakeDirs(old(fs.files), FolderPath(newFolder))
                         && CanWrite(old(fs.dirs) + Prefixes(FolderPath(newFolder)), ConfFile(newFolder, conn.name))
      ensures r.Err? ==> fs.files == old(fs.files)
      ensures fs.dirs == if old(fs.Exists(ConfFile(conn.folder, conn.name))) && !old(fs.Exists(ConfFile(newFolder, conn.name)))
                            && CanMakeDirs(old(fs.files), FolderPath(newFolder))
                         then old(fs.dirs) + Prefixes(FolderPath(newFolder)) else old(fs.dirs)
    {
      var source := ConfFile(conn.folder, conn.name);
      var dir := FolderPath(newFolder);
      var target := Under(dir, conn.name + ".conf");
      if !fs.Exists(source) {
        return Err(FileNotFoundError("Source connection not found: " + PathText(source)));
      }
      if fs.Exists(target) {
        return Err(ValueError("Connection '" + conn.name + "' already exists in folder '" + newFolder + "'"));
      }
      var ok := fs.MakeDirs(dir);
      if !ok {
        return Err(OSError(dir));
      }
      ok := fs.MoveFile(source, target);
      if !ok {
        return Err(OSError(source));
      }
      return Ok(conn.(folder := newFolder));
    }

    /** `create_folder` */
    method CreateFolder(folder: string) returns (r: Result<(), Error>)
      requires Valid()
      modifies fs
      ensures Valid()
      ensures fs.files == old(fs.files)
      ensures r.Ok? <==> forall i :: 0 <= i <= |FolderPath(folder)| ==> FolderPath(folder)[..i] !in old(fs.files)
      ensures r.Ok? ==> fs.dirs == old(fs.dirs) + Prefixes(FolderPath(folder))
      ensures r.Err? ==> fs.dirs == old(fs.dirs)
    {
      var ok := fs.MakeDirs(FolderPath(folder));
      if !ok {
        return Err(OSError(FolderPath(folder)));
      }
      return Ok(());
    }

    /** `delete_folder`: a non-empty folder goes only with `recursive`. */
    method DeleteFolder(folder: string, recursive: bool) returns (r: Result<(), Error>)
      requires Valid()
      modifies fs
      ensures Valid()
      ensures !old(fs.Exists(FolderPath(folder))) ==> r == Err(FileNotFoundError("Folder not found: " + folder))
      ensures old(fs.Exists(FolderPath(folder))) && !recursive && old(fs.HasEntries(FolderPath(folder))) ==>
        r == Err(ValueError("Folder '" + folder + "' is not empty. Use recursive=True to force delete."))
      ensures r.Err? ==> fs.files == old(fs.files) && fs.dirs == old(fs.dirs)
      ensures r.Ok? <==> FolderPath(folder) in old(fs.dirs) && FolderPath(folder) != []
                         && (recursive || !old(fs.HasEntries(FolderPath(folder))))
      ensures r.Ok? && !recursive ==> fs.files == old(fs.files) && fs.dirs == old(fs.dirs) - {FolderPath(folder)}
      ensures r.Ok? && recursive ==>
        fs.dirs == (set q | q in old(fs.dirs) && q != FolderPath(folder) && !Below(q, FolderPath(folder)))
        && fs.files == (map q | q in old(fs.files) && !Below(q, FolderPath(folder)) :: old(fs.files)[q])
    {
      var dir := FolderPath(folder);
      if !fs.Exists(dir) {
        return Err(FileNotFoundError("Folder not found: " + folder));
      }
      if !recursive && fs.HasEntries(dir) {
        return Err(ValueError("Folder '" + folder + "' is not empty. Use recursive=True to force delete."));
      }
      var ok: bool;
      if recursive {
        ok := fs.RemoveTree(dir);
      } else {
        ok := fs.RemoveDir(dir);
      }
      if !ok {
        return Err(OSError(dir));
      }
      return Ok(());
    }

    /** The directories strictly below the base. */
    function SubDirs(): set<Path>
      reads this, fs
    {
      set q | q in fs.dirs && Below(q, base)
    }

    /** `list_folders`: every directory below the base, relative to it, in
        sorted order. */
    method ListFolders() returns (r: seq<string>)
      ensures SortedBy(r, Identity)
      ensures |r| == |SubDirs()|
      ensures forall x :: x in r <==> exists q :: q in SubDirs() && RelativeText(q, base) == x
    {
      var todo := SubDirs();
      var folders: seq<string> := [];
      ghost var done: set<Path> := {};
      while todo != {}
        invariant todo + done == SubDirs() && todo !! done
        invariant |folders| == |done|
        invariant forall x :: x in folders <==> exists q :: q in done && RelativeText(q, base) == x
        decreases |todo|
      {
        var q :| q in todo;
        folders := folders + [RelativeText(q, base)];
        todo := todo - {q};
        done := done + {q};
      }
      r := Sort(folders);
    }

    /** `get_folder_tree`: every `.conf` entry below the base is listed by
        its stem at the node of its directory. */
    method GetFolderTree() returns (tree: FolderTree)
      ensures forall q :: q in CandidatesIn(fs.files, fs.dirs, base, "") ==> EntryListed(tree, base, q)
    {
      var entries := CandidatesIn(fs.files, fs.dirs, base, "");
      tree := BuildTree(entries, base);
    }
  }
}
