/** The part of the operating system's file tree that the stores touch:
    regular files with their text, and directories. A path is the list of
    names from the root. The operations are those of `pathlib` and `shutil`
    the stores call, each failing without effect where the operating system
    would raise. */
module FileSystem {
  import opened Wrappers
  import opened Text

  type Path = seq<string>

  /** An exception the stores let escape: ValueError, FileNotFoundError and
      IndexError with the source's message, or another OSError at a path. */
  datatype Error =
    | ValueError(message: string)
    | FileNotFoundError(message: string)
    | IndexError(message: string)
    | OSError(path: Path)

  function Parent(p: Path): Path
    requires p != []
  {
    p[..|p| - 1]
  }

  /** `p` and all its ancestors, down to the root. */
  function Prefixes(p: Path): set<Path>
  {
    set i | 0 <= i <= |p| :: p[..i]
  }

  /** `p.mkdir(parents=True)` can succeed: neither `p` nor any ancestor
      is a file. */
  predicate CanMakeDirs(files: map<Path, string>, p: Path)
  {
    forall i :: 0 <= i <= |p| ==> p[..i] !in files
  }

  /** `p.write_text(...)` can succeed: `p` is not the root or a directory,
      and its parent is a directory. */
  predicate CanWrite(dirs: set<Path>, p: Path)
  {
    p != [] && p[..|p| - 1] in dirs && p !in dirs
  }

  /** `a` lies strictly below `b`. */
  predicate Below(a: Path, b: Path)
  {
    |a| > |b| && a[..|b|] == b
  }

  /** The names of a relative path text as `pathlib` parses it: split at
      '/', with empty and "." names dropped. */
  function Names(s: string): (r: seq<string>)
    ensures forall i :: 0 <= i < |r| ==> r[i] != "" && r[i] != "."
  {
    Clean(Split(s, "/"))
  }

  function Clean(parts: seq<string>): (r: seq<string>)
    ensures forall i :: 0 <= i < |r| ==> r[i] != "" && r[i] != "."
    ensures |r| <= |parts|
  {
    if parts == [] then []
    else if parts[0] == "" || parts[0] == "." then Clean(parts[1..])
    else [parts[0]] + Clean(parts[1..])
  }

  /** `base / rel`: a text starting with '/' replaces the base. */
  function Under(base: Path, rel: string): Path
  {
    if rel != [] && rel[0] == '/' then Names(rel) else base + Names(rel)
  }

  /** `str(p)` of an absolute path. */
  function PathText(p: Path): string
  {
    "/" + Join(p, "/")
  }

  /** `str(p.relative_to(base))` for a path at or below `base`. */
  function RelativeText(p: Path, base: Path): string
    requires |base| <= |p|
  {
    if |p| == |base| then "." else Join(p[|base|..], "/")
  }

  /** `Path(name).stem` of a name ending in ".conf": a name made only of
      the suffix has no suffix and is its own stem. */
  function ConfStem(name: string): (r: string)
  {
    if |name| > 5 then name[..|name| - 5] else name
  }

  /** A name that `glob("*.conf")` matches. */
  predicate IsConfName(name: string)
  {
    |name| >= 5 && name[|name| - 5..] == ".conf"
  }

  /** A character other than '/' that occurs in a text occurs in one of the
      parts `split('/')` gives. */
  lemma {:induction false} SplitKeepsChar(s: string, c: char)
    requires c in s && c != '/'
    ensures InSomePart(Split(s, "/"), c)
    decreases |s|
  {
    assert s == [s[0]] + s[1..];
    if "/" <= s {
      assert Split(s, "/") == [""] + Split(s[1..], "/");
      SplitKeepsChar(s[1..], c);
      InSomePartCons("", Split(s[1..], "/"), c);
    } else {
      var t := Split(s[1..], "/");
      assert Split(s, "/") == [[s[0]] + t[0]] + t[1..];
      if s[0] == c {
        assert c in Split(s, "/")[0];
      } else {
        SplitKeepsChar(s[1..], c);
        InSomePartGrow(s[0], t, c);
      }
    }
  }

  /** Some part holds `c`. */
  ghost predicate InSomePart(parts: seq<string>, c: char)
  {
    exists i :: 0 <= i < |parts| && c in parts[i]
  }

  /** A part in front keeps `c` in some part. */
  lemma InSomePartCons(x: string, parts: seq<string>, c: char)
    requires InSomePart(parts, c)
    ensures InSomePart([x] + parts, c)
  {
    var i :| 0 <= i < |parts| && c in parts[i];
    assert ([x] + parts)[i + 1] == parts[i];
  }

  /** A character put in front of the first part keeps `c` in some part. */
  lemma InSomePartGrow(x: char, parts: seq<string>, c: char)
    requires parts != [] && InSomePart(parts, c)
    ensures InSomePart([[x] + parts[0]] + parts[1..], c)
  {
    var i :| 0 <= i < |parts| && c in parts[i];
    var r := [[x] + parts[0]] + parts[1..];
    if i == 0 {
      assert c in r[0];
    } else {
      assert r[i] == parts[i];
    }
  }

  /** A part holding a character other than '/' and '.' survives cleaning. */
  lemma {:induction false} CleanKeepsChar(parts: seq<string>, c: char, i: nat)
    requires i < |parts| && c in parts[i] && c != '.'
    ensures Clean(parts) != []
  {
    if i > 0 && (parts[0] == "" || parts[0] == ".") {
      CleanKeepsChar(parts[1..], c, i - 1);
    } else if i == 0 {
      assert parts[0] != "" && parts[0] != ".";
    }
  }

  /** The file name `<name>.conf` always names at least one path element. */
  lemma ConfNamesNonEmpty(name: string)
    ensures Names(name + ".conf") != []
  {
    var s := name + ".conf";
    assert s[|s| - 1] == 'f';
    SplitKeepsChar(s, 'f');
    var i :| 0 <= i < |Split(s, "/")| && 'f' in Split(s, "/")[i];
    CleanKeepsChar(Split(s, "/"), 'f', i);
  }

  /** A last part that is a name survives cleaning as the last name. */
  lemma {:induction false} CleanLast(parts: seq<string>)
    requires parts != [] && parts[|parts| - 1] != "" && parts[|parts| - 1] != "."
    ensures Clean(parts) != [] && Clean(parts)[|Clean(parts)| - 1] == parts[|parts| - 1]
  {
    if |parts| > 1 {
      CleanLast(parts[1..]);
    }
  }

  /** The names of `f"{name}.conf"` end in one that `glob("*.conf")`
      matches, whatever '/' the name holds. */
  lemma ConfNamesLast(name: string)
    ensures Names(name + ".conf") != []
    ensures IsConfName(Names(name + ".conf")[|Names(name + ".conf")| - 1])
  {
    var s := name + ".conf";
    var parts := Split(s, "/");
    SplitLastPiece(s, '/');
    var last := parts[|parts| - 1];
    if |parts| > 1 {
      AfterKeepsConf(name, last);
    }
    CleanLast(parts);
  }

  /** What follows a '/' in `f"{name}.conf"` still ends in ".conf". */
  lemma AfterKeepsConf(name: string, p: string)
    requires EndsAfter(name + ".conf", '/', p)
    ensures IsConfName(p)
  {
    var s := name + ".conf";
    var k :| 1 <= k <= |s| && s[k - 1] == '/' && p == s[k..];
    assert k <= |name|;
    assert p[|p| - 5..] == s[|s| - 5..];
  }

  /** `base / f"{name}.conf"` ends in a name `glob("*.conf")` matches. */
  lemma ConfFileLast(base: Path, name: string)
    ensures Under(base, name + ".conf") != []
    ensures IsConfName(Under(base, name + ".conf")[|Under(base, name + ".conf")| - 1])
  {
    ConfNamesLast(name);
  }

  /** A name without '/' is a single path element (unless it is "" or "."). */
  lemma PlainName(name: string)
    requires '/' !in name && name != "" && name != "."
    ensures Names(name) == [name]
  {
    LacksNotContains(name, "/");
    SplitNoSep(name, "/");
  }

  /** Cleaning keeps a final name. */
  lemma {:induction false} CleanSnoc(parts: seq<string>, x: string)
    requires x != "" && x != "."
    ensures Clean(parts + [x]) == Clean(parts) + [x]
  {
    if parts != [] {
      assert (parts + [x])[1..] == parts[1..] + [x];
      CleanSnoc(parts[1..], x);
    }
  }

  /** Cleaning works part by part. */
  lemma {:induction false} CleanAppend(p: seq<string>, q: seq<string>)
    ensures Clean(p + q) == Clean(p) + Clean(q)
  {
    if p != [] {
      assert (p + q)[1..] == p[1..] + q;
      CleanAppend(p[1..], q);
    } else {
      assert p + q == q;
    }
  }

  /** The directory `base / name` resolves the part of `name` up to its
      last '/' against. */
  function HeadDir(base: Path, name: string): Path
  {
    var p := Split(name, "/");
    (if name != [] && name[0] == '/' then [] else base) + Clean(p[..|p| - 1])
  }

  /** `base / (name + s)` for a tail `s` without '/': the last name is the
      last piece of `name` followed by `s`. */
  lemma UnderAppend(base: Path, name: string, s: string)
    requires Lacks(s, '/') && s != "" && s != "."
    ensures var p := Split(name, "/");
      Under(base, name + s) == HeadDir(base, name) + [p[|p| - 1] + s]
  {
    var p := Split(name, "/");
    var front := Clean(p[..|p| - 1]);
    var last := p[|p| - 1] + s;
    NamesAppend(name, s);
    AbsoluteAppend(name, s);
    if !(name != [] && name[0] == '/') {
      assert base + (front + [last]) == (base + front) + [last];
    }
  }

  /** The names of `name + s`, for a tail `s` without '/', are those before
      the last piece of `name`, then that piece followed by `s`. */
  lemma NamesAppend(name: string, s: string)
    requires Lacks(s, '/') && s != "" && s != "."
    ensures var p := Split(name, "/");
      Names(name + s) == Clean(p[..|p| - 1]) + [p[|p| - 1] + s]
  {
    var p := Split(name, "/");
    SplitAppend(name, s);
    var last := p[|p| - 1] + s;
    assert last != "" && last != "." by {
      assert |last| >= |s|;
      if |last| == 1 { assert p[|p| - 1] == "" && last == s; }
    }
    CleanSnoc(p[..|p| - 1], last);
  }

  /** Appending a tail that does not start with '/' keeps a name absolute
      or relative. */
  lemma AbsoluteAppend(name: string, s: string)
    requires Lacks(s, '/') && s != ""
    ensures (name + s != [] && (name + s)[0] == '/') == (name != [] && name[0] == '/')
  {
    if name != [] { assert (name + s)[0] == name[0]; }
    else { assert (name + s)[0] == s[0]; }
  }

  /** `base / f"{parent}/{name}"` is `base / parent` followed by the names
      of `name`. */
  lemma UnderJoined(base: Path, parent: string, name: string)
    requires parent != ""
    ensures Under(base, parent + "/" + name) == Under(base, parent) + Names(name)
  {
    SplitSlash(parent, name);
    CleanAppend(Split(parent, "/"), Split(name, "/"));
    assert (parent + "/" + name)[0] == parent[0];
  }

  /** The tree of files and directories. */
  class FileSystem {
    var files: map<Path, string>
    var dirs: set<Path>

    /** The root is a directory, every entry's parent is a directory, and
        no path is both a file and a directory. */
    ghost predicate Valid()
      reads this
    {
      && [] in dirs
      && (forall p :: p in dirs && p != [] ==> Parent(p) in dirs)
      && (forall p :: p in files ==> p != [] && Parent(p) in dirs)
      && (forall p :: p in files ==> p !in dirs)
    }

    /** An empty tree: only the root directory. */
    constructor ()
      ensures Valid()
      ensures files == map[] && dirs == {[]}
    {
      files := map[];
      dirs := {[]};
    }

    /** `p.exists()` */
    predicate Exists(p: Path)
      reads this
    {
      p in files || p in dirs
    }

    /** Something lies directly in directory `p` (`any(p.iterdir())`). */
    predicate HasEntries(p: Path)
      reads this
    {
      (exists q :: q in files && Below(q, p)) || (exists q :: q in dirs && Below(q, p))
    }

    /** `p.mkdir(parents=True, exist_ok=True)`: fails when `p` or one of
        its ancestors is a file. */
    method MakeDirs(p: Path) returns (ok: bool)
      requires Valid()
      modifies this
      ensures Valid()
      ensures ok <==> CanMakeDirs(old(files), p)
      ensures ok ==> files == old(files) && dirs == old(dirs) + Prefixes(p)
      ensures !ok ==> files == old(files) && dirs == old(dirs)
    {
      if exists i :: 0 <= i <= |p| && p[..i] in files {
        ok := false;
        assert p[..|p|] == p;
        return;
      }
      ok := true;
      var added := Prefixes(p);
      assert p[..|p|] == p && p[..0] == [];
      forall q | q in added && q != []
        ensures Parent(q) in added
      {
        var i :| 0 <= i <= |p| && q == p[..i];
        assert Parent(q) == p[..i - 1];
      }
      dirs := dirs + added;
    }

    /** `p.mkdir(exist_ok=True)`: the parent must already be a directory. */
    method MakeDir(p: Path) returns (ok: bool)
      requires Valid()
      modifies this
      ensures Valid()
      ensures ok <==> p == [] || (p !in old(files) && Parent(p) in old(dirs))
      ensures files == old(files)
      ensures dirs == if ok then old(dirs) + {p} else old(dirs)
    {
      if p == [] {
        return true;
      }
      if p in files || Parent(p) !in dirs {
        return false;
      }
      dirs := dirs + {p};
      return true;
    }

    /** `p.write_text(text)`: creates or overwrites a file in an existing
        directory. */
    method WriteText(p: Path, text: string) returns (ok: bool)
      requires Valid()
      modifies this
      ensures Valid()
      ensures ok <==> CanWrite(old(dirs), p)
      ensures dirs == old(dirs)
      ensures files == if ok then old(files)[p := text] else old(files)
    {
      if p == [] || Parent(p) !in dirs || p in dirs {
        return false;
      }
      files := files[p := text];
      return true;
    }

    /** `p.touch()`: an existing file keeps its text, otherwise an empty
        file is created. */
    method Touch(p: Path) returns (ok: bool)
      requires Valid()
      modifies this
      ensures Valid()
      ensures ok <==> p in old(dirs) || p in old(files) || (p != [] && Parent(p) in old(dirs))
      ensures dirs == old(dirs)
      ensures files == if ok && p !in old(files) && p !in old(dirs) then old(files)[p := ""] else old(files)
    {
      if p in dirs || p in files {
        return true;
      }
      ok := WriteText(p, "");
    }

    /** `shutil.copy2(src, dst)` of a file to a file path. */
    method CopyFile(src: Path, dst: Path) returns (ok: bool)
      requires Valid()
      modifies this
      ensures Valid()
      ensures ok <==> src in old(files) && CanWrite(old(dirs), dst)
      ensures dirs == old(dirs)
      ensures files == if ok then old(files)[dst := old(files)[src]] else old(files)
    {
      if src !in files {
        return false;
      }
      ok := WriteText(dst, files[src]);
    }

    /** `p.unlink()` of a file. */
    method Unlink(p: Path) returns (ok: bool)
      requires Valid()
      modifies this
      ensures Valid()
      ensures ok <==> p in old(files)
      ensures dirs == old(dirs)
      ensures files == old(files) - {p}
    {
      ok := p in files;
      files := files - {p};
    }

    /** `p.rmdir()` of an empty directory other than the root. */
    method RemoveDir(p: Path) returns (ok: bool)
      requires Valid()
      modifies this
      ensures Valid()
      ensures ok <==> p in old(dirs) && p != [] && !old(HasEntries(p))
      ensures files == old(files)
      ensures dirs == if ok then old(dirs) - {p} else old(dirs)
    {
      if p !in dirs || p == [] || HasEntries(p) {
        return false;
      }
      forall q | q in dirs - {p} && q != []
        ensures Parent(q) in dirs - {p}
      {
        assert Below(q, Parent(q));
      }
      forall q | q in files
        ensures Parent(q) != p
      {
        assert Below(q, Parent(q));
      }
      dirs := dirs - {p};
      return true;
    }

    /** `shutil.rmtree(p)`: a directory other than the root, with all that
        lies below it. */
    method RemoveTree(p: Path) returns (ok: bool)
      requires Valid()
      modifies this
      ensures Valid()
      ensures ok <==> p in old(dirs) && p != []
      ensures ok ==> dirs == (set q | q in old(dirs) && q != p && !Below(q, p))
      ensures ok ==> files == (map q | q in old(files) && !Below(q, p) :: old(files)[q])
      ensures !ok ==> files == old(files) && dirs == old(dirs)
    {
      if p !in dirs || p == [] {
        return false;
      }
      var keptDirs := set q | q in dirs && q != p && !Below(q, p);
      var keptFiles := map q | q in files && !Below(q, p) :: files[q];
      forall q | q in keptDirs && q != []
        ensures Parent(q) in keptDirs
      {
        OutsideParent(q, p);
      }
      forall q | q in keptFiles
        ensures Parent(q) in keptDirs
      {
        OutsideParent(q, p);
      }
      dirs := keptDirs;
      files := keptFiles;
      return true;
    }

    /** `shutil.move(src, dst)` of a file to a new file path. */
    method MoveFile(src: Path, dst: Path) returns (ok: bool)
      requires Valid()
      modifies this
      ensures Valid()
      ensures ok <==> src in old(files) && CanWrite(old(dirs), dst)
      ensures dirs == old(dirs)
      ensures files == if ok then (old(files) - {src})[dst := old(files)[src]] else old(files)
    {
      if src !in files || dst == [] || Parent(dst) !in dirs || dst in dirs {
        return false;
      }
      files := (files - {src})[dst := files[src]];
      return true;
    }
  }

  /** The parent of a path that is neither `p` nor below it is neither. */
  lemma OutsideParent(q: Path, p: Path)
    requires q != [] && q != p && !Below(q, p) && p != []
    ensures Parent(q) != p && !Below(Parent(q), p)
  {
    assert Below(q, Parent(q));
    BelowTransitive(q, Parent(q), p);
  }

  lemma BelowTransitive(a: Path, b: Path, c: Path)
    requires Below(a, b)
    ensures Below(b, c) ==> Below(a, c)
  {
    assert |c| <= |b| ==> a[..|c|] == b[..|c|];
  }

  /** `dir.mkdir(parents=True, exist_ok=True)` followed by
      `file.write_text(text)`; the first failure is the error. */
  method WriteCreatingDirs(fs: FileSystem, dir: Path, file: Path, text: string) returns (r: Result<(), Error>)
    requires fs.Valid()
    modifies fs
    ensures fs.Valid()
    ensures r.Ok? <==> CanMakeDirs(old(fs.files), dir) && CanWrite(old(fs.dirs) + Prefixes(dir), file)
    ensures fs.files == if r.Ok? then old(fs.files)[file := text] else old(fs.files)
    ensures fs.dirs == if CanMakeDirs(old(fs.files), dir) then old(fs.dirs) + Prefixes(dir) else old(fs.dirs)
  {
    var ok := fs.MakeDirs(dir);
    if !ok {
      return Err(OSError(dir));
    }
    ok := fs.WriteText(file, text);
    if !ok {
      return Err(OSError(file));
    }
    return Ok(());
  }
}
