/** The main window of the Qt front end: the handlers that turn the records
    the dialogs emit into store calls (new, edit, duplicate, delete, create
    folder), the selection it remembers, and the search box. Message boxes
    become outcomes; the user's answer to a confirmation or to the folder
    name prompt is a parameter. */
module MainWindow {
  import opened Wrappers
  import opened Text
  import opened FileSystem
  import opened Connection
  import opened ConfigManager

  /** How a handler ended: the store was changed, nothing was attempted (a
      warning or an information box, or the user declined), or the store
      raised (an error box). */
  datatype Outcome = Done | Skipped | Failed(error: Error)

  // ---------------------------------------------------------------------
  // Duplicate names
  // ---------------------------------------------------------------------

  /** The tail of the n-th name `duplicate_connection` tries: "-copy", then
      "-copy1", "-copy2", ... */
  function CopyTail(n: nat): (t: string)
    ensures t != "" && t[0] == '-' && Lacks(t, '/')
    ensures n == 0 <==> t == "-copy"
  {
    IntStringNoSpace(n);
    if n == 0 then "-copy" else "-copy" + IntToString(n)
  }

  function CopyName(name: string, n: nat): string
  {
    name + CopyTail(n)
  }

  /** The first n names tried, in order. */
  function CopyNames(name: string, n: nat): (r: seq<string>)
    ensures |r| == n && forall i :: 0 <= i < n ==> r[i] == CopyName(name, i)
  {
    if n == 0 then [] else CopyNames(name, n - 1) + [CopyName(name, n - 1)]
  }

  /** Two tries never give the same file name. */
  lemma CopyTailsDistinct(i: nat, j: nat)
    requires i != j
    ensures CopyTail(i) + ".conf" != CopyTail(j) + ".conf"
  {
    var a := CopyTail(i) + ".conf";
    var b := CopyTail(j) + ".conf";
    IntStringNoSpace(i);
    IntStringNoSpace(j);
    if i > 0 && j > 0 {
      ParseIntToString(i);
      ParseIntToString(j);
      assert a[5..|a| - 5] == IntToString(i);
      assert b[5..|b| - 5] == IntToString(j);
    } else {
      assert |a| != |b|;
    }
  }

  /** Two tries never name the same file, whatever the folder and the name
      hold (even '/'). */
  lemma CopyFilesDistinct(base: Path, folder: string, name: string, i: nat, j: nat)
    requires i != j
    ensures ConfPath(base, folder, CopyName(name, i)) != ConfPath(base, folder, CopyName(name, j))
  {
    var s := CopyTail(i) + ".conf";
    var t := CopyTail(j) + ".conf";
    CopyFileLast(base, folder, name, i);
    CopyFileLast(base, folder, name, j);
    CopyTailsDistinct(i, j);
    DifferentLast(ConfPath(base, folder, CopyName(name, i)), ConfPath(base, folder, CopyName(name, j)),
                  LastName(name), s, t);
  }

  /** The part of a name after its last '/'. */
  function LastName(name: string): string
  {
    var p := Split(name, "/");
    p[|p| - 1]
  }

  /** The last name of the n-th try's file: the last piece of `name`
      followed by the tail and ".conf". */
  lemma CopyFileLast(base: Path, folder: string, name: string, n: nat)
    ensures var u := ConfPath(base, folder, CopyName(name, n));
      |u| > 0 && u[|u| - 1] == LastName(name) + (CopyTail(n) + ".conf")
  {
    var s := CopyTail(n) + ".conf";
    assert CopyName(name, n) + ".conf" == name + s;
    assert Lacks(s, '/') && s != "" && s != "." by { assert s[0] == '-'; }
    UnderLast(Under(base, folder), name, s);
  }

  /** The last name under `b` of `name + s`, for a tail `s` without '/'. */
  lemma UnderLast(b: Path, name: string, s: string)
    requires Lacks(s, '/') && s != "" && s != "."
    ensures var u := Under(b, name + s);
      |u| > 0 && u[|u| - 1] == LastName(name) + s
  {
    UnderAppend(b, name, s);
  }

  /** Paths whose last names differ after a common start differ. */
  lemma DifferentLast(u: Path, v: Path, l: string, s: string, t: string)
    requires |u| > 0 && |v| > 0 && u[|u| - 1] == l + s && v[|v| - 1] == l + t && s != t
    ensures u != v
  {
    assert (l + s)[|l|..] == s && (l + t)[|l|..] == t;
  }

  /** The files the first n tries name. */
  function CopyFiles(base: Path, folder: string, name: string, n: nat): set<Path>
  {
    if n == 0 then {} else CopyFiles(base, folder, name, n - 1) + {ConfPath(base, folder, CopyName(name, n - 1))}
  }

  /** The n-th try names none of the files the tries before it named. */
  lemma {:induction false} CopyFileFresh(base: Path, folder: string, name: string, n: nat, m: nat)
    requires m <= n
    ensures ConfPath(base, folder, CopyName(name, n)) !in CopyFiles(base, folder, name, m)
  {
    if m > 0 {
      CopyFileFresh(base, folder, name, n, m - 1);
      CopyFilesDistinct(base, folder, name, n, m - 1);
    }
  }

  /** Taking out one more element of a finite set leaves fewer. */
  lemma Shrinks<T>(a: set<T>, b: set<T>, x: T)
    requires x in a && x !in b
    ensures |a - (b + {x})| < |a - b|
  {
    assert a - b == (a - (b + {x})) + {x};
  }

  /** A copy of a valid connection whose name is made of name characters
      only is valid too. */
  lemma CopyValid(c: Connection, n: nat)
    requires IsValid(c) && AllNameChars(c.name)
    ensures IsValid(c.(name := CopyName(c.name, n)))
  {
    var t := CopyTail(n);
    IntStringNoSpace(n);
    assert AllNameChars(t);
    assert AllNameChars(c.name + t);
  }

  // ---------------------------------------------------------------------
  // Create folder, search, delete target
  // ---------------------------------------------------------------------

  /** The folder text `create_folder` hands the store. */
  function FolderPathFor(parent: string, name: string): string
  {
    if parent != "" then parent + "/" + name else name
  }

  /** What `on_search_changed` asks of the tree. */
  datatype SearchAction = Filter(text: string) | ClearFilter

  /** `on_search_changed`: a non-blank text filters by its stripped form,
      a blank one clears the filter. */
  function OnSearchChanged(text: string): (a: SearchAction)
    ensures a.Filter? <==> Strip(text) != ""
    ensures a.Filter? ==> a.text == Strip(text) && IsStripped(a.text)
  {
    StripResult(text);
    if Strip(text) != "" then Filter(Strip(text)) else ClearFilter
  }

  /** Surrounding whitespace never changes what the search does. */
  lemma SearchIgnoresPadding(text: string)
    ensures OnSearchChanged(Strip(text)) == OnSearchChanged(text)
  {
    StripResult(text);
    StripStripped(Strip(text));
  }

  /** What `delete_selected` deletes. */
  datatype DeleteTarget = ConnectionTarget(c: Connection) | FolderTarget(path: string) | NoTarget

  /** A selected connection wins over a selected folder; an empty folder
      text counts as no selection. */
  function SelectedTarget(connection: Option<Connection>, folder: Option<string>): (t: DeleteTarget)
    ensures t.ConnectionTarget? <==> connection.Some?
    ensures t.ConnectionTarget? ==> t.c == connection.value
    ensures t.FolderTarget? <==> connection.None? && folder.Some? && folder.value != ""
    ensures t.FolderTarget? ==> t.path == folder.value
  {
    if connection.Some? then ConnectionTarget(connection.value)
    else if folder.Some? && folder.value != "" then FolderTarget(folder.value)
    else NoTarget
  }

  /** The name or the folder of an edited connection changed. */
  predicate Moved(oldConn: Connection, newConn: Connection)
  {
    oldConn.name != newConn.name || oldConn.folder != newConn.folder
  }

  // ---------------------------------------------------------------------
  // The window
  // ---------------------------------------------------------------------

  class MainWindow {
    const manager: ConfigManager
    var selectedConnection: Option<Connection>
    var selectedFolder: Option<string>

    ghost predicate Valid()
      reads this, manager, manager.fs
    {
      manager.Valid()
    }

    constructor (manager: ConfigManager)
      ensures this.manager == manager
      ensures selectedConnection.None? && selectedFolder.None?
    {
      this.manager := manager;
      selectedConnection := None;
      selectedFolder := None;
    }

    /** `on_connection_selected`: the connection is remembered and the
        folder selection dropped. */
    method OnConnectionSelected(c: Connection)
      modifies this
      ensures selectedConnection == Some(c) && selectedFolder.None?
    {
      selectedConnection := Some(c);
      selectedFolder := None;
    }

    /** `save_new_connection`: an existing folder/name is never
        overwritten. */
    method SaveNewConnection(c: Connection) returns (o: Outcome)
      requires Valid()
      modifies manager.fs
      ensures Valid()
      ensures old(manager.ConnectionExists(c.folder, c.name)) ==>
        o == Skipped && manager.fs.files == old(manager.fs.files) && manager.fs.dirs == old(manager.fs.dirs)
      ensures !old(manager.ConnectionExists(c.folder, c.name)) && !IsValid(c) ==>
        o == Failed(ValueError("Connection validation failed: " + Join(ValidationErrors(c), ", ")))
        && manager.fs.files == old(manager.fs.files) && manager.fs.dirs == old(manager.fs.dirs)
      ensures o == Done <==> !old(manager.ConnectionExists(c.folder, c.name)) && manager.CanSave(old(manager.fs.files), old(manager.fs.dirs), c)
      ensures o == Done ==> IsValid(c) && manager.ConfFile(c.folder, c.name) !in old(manager.fs.files)
      ensures o == Done ==>
        manager.fs.files == old(manager.fs.files)[manager.ConfFile(c.folder, c.name) := SshConfigText(c)]
    {
      if manager.ConnectionExists(c.folder, c.name) {
        return Skipped;
      }
      var r := manager.SaveConnection(c);
      if r.Err? {
        return Failed(r.error);
      }
      return Done;
    }

    /** `save_edited_connection`: the old file goes only when the name or
        the folder changed; then the new record is saved, over whatever
        file it names. */
    method SaveEditedConnection(oldConn: Connection, newConn: Connection) returns (o: Outcome)
      requires Valid()
      modifies manager.fs
      ensures Valid()
      ensures Moved(oldConn, newConn) && !old(manager.fs.Exists(manager.ConfFile(oldConn.folder, oldConn.name))) ==>
        o == Failed(FileNotFoundError(NotFoundMessage(oldConn.folder, oldConn.name)))
        && manager.fs.files == old(manager.fs.files) && manager.fs.dirs == old(manager.fs.dirs)
      ensures !Moved(oldConn, newConn) && !IsValid(newConn) ==>
        o == Failed(ValueError("Connection validation failed: " + Join(ValidationErrors(newConn), ", ")))
        && manager.fs.files == old(manager.fs.files) && manager.fs.dirs == old(manager.fs.dirs)
      ensures Moved(oldConn, newConn) && !IsValid(newConn) ==>
        o.Failed? && manager.fs.files == old(manager.fs.files) - {manager.ConfFile(oldConn.folder, oldConn.name)}
      ensures o == Done <==> && (Moved(oldConn, newConn) ==> manager.ConfFile(oldConn.folder, oldConn.name) in old(manager.fs.files))
                             && manager.CanSave(if Moved(oldConn, newConn) then old(manager.fs.files) - {manager.ConfFile(oldConn.folder, oldConn.name)}
                                                else old(manager.fs.files), old(manager.fs.dirs), newConn)
      ensures o == Done ==> IsValid(newConn)
      ensures o == Done ==>
        manager.fs.files == (if Moved(oldConn, newConn) then old(manager.fs.files) - {manager.ConfFile(oldConn.folder, oldConn.name)}
                             else old(manager.fs.files))[manager.ConfFile(newConn.folder, newConn.name) := SshConfigText(newConn)]
    {
      if Moved(oldConn, newConn) {
        var d := manager.DeleteConnection(oldConn.folder, oldConn.name);
        if d.Err? {
          return Failed(d.error);
        }
      }
      var r := manager.SaveConnection(newConn);
      if r.Err? {
        return Failed(r.error);
      }
      return Done;
    }

    /** The naming loop of `duplicate_connection`: the first of
        "<name>-copy", "<name>-copy1", ... that names no entry in the
        folder. The search ends because each name it passes is a distinct
        entry of the finite tree. */
    method FreeCopyName(folder: string, name: string) returns (newName: string, tries: nat)
      ensures newName == CopyName(name, tries)
      ensures !manager.ConnectionExists(folder, newName)
      ensures forall k :: 0 <= k < tries ==> manager.ConnectionExists(folder, CopyName(name, k))
    {
      newName := name + CopyTail(0);
      var counter := 1;
      ghost var taken := manager.fs.files.Keys + manager.fs.dirs;
      ghost var passed: seq<string> := [];
      while manager.ConnectionExists(folder, newName)
        invariant counter == |passed| + 1
        invariant newName == CopyName(name, |passed|)
        invariant passed == CopyNames(name, |passed|)
        invariant forall i :: 0 <= i < |passed| ==> manager.ConnectionExists(folder, passed[i])
        invariant CopyFiles(manager.base, folder, name, |passed|) <= taken
        decreases |taken - CopyFiles(manager.base, folder, name, |passed|)|
      {
        ghost var q := manager.ConfFile(folder, newName);
        CopyFileFresh(manager.base, folder, name, |passed|, |passed|);
        Shrinks(taken, CopyFiles(manager.base, folder, name, |passed|), q);
        passed := passed + [newName];
        newName := name + CopyTail(counter);
        counter := counter + 1;
      }
      tries := counter - 1;
    }

    /** `duplicate_connection`: the copy takes the first free copy name and
        equals the original in every other field; saving it overwrites no
        existing file. */
    method DuplicateConnection(c: Connection) returns (copy: Connection, tries: nat, o: Outcome)
      requires Valid()
      modifies manager.fs
      ensures Valid()
      ensures copy == c.(name := CopyName(c.name, tries))
      ensures !old(manager.ConnectionExists(c.folder, copy.name))
      ensures forall k :: 0 <= k < tries ==> old(manager.ConnectionExists(c.folder, CopyName(c.name, k)))
      ensures !IsValid(copy) ==>
        o == Failed(ValueError("Connection validation failed: " + Join(ValidationErrors(copy), ", ")))
        && manager.fs.files == old(manager.fs.files) && manager.fs.dirs == old(manager.fs.dirs)
      ensures o == Done <==> manager.CanSave(old(manager.fs.files), old(manager.fs.dirs), copy)
      ensures o == Done ==> IsValid(copy)
      ensures o == Done ==>
        manager.fs.files == old(manager.fs.files)[manager.ConfFile(c.folder, copy.name) := SshConfigText(copy)]
      ensures o == Done ==> forall p :: p in old(manager.fs.files) ==>
        p in manager.fs.files && manager.fs.files[p] == old(manager.fs.files)[p]
    {
      var newName;
      newName, tries := FreeCopyName(c.folder, c.name);
      copy := c.(name := newName);
      var r := manager.SaveConnection(copy);
      if r.Err? {
        return copy, tries, Failed(r.error);
      }
      return copy, tries, Done;
    }

    /** `delete_selected` with the user's answer to the confirmation: a
        connection's file, or a folder with all it holds, goes. */
    method DeleteSelected(connection: Option<Connection>, folder: Option<string>, confirmed: bool)
      returns (o: Outcome)
      requires Valid()
      modifies manager.fs
      ensures Valid()
      ensures !confirmed || SelectedTarget(connection, folder).NoTarget? ==>
        o == Skipped && manager.fs.files == old(manager.fs.files) && manager.fs.dirs == old(manager.fs.dirs)
      ensures confirmed && connection.Some? ==>
        var f := manager.ConfFile(connection.value.folder, connection.value.name);
        && (o == Done <==> f in old(manager.fs.files))
        && manager.fs.files == old(manager.fs.files) - {f}
        && manager.fs.dirs == old(manager.fs.dirs)
      ensures confirmed && SelectedTarget(connection, folder).FolderTarget? ==>
        var d := manager.FolderPath(folder.value);
        && (o == Done <==> d in old(manager.fs.dirs) && d != [])
        && (o == Done ==>
              manager.fs.dirs == (set q | q in old(manager.fs.dirs) && q != d && !Below(q, d))
              && manager.fs.files == (map q | q in old(manager.fs.files) && !Below(q, d) :: old(manager.fs.files)[q]))
        && (o != Done ==> manager.fs.files == old(manager.fs.files) && manager.fs.dirs == old(manager.fs.dirs))
    {
      var target := SelectedTarget(connection, folder);
      if !confirmed || target.NoTarget? {
        return Skipped;
      }
      var r: Result<(), Error>;
      if target.ConnectionTarget? {
        r := manager.DeleteConnection(target.c.folder, target.c.name);
      } else {
        r := manager.DeleteFolder(target.path, true);
      }
      if r.Err? {
        return Failed(r.error);
      }
      return Done;
    }

    /** `create_folder` with the prompt's text and whether it was accepted:
        a new folder "<parent>/<name>" (or "<name>" at the top) is made,
        with every missing ancestor. */
    method CreateFolder(parent: string, folderName: string, ok: bool) returns (o: Outcome)
      requires Valid()
      modifies manager.fs
      ensures Valid()
      ensures manager.fs.files == old(manager.fs.files)
      ensures !ok || folderName == "" ==> o == Skipped && manager.fs.dirs == old(manager.fs.dirs)
      ensures o.Failed? ==> manager.fs.dirs == old(manager.fs.dirs)
      ensures o == Done <==> && ok && folderName != ""
                             && CanMakeDirs(old(manager.fs.files), if parent == "" then manager.FolderPath(folderName)
                                                                   else manager.FolderPath(parent) + Names(folderName))
      ensures o == Done && parent == "" ==>
        manager.fs.dirs == old(manager.fs.dirs) + Prefixes(manager.FolderPath(folderName))
      ensures o == Done && parent != "" ==>
        manager.fs.dirs == old(manager.fs.dirs) + Prefixes(manager.FolderPath(parent) + Names(folderName))
    {
      if !ok || folderName == "" {
        return Skipped;
      }
      var full := FolderPathFor(parent, folderName);
      if parent != "" {
        UnderJoined(manager.base, parent, folderName);
      }
      var r := manager.CreateFolder(full);
      if r.Err? {
        return Failed(r.error);
      }
      return Done;
    }
  }
}
