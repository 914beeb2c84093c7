/** The Qt tree view of connections: loading, selection and the search
    filter. The widget's items are the pre-order rows of the folder map
    (`QtFolderMap.TreeRows`), each with its hidden flag. */
module QtConnectionTree {
  import opened Wrappers
  import opened Text
  import opened Connection
  import opened QtFolderMap

  // ---------------------------------------------------------------------
  // Ancestors
  // ---------------------------------------------------------------------

  /** Row `a` is on the parent chain of row `d`. */
  ghost predicate Under(rows: seq<Row>, d: nat, a: nat)
    requires WellFormed(rows) && d < |rows|
    decreases d
  {
    assert ParentBefore(rows, d, None, 0);
    rows[d].parent.Some? && (rows[d].parent.value == a || Under(rows, rows[d].parent.value, a))
  }

  /** An ancestor comes earlier and is a folder. */
  lemma {:induction false} UnderBefore(rows: seq<Row>, d: nat, a: nat)
    requires WellFormed(rows) && d < |rows| && Under(rows, d, a)
    ensures a < d && rows[a].FolderRow?
    decreases d
  {
    assert ParentBefore(rows, d, None, 0);
    var p := rows[d].parent.value;
    if p != a {
      UnderBefore(rows, p, a);
    }
  }

  lemma {:induction false} UnderTransitive(rows: seq<Row>, d: nat, m: nat, a: nat)
    requires WellFormed(rows) && d < |rows| && m < |rows|
    requires Under(rows, d, m) && Under(rows, m, a)
    ensures Under(rows, d, a)
    decreases d
  {
    assert ParentBefore(rows, d, None, 0);
    var p := rows[d].parent.value;
    if p != m {
      UnderTransitive(rows, p, m, a);
    }
  }

  /** The child of `a` through which the chain from `d` passes. */
  lemma {:induction false} ChildOnPath(rows: seq<Row>, d: nat, a: nat) returns (c: nat)
    requires WellFormed(rows) && d < |rows| && Under(rows, d, a)
    ensures c < |rows| && rows[c].parent == Some(a) && (c == d || Under(rows, d, c))
    decreases d
  {
    assert ParentBefore(rows, d, None, 0);
    var p := rows[d].parent.value;
    if p == a {
      c := d;
    } else {
      c := ChildOnPath(rows, p, a);
    }
  }

  // ---------------------------------------------------------------------
  // Matching
  // ---------------------------------------------------------------------

  /** The lower-cased search text occurs in the lower-cased name, host
      name, user or folder. */
  predicate Matches(search: string, c: Connection)
  {
    Contains(Lower(c.name), search) || Contains(Lower(c.hostname), search) ||
    Contains(Lower(c.user), search) || Contains(Lower(c.folder), search)
  }

  /** Some connection row among the first `i` rows matches and lies
      below `f`. */
  ghost predicate MatchBelowBefore(rows: seq<Row>, search: string, f: nat, i: nat)
    requires WellFormed(rows) && i <= |rows|
  {
    exists d :: 0 <= d < i && rows[d].ConnectionRow? && Matches(search, rows[d].conn) && Under(rows, d, f)
  }

  /** Some matching connection lies below `f`. */
  ghost predicate MatchBelow(rows: seq<Row>, search: string, f: nat)
    requires WellFormed(rows)
  {
    MatchBelowBefore(rows, search, f, |rows|)
  }

  lemma MatchBelowStep(rows: seq<Row>, search: string, f: nat, i: nat)
    requires WellFormed(rows) && i < |rows|
    ensures MatchBelowBefore(rows, search, f, i + 1) <==>
      MatchBelowBefore(rows, search, f, i) ||
      (rows[i].ConnectionRow? && Matches(search, rows[i].conn) && Under(rows, i, f))
  {
  }

  /** The flags after the first pass from flags `h`: a connection row is
      hidden exactly when it does not match; a folder row is shown when a
      matching connection lies below it and keeps its flag otherwise. */
  ghost function Pass1Result(rows: seq<Row>, search: string, h: seq<bool>): (r: seq<bool>)
    requires WellFormed(rows) && |h| == |rows|
    ensures |r| == |rows|
  {
    seq(|rows|, k requires 0 <= k < |rows| =>
      if rows[k].ConnectionRow? then !Matches(search, rows[k].conn)
      else h[k] && !MatchBelow(rows, search, k))
  }

  /** Some child of row `f` is not hidden. */
  ghost predicate HasVisibleChild(rows: seq<Row>, h: seq<bool>, f: nat)
    requires |h| == |rows|
  {
    exists c :: 0 <= c < |rows| && rows[c].parent == Some(f) && !h[c]
  }

  /** Whether a row has a visible child depends only on the rows after it. */
  lemma VisibleChildFrame(rows: seq<Row>, h: seq<bool>, h': seq<bool>, f: nat)
    requires WellFormed(rows) && |h| == |rows| && |h'| == |rows|
    requires forall c :: f < c < |rows| ==> h[c] == h'[c]
    ensures HasVisibleChild(rows, h, f) <==> HasVisibleChild(rows, h', f)
  {
    forall c | 0 <= c < |rows| && rows[c].parent == Some(f)
      ensures h[c] == h'[c]
    {
      assert ParentBefore(rows, c, None, 0);
    }
  }

  /** The intended rule for empty folders, relating the flags `h` after
      the second pass to the flags `h1` after the first: a folder is
      hidden when it already was or, for a non-empty search, when none of
      its children is visible; nothing else changes. */
  ghost predicate EmptyFoldersHidden(rows: seq<Row>, search: string, h1: seq<bool>, h: seq<bool>)
    requires |h1| == |rows| && |h| == |rows|
  {
    forall k :: 0 <= k < |rows| ==>
      h[k] == (h1[k] || (rows[k].FolderRow? && search != "" && !HasVisibleChild(rows, h, k)))
  }

  /** What the second pass does when it visits folders parents first, as
      `QTreeWidgetItemIterator` does: each folder looks at its children's
      flags from the first pass, before its subfolders are hidden. */
  ghost function AsWrittenResult(rows: seq<Row>, search: string, h1: seq<bool>): (r: seq<bool>)
    requires |h1| == |rows|
    ensures |r| == |rows|
  {
    seq(|rows|, k requires 0 <= k < |rows| =>
      h1[k] || (rows[k].FolderRow? && search != "" && !HasVisibleChild(rows, h1, k)))
  }

  /** After both passes with the intended rule and a non-empty search, a
      folder is hidden exactly when no matching connection lies below it. */
  lemma {:induction false} EmptyFoldersMeansNoMatch(rows: seq<Row>, search: string, h0: seq<bool>, h: seq<bool>, f: nat)
    requires WellFormed(rows) && |h0| == |rows| && |h| == |rows|
    requires search != ""
    requires EmptyFoldersHidden(rows, search, Pass1Result(rows, search, h0), h)
    requires f < |rows| && rows[f].FolderRow?
    ensures h[f] <==> !MatchBelow(rows, search, f)
    decreases |rows| - f
  {
    var h1 := Pass1Result(rows, search, h0);
    if MatchBelow(rows, search, f) {
      var d :| 0 <= d < |rows| && rows[d].ConnectionRow? && Matches(search, rows[d].conn) && Under(rows, d, f);
      var c := ChildOnPath(rows, d, f);
      assert ParentBefore(rows, c, None, 0);
      if c != d {
        UnderBefore(rows, d, c);
        EmptyFoldersMeansNoMatch(rows, search, h0, h, c);
      }
      assert !h[c];
      assert HasVisibleChild(rows, h, f);
    } else {
      forall c | 0 <= c < |rows| && rows[c].parent == Some(f)
        ensures h[c]
      {
        assert ParentBefore(rows, c, None, 0);
        assert Under(rows, c, f);
        if rows[c].ConnectionRow? {
          assert !Matches(search, rows[c].conn);
        } else {
          if MatchBelow(rows, search, c) {
            var d :| 0 <= d < |rows| && rows[d].ConnectionRow? && Matches(search, rows[d].conn) && Under(rows, d, c);
            UnderTransitive(rows, d, c, f);
            assert false;
          }
          EmptyFoldersMeansNoMatch(rows, search, h0, h, c);
        }
      }
      assert !HasVisibleChild(rows, h, f);
    }
  }

  // ---------------------------------------------------------------------
  // The view
  // ---------------------------------------------------------------------

  /** `ConnectionTreeView`: the rows of the tree and which are hidden. */
  class ConnectionTreeView {
    var rows: seq<Row>
    var hidden: seq<bool>

    ghost predicate Valid()
      reads this
    {
      WellFormed(rows) && |hidden| == |rows|
    }

    constructor()
      ensures Valid() && rows == [] && hidden == []
    {
      rows := [];
      hidden := [];
    }

    /** `load_connections`: the tree is rebuilt from the folder map and
        every row is shown. */
    method LoadConnections(conns: seq<Connection>)
      modifies this
      ensures Valid()
      ensures rows == TreeRows(FolderMapOf(conns))
      ensures forall k :: 0 <= k < |hidden| ==> !hidden[k]
    {
      var folderMap := BuildFolderMap(conns);
      rows := TreeRows(folderMap);
      hidden := seq(|rows|, _ => false);
    }

    /** The unhiding loop of `filter_connections`: every ancestor of row
        `d` is shown. */
    method ShowAncestors(d: nat)
      requires Valid() && d < |rows|
      modifies this
      ensures Valid() && rows == old(rows)
      ensures forall k :: 0 <= k < |rows| ==> hidden[k] == (old(hidden[k]) && !Under(rows, d, k))
    {
      assert ParentBefore(rows, d, None, 0);
      var p: Option<nat> := rows[d].parent;
      while p.Some?
        invariant Valid() && rows == old(rows)
        invariant p.Some? ==> p.value < d && Under(rows, d, p.value)
        invariant forall k :: 0 <= k < |rows| ==>
          hidden[k] == (old(hidden[k]) && !(Under(rows, d, k) && !(p.Some? && (k == p.value || Under(rows, p.value, k)))))
        decreases if p.Some? then p.value + 1 else 0
      {
        var a := p.value;
        assert ParentBefore(rows, a, None, 0);
        ghost var before := hidden;
        hidden := hidden[a := false];
        p := rows[a].parent;
        if p.Some? {
          UnderTransitive(rows, d, a, p.value);
        }
        forall k | 0 <= k < |rows|
          ensures hidden[k] == (old(hidden[k]) && !(Under(rows, d, k) && !(p.Some? && (k == p.value || Under(rows, p.value, k)))))
        {
          if k == a {
            if p.Some? && Under(rows, p.value, a) {
              UnderBefore(rows, p.value, a);
            }
          }
        }
      }
    }

    /** The first pass of `filter_connections`. */
    method ShowMatches(search: string)
      requires Valid()
      modifies this
      ensures Valid() && rows == old(rows)
      ensures hidden == Pass1Result(rows, search, old(hidden))
    {
      var i := 0;
      while i < |rows|
        invariant 0 <= i <= |rows|
        invariant Valid() && rows == old(rows)
        invariant forall k :: 0 <= k < |rows| && rows[k].ConnectionRow? ==>
          hidden[k] == if k < i then !Matches(search, rows[k].conn) else old(hidden[k])
        invariant forall k :: 0 <= k < |rows| && rows[k].FolderRow? ==>
          hidden[k] == (old(hidden[k]) && !MatchBelowBefore(rows, search, k, i))
      {
        ghost var before := hidden;
        if rows[i].ConnectionRow? {
          var m := Matches(search, rows[i].conn);
          hidden := hidden[i := !m];
          if m {
            ShowAncestors(i);
          }
        }
        forall k | 0 <= k < |rows|
          ensures rows[k].ConnectionRow? ==>
            hidden[k] == if k < i + 1 then !Matches(search, rows[k].conn) else old(hidden[k])
          ensures rows[k].FolderRow? ==>
            hidden[k] == (old(hidden[k]) && !MatchBelowBefore(rows, search, k, i + 1))
        {
          MatchBelowStep(rows, search, k, i);
          if Under(rows, i, k) {
            UnderBefore(rows, i, k);
          }
        }
        i := i + 1;
      }
    }

    /** The inner loop of the second pass: whether folder row `f` has a
        child that is not hidden. */
    method HasVisibleChildRow(f: nat) returns (b: bool)
      requires Valid() && f < |rows|
      ensures b == HasVisibleChild(rows, hidden, f)
    {
      var c := 0;
      while c < |rows|
        invariant 0 <= c <= |rows|
        invariant forall x :: 0 <= x < c ==> !(rows[x].parent == Some(f) && !hidden[x])
      {
        if rows[c].parent == Some(f) && !hidden[c] {
          return true;
        }
        c := c + 1;
      }
      return false;
    }

    /** The second pass of `filter_connections` as the source writes it:
        folders in pre-order, parents before their subfolders. */
    method HideEmptyFoldersAsWritten(search: string)
      requires Valid()
      modifies this
      ensures Valid() && rows == old(rows)
      ensures hidden == AsWrittenResult(rows, search, old(hidden))
    {
      var i := 0;
      while i < |rows|
        invariant 0 <= i <= |rows|
        invariant Valid() && rows == old(rows)
        invariant forall k :: 0 <= k < i ==> hidden[k] == AsWrittenResult(rows, search, old(hidden))[k]
        invariant forall k :: i <= k < |rows| ==> hidden[k] == old(hidden[k])
      {
        if rows[i].FolderRow? {
          var b := HasVisibleChildRow(i);
          VisibleChildFrame(rows, hidden, old(hidden), i);
          if !b && search != "" {
            hidden := hidden[i := true];
          }
        }
        i := i + 1;
      }
    }

    /** The second pass with folders visited children first (reverse
        pre-order), so each folder sees its subfolders' final flags. */
    method HideEmptyFolders(search: string)
      requires Valid()
      modifies this
      ensures Valid() && rows == old(rows)
      ensures EmptyFoldersHidden(rows, search, old(hidden), hidden)
    {
      var i := |rows|;
      while i > 0
        invariant 0 <= i <= |rows|
        invariant Valid() && rows == old(rows)
        invariant forall k :: i <= k < |rows| ==>
          hidden[k] == (old(hidden[k]) || (rows[k].FolderRow? && search != "" && !HasVisibleChild(rows, hidden, k)))
        invariant forall k :: 0 <= k < i ==> hidden[k] == old(hidden[k])
      {
        i := i - 1;
        ghost var before := hidden;
        var b := false;
        if rows[i].FolderRow? {
          b := HasVisibleChildRow(i);
          if !b && search != "" {
            hidden := hidden[i := true];
          }
        }
        forall k | i <= k < |rows|
          ensures hidden[k] == (old(hidden[k]) || (rows[k].FolderRow? && search != "" && !HasVisibleChild(rows, hidden, k)))
        {
          VisibleChildFrame(rows, before, hidden, k);
        }
      }
    }

    /** `filter_connections` with the second pass visiting children first:
        a connection is hidden exactly when it does not match; for a
        non-empty search a folder is hidden exactly when no matching
        connection lies below it, and for an empty one a folder is shown
        when some connection lies below it. */
    method FilterConnections(searchText: string)
      requires Valid()
      modifies this
      ensures Valid() && rows == old(rows)
      ensures forall k :: 0 <= k < |rows| && rows[k].ConnectionRow? ==>
        (hidden[k] <==> !Matches(Lower(searchText), rows[k].conn))
      ensures forall k :: 0 <= k < |rows| && rows[k].FolderRow? ==>
        (hidden[k] <==>
          if Lower(searchText) != "" then !MatchBelow(rows, Lower(searchText), k)
          else old(hidden[k]) && !MatchBelow(rows, Lower(searchText), k))
    {
      var search := Lower(searchText);
      ghost var h0 := hidden;
      ShowMatches(search);
      ghost var h1 := hidden;
      HideEmptyFolders(search);
      forall k | 0 <= k < |rows| && rows[k].FolderRow?
        ensures hidden[k] <==>
          if search != "" then !MatchBelow(rows, search, k) else h0[k] && !MatchBelow(rows, search, k)
      {
        if search != "" {
          EmptyFoldersMeansNoMatch(rows, search, h0, hidden, k);
        } else {
          assert hidden[k] == h1[k];
        }
      }
    }

    /** `clear_filter`: every row is shown. */
    method ClearFilter()
      requires Valid()
      modifies this
      ensures Valid() && rows == old(rows)
      ensures forall k :: 0 <= k < |hidden| ==> !hidden[k]
    {
      var i := 0;
      while i < |hidden|
        invariant 0 <= i <= |hidden|
        invariant Valid() && rows == old(rows)
        invariant forall k :: 0 <= k < i ==> !hidden[k]
      {
        hidden := hidden[i := false];
        i := i + 1;
      }
    }

    /** `get_selected_connection`: the connection of the current row when
        it is a connection row. */
    function SelectedConnection(current: Option<nat>): (r: Option<Connection>)
      reads this
      requires current.Some? ==> current.value < |rows|
      ensures r.Some? <==> current.Some? && rows[current.value].ConnectionRow?
      ensures r.Some? ==> r.value == rows[current.value].conn
    {
      if current.Some? && rows[current.value].ConnectionRow? then Some(rows[current.value].conn) else None
    }

    /** `get_selected_folder`: the path of the current row when it is a
        folder row. */
    function SelectedFolder(current: Option<nat>): (r: Option<string>)
      reads this
      requires current.Some? ==> current.value < |rows|
      ensures r.Some? <==> current.Some? && rows[current.value].FolderRow?
      ensures r.Some? ==> r.value == rows[current.value].path
    {
      if current.Some? && rows[current.value].FolderRow? then Some(rows[current.value].path) else None
    }
  }

  /** A connection and a folder are never selected at once. */
  lemma SelectionExclusive(view: ConnectionTreeView, current: Option<nat>)
    requires current.Some? ==> current.value < |view.rows|
    ensures !(view.SelectedConnection(current).Some? && view.SelectedFolder(current).Some?)
    ensures current.Some? ==> view.SelectedConnection(current).Some? || view.SelectedFolder(current).Some?
  {
  }

  // ---------------------------------------------------------------------
  // Loaded rows
  // ---------------------------------------------------------------------

  /** After loading, the rows carry exactly the connections that are in
      the list and whose folder path has no empty part. */
  lemma LoadedConnections(conns: seq<Connection>, c: Connection)
    ensures c in RowConnections(TreeRows(FolderMapOf(conns))) <==> c in conns && "" !in FolderParts(c.folder)
  {
    Shown(conns, c);
  }

  // ---------------------------------------------------------------------
  // The second pass visiting parents first
  // ---------------------------------------------------------------------

  /** A text cannot contain a longer one. */
  lemma {:induction false} LongerNotContained(s: string, sub: string)
    requires |s| < |sub|
    ensures !Contains(s, sub)
  {
    if |s| > 0 {
      LongerNotContained(s[1..], sub);
    }
  }

  const SampleConnection: Connection := Connection("web", "srv", "adm", 22, "", "a/b", "", [], [], "")

  /** Folder "a" holding only folder "a/b", which holds one connection. */
  const SampleRows: seq<Row> := [FolderRow(None, "a", "a"), FolderRow(Some(0), "b", "a/b"), ConnectionRow(Some(1), SampleConnection)]

  lemma SampleWellFormed()
    ensures WellFormed(SampleRows)
  {
    forall j | 0 <= j < |SampleRows|
      ensures ParentBefore(SampleRows, j, None, 0)
    {
    }
  }

  lemma SampleNoMatch()
    ensures !Matches("zzzz", SampleConnection)
  {
    LongerNotContained(Lower("web"), "zzzz");
    LongerNotContained(Lower("srv"), "zzzz");
    LongerNotContained(Lower("adm"), "zzzz");
    LongerNotContained(Lower("a/b"), "zzzz");
  }

  /** Searching "zzzz" on the sample rows, all shown: the first pass hides
      the connection and leaves both folders shown. */
  lemma SampleFirstPass()
    ensures WellFormed(SampleRows)
    ensures Pass1Result(SampleRows, "zzzz", [false, false, false]) == [false, false, true]
  {
    SampleWellFormed();
    SampleNoMatch();
    var rows := SampleRows;
    var r := Pass1Result(rows, "zzzz", [false, false, false]);
    assert r[2];
    assert !r[0] && !r[1];
  }

  /** The second pass as written then hides "a/b", whose one child is
      hidden, but leaves "a" shown, since it looks at "a/b" before hiding
      it: "a" ends shown with no child shown, which the rule for empty
      folders forbids. */
  lemma ParentFolderLeftShown()
    ensures AsWrittenResult(SampleRows, "zzzz", [false, false, true]) == [false, true, true]
    ensures !HasVisibleChild(SampleRows, [false, true, true], 0)
    ensures !EmptyFoldersHidden(SampleRows, "zzzz", [false, false, true], [false, true, true])
  {
    var rows := SampleRows;
    var h1 := [false, false, true];
    var h := [false, true, true];
    assert rows[1].parent == Some(0) && !h1[1];
    forall c | 0 <= c < |rows| && rows[c].parent == Some(0)
      ensures h[c]
    {
    }
    var r := AsWrittenResult(rows, "zzzz", h1);
    assert !r[0] && r[1] && r[2];
  }
}
