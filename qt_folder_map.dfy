/** The nested folder map the Qt tree view builds in `load_connections`,
    the items `_build_tree` makes of it, and those items in the pre-order
    a `QTreeWidgetItemIterator` walks them. */
module QtFolderMap {
  import opened Wrappers
  import opened Text
  import opened Sorting
  import opened Connection

  // ---------------------------------------------------------------------
  // The folder map
  // ---------------------------------------------------------------------

  /** A folder node `{'_folders': ..., '_connections': ..., '_path': ...}`. */
  datatype FolderNode = FolderNode(folders: map<string, FolderNode>, connections: seq<Connection>, path: string)

  /** The parts of a folder path: `split('/')`, and [""] for no folder. */
  function FolderParts(folderPath: string): (parts: seq<string>)
    ensures parts != []
  {
    if folderPath != "" then Split(folderPath, "/") else [""]
  }

  /** `current_path` at level `i`: the parts up to `i` joined by '/'. */
  function PrefixPath(parts: seq<string>, i: nat): (p: string)
    requires i < |parts|
    ensures p == Join(parts[..i + 1], "/")
  {
    if i > 0 then Join(parts[..i + 1], "/") else parts[i]
  }

  /** The inner loop of `load_connections` for one connection: a node for
      each level of `parts` from `i` on that has none (with the path of
      its prefix), and the connection appended at the last. */
  function Place(folders: map<string, FolderNode>, parts: seq<string>, i: nat, conn: Connection): map<string, FolderNode>
    requires i < |parts|
    decreases |parts| - i
  {
    var part := parts[i];
    var node := if part in folders then folders[part] else FolderNode(map[], [], PrefixPath(parts, i));
    if i == |parts| - 1 then folders[part := node.(connections := node.connections + [conn])]
    else folders[part := node.(folders := Place(node.folders, parts, i + 1, conn))]
  }

  /** The node reached by following `q`. */
  function Lookup(folders: map<string, FolderNode>, q: seq<string>): Option<FolderNode>
    requires q != []
    decreases |q|
  {
    if q[0] !in folders then None
    else if |q| == 1 then Some(folders[q[0]])
    else Lookup(folders[q[0]].folders, q[1..])
  }

  /** The connections stored at `q`, none when there is no node. */
  function ConnectionsAt(folders: map<string, FolderNode>, q: seq<string>): seq<Connection>
    requires q != []
  {
    match Lookup(folders, q) case None => [] case Some(n) => n.connections
  }

  /** What placing one connection does to every node: nodes appear along
      its parts (with the path of their prefix) and nowhere else, and
      existing paths stay. */
  lemma {:induction false} PlaceLookup(folders: map<string, FolderNode>, parts: seq<string>, i: nat, conn: Connection, q: seq<string>)
    requires i < |parts| && q != []
    ensures Lookup(Place(folders, parts, i, conn), q).Some? <==> Lookup(folders, q).Some? || q <= parts[i..]
    ensures Lookup(folders, q).Some? ==> Lookup(Place(folders, parts, i, conn), q).value.path == Lookup(folders, q).value.path
    ensures Lookup(folders, q).None? && q <= parts[i..] ==>
      Lookup(Place(folders, parts, i, conn), q).value.path == Join(parts[..i + |q|], "/")
    decreases |parts| - i
  {
    var part := parts[i];
    var node := if part in folders then folders[part] else FolderNode(map[], [], PrefixPath(parts, i));
    if q[0] != part {
      assert !(q <= parts[i..]) by {
        assert parts[i..][0] == part;
      }
    } else if i == |parts| - 1 {
      assert parts[i..] == [part];
      if |q| > 1 {
        assert !(q <= parts[i..]);
        if part !in folders {
          assert Lookup(node.folders, q[1..]) == None;
        }
      } else {
        assert q == [part];
      }
    } else {
      assert parts[i..] == [part] + parts[i + 1..];
      if |q| > 1 {
        PlaceLookup(node.folders, parts, i + 1, conn, q[1..]);
        assert q <= parts[i..] <==> q[1..] <= parts[i + 1..] by {
          assert q == [part] + q[1..];
        }
        assert i + |q| == i + 1 + |q[1..]|;
        if part !in folders {
          assert Lookup(node.folders, q[1..]) == None;
        }
      } else {
        assert q == [part] && q <= parts[i..] && q != parts[i..];
      }
    }
  }

  /** Placing one connection appends it at its own node and nowhere
      else. */
  lemma {:induction false} PlaceConnections(folders: map<string, FolderNode>, parts: seq<string>, i: nat, conn: Connection, q: seq<string>)
    requires i < |parts| && q != []
    ensures ConnectionsAt(Place(folders, parts, i, conn), q) ==
      ConnectionsAt(folders, q) + (if q == parts[i..] then [conn] else [])
    decreases |parts| - i
  {
    var part := parts[i];
    var node := if part in folders then folders[part] else FolderNode(map[], [], PrefixPath(parts, i));
    if q[0] != part {
      assert q != parts[i..] by {
        assert parts[i..][0] == part;
      }
    } else if i == |parts| - 1 {
      assert parts[i..] == [part];
      if |q| > 1 {
        assert q != parts[i..];
        if part !in folders {
          assert Lookup(node.folders, q[1..]) == None;
        }
      } else {
        assert q == [part];
      }
    } else {
      assert parts[i..] == [part] + parts[i + 1..];
      if |q| > 1 {
        PlaceConnections(node.folders, parts, i + 1, conn, q[1..]);
        assert q == parts[i..] <==> q[1..] == parts[i + 1..] by {
          assert q == [part] + q[1..];
        }
        if part !in folders {
          assert Lookup(node.folders, q[1..]) == None;
        }
      } else {
        assert q == [part] && q != parts[i..];
      }
    }
  }

  /** The connections of `conns` whose folder parts are `q`, in order. */
  function InFolder(conns: seq<Connection>, q: seq<string>): (r: seq<Connection>)
    ensures forall c :: c in r <==> c in conns && FolderParts(c.folder) == q
  {
    if conns == [] then []
    else
      var last := conns[|conns| - 1];
      assert conns == conns[..|conns| - 1] + [last];
      InFolder(conns[..|conns| - 1], q) + (if FolderParts(last.folder) == q then [last] else [])
  }

  /** `folder_map` after the outer loop over `conns`. */
  function FolderMapOf(conns: seq<Connection>): map<string, FolderNode>
  {
    if conns == [] then map[]
    else
      var last := conns[|conns| - 1];
      Place(FolderMapOf(conns[..|conns| - 1]), FolderParts(last.folder), 0, last)
  }

  /** Some connection's folder parts start with `q`. */
  ghost predicate SomeFolderUnder(conns: seq<Connection>, q: seq<string>)
  {
    exists k :: 0 <= k < |conns| && q <= FolderParts(conns[k].folder)
  }

  /** The folder map holds a node for exactly the prefixes of the
      connections' folder parts; each node's path is its prefix joined by
      '/'; and each node holds exactly the connections of that folder, in
      list order. */
  lemma FolderMapShape(conns: seq<Connection>, q: seq<string>)
    requires q != []
    ensures Lookup(FolderMapOf(conns), q).Some? <==> SomeFolderUnder(conns, q)
    ensures Lookup(FolderMapOf(conns), q).Some? ==> Lookup(FolderMapOf(conns), q).value.path == Join(q, "/")
    ensures ConnectionsAt(FolderMapOf(conns), q) == InFolder(conns, q)
  {
    FolderMapNodes(conns, q);
    FolderMapPaths(conns, q);
    FolderMapConnections(conns, q);
  }

  lemma {:induction false} FolderMapNodes(conns: seq<Connection>, q: seq<string>)
    requires q != []
    ensures Lookup(FolderMapOf(conns), q).Some? <==> SomeFolderUnder(conns, q)
  {
    if conns != [] {
      var init := conns[..|conns| - 1];
      var last := conns[|conns| - 1];
      var parts := FolderParts(last.folder);
      FolderMapNodes(init, q);
      PlaceLookup(FolderMapOf(init), parts, 0, last, q);
      assert parts[0..] == parts;
      SomeFolderUnderSnoc(conns, q);
    }
  }

  lemma {:induction false} FolderMapPaths(conns: seq<Connection>, q: seq<string>)
    requires q != []
    ensures Lookup(FolderMapOf(conns), q).Some? ==> Lookup(FolderMapOf(conns), q).value.path == Join(q, "/")
  {
    if conns != [] {
      var init := conns[..|conns| - 1];
      var last := conns[|conns| - 1];
      var parts := FolderParts(last.folder);
      var before := FolderMapOf(init);
      assert FolderMapOf(conns) == Place(before, parts, 0, last);
      FolderMapPaths(init, q);
      PlaceLookup(before, parts, 0, last, q);
      assert parts[0..] == parts;
      if Lookup(before, q).None? && q <= parts {
        assert parts[..0 + |q|] == q;
      }
    }
  }

  lemma {:induction false} FolderMapConnections(conns: seq<Connection>, q: seq<string>)
    requires q != []
    ensures ConnectionsAt(FolderMapOf(conns), q) == InFolder(conns, q)
  {
    if conns != [] {
      var init := conns[..|conns| - 1];
      var last := conns[|conns| - 1];
      var parts := FolderParts(last.folder);
      FolderMapConnections(init, q);
      PlaceConnections(FolderMapOf(init), parts, 0, last, q);
      assert parts[0..] == parts;
    }
  }

  lemma SomeFolderUnderSnoc(conns: seq<Connection>, q: seq<string>)
    requires conns != []
    ensures SomeFolderUnder(conns, q) <==>
      SomeFolderUnder(conns[..|conns| - 1], q) || q <= FolderParts(conns[|conns| - 1].folder)
  {
    SomeFolderUnderGrows(conns, q);
    SomeFolderUnderSplits(conns, q);
  }

  lemma SomeFolderUnderGrows(conns: seq<Connection>, q: seq<string>)
    requires conns != []
    ensures SomeFolderUnder(conns[..|conns| - 1], q) ==> SomeFolderUnder(conns, q)
    ensures q <= FolderParts(conns[|conns| - 1].folder) ==> SomeFolderUnder(conns, q)
  {
    var init := conns[..|conns| - 1];
    if SomeFolderUnder(init, q) {
      var k :| 0 <= k < |init| && q <= FolderParts(init[k].folder);
      assert conns[k] == init[k];
    }
  }

  lemma SomeFolderUnderSplits(conns: seq<Connection>, q: seq<string>)
    requires conns != []
    ensures SomeFolderUnder(conns, q) ==>
      SomeFolderUnder(conns[..|conns| - 1], q) || q <= FolderParts(conns[|conns| - 1].folder)
  {
    var init := conns[..|conns| - 1];
    if SomeFolderUnder(conns, q) {
      var k :| 0 <= k < |conns| && q <= FolderParts(conns[k].folder);
      if k < |init| {
        assert init[k] == conns[k];
        assert q <= FolderParts(init[k].folder);
        assert SomeFolderUnder(init, q);
      } else {
        assert k == |conns| - 1;
        assert q <= FolderParts(conns[|conns| - 1].folder);
      }
    }
  }

  /** Every connection can be found at its own folder. */
  lemma FolderMapHolds(conns: seq<Connection>, k: nat)
    requires k < |conns|
    ensures conns[k] in ConnectionsAt(FolderMapOf(conns), FolderParts(conns[k].folder))
  {
    FolderMapShape(conns, FolderParts(conns[k].folder));
  }

  /** The outer loop of `load_connections`: each connection placed in
      turn. */
  method BuildFolderMap(conns: seq<Connection>) returns (folderMap: map<string, FolderNode>)
    ensures folderMap == FolderMapOf(conns)
  {
    folderMap := map[];
    var i := 0;
    while i < |conns|
      invariant 0 <= i <= |conns|
      invariant folderMap == FolderMapOf(conns[..i])
    {
      assert conns[..i + 1][..i] == conns[..i];
      folderMap := Place(folderMap, FolderParts(conns[i].folder), 0, conns[i]);
      i := i + 1;
    }
    assert conns[..|conns|] == conns;
  }

  // ---------------------------------------------------------------------
  // Sorted names
  // ---------------------------------------------------------------------

  /** `k` is a name of `s` below all of them. */
  predicate Least(k: string, s: set<string>)
  {
    k in s && forall j :: j in s ==> StrLe(k, j)
  }

  lemma {:induction false} LeastExists(s: set<string>)
    requires s != {}
    ensures exists k :: Least(k, s)
    decreases |s|
  {
    var x :| x in s;
    if s == {x} {
      StrLeTotal(x, x);
      assert Least(x, s);
    } else {
      LeastExists(s - {x});
      var k :| Least(k, s - {x});
      StrLeTotal(k, x);
      if StrLe(k, x) {
        assert Least(k, s);
      } else {
        LeastAdded(s - {x}, k, x);
        assert s - {x} + {x} == s;
      }
    }
  }

  /** A name below the least of a set is the least once added. */
  lemma LeastAdded(s: set<string>, k: string, x: string)
    requires Least(k, s) && StrLe(x, k)
    ensures Least(x, s + {x})
  {
    forall j | j in s + {x}
      ensures StrLe(x, j)
    {
      if j != x {
        StrLeTransitive(x, k, j);
      } else {
        StrLeTotal(x, x);
      }
    }
  }

  /** Every name is below every later one, and differs from it. */
  ghost predicate StrictlySorted(s: seq<string>)
  {
    forall i, j :: 0 <= i < j < |s| ==> StrLe(s[i], s[j]) && s[i] != s[j]
  }

  /** `sorted()` of the names of a dictionary. */
  function SortedKeys(s: set<string>): (r: seq<string>)
    ensures forall x :: x in r <==> x in s
    ensures |r| == |s|
    ensures SortedBy(r, Identity)
    ensures StrictlySorted(r)
    decreases |s|
  {
    if s == {} then []
    else
      LeastExists(s);
      LeastUnique(s);
      var k :| Least(k, s);
      var t := SortedKeys(s - {k});
      SortedKeysCons(s, k, t);
      [k] + t
  }

  /** A set has at most one least name. */
  lemma LeastUnique(s: set<string>)
    ensures forall a, b :: Least(a, s) && Least(b, s) ==> a == b
  {
    forall a, b | Least(a, s) && Least(b, s)
      ensures a == b
    {
      StrLeAntisymmetric(a, b);
    }
  }

  /** The least name followed by the sorted rest is the sorted set. */
  lemma SortedKeysCons(s: set<string>, k: string, t: seq<string>)
    requires Least(k, s)
    requires forall x :: x in t <==> x in s - {k}
    requires |t| == |s - {k}| && SortedBy(t, Identity) && StrictlySorted(t)
    ensures forall x :: x in [k] + t <==> x in s
    ensures |[k] + t| == |s|
    ensures SortedBy([k] + t, Identity) && StrictlySorted([k] + t)
  {
    assert forall y :: y in t ==> StrLe(k, y) && k != y;
    StrictCons(k, t);
    StrictIsSorted([k] + t);
  }

  /** A strictly sorted list is sorted by its names. */
  lemma StrictIsSorted(r: seq<string>)
    requires StrictlySorted(r)
    ensures SortedBy(r, Identity)
  {
    forall i | 0 < i < |r| ensures StrLe(Identity(r[i - 1]), Identity(r[i])) {
      assert StrLe(r[i - 1], r[i]);
    }
  }

  // ---------------------------------------------------------------------
  // The items
  // ---------------------------------------------------------------------

  /** A `FolderTreeItem` with its children, or a `ConnectionTreeItem`. */
  datatype Item = FolderItem(name: string, path: string, children: seq<Item>) | ConnectionItem(conn: Connection)

  function ConnectionName(c: Connection): string
  {
    c.name
  }

  /** One `ConnectionTreeItem` per connection, in order. */
  function ConnectionItems(cs: seq<Connection>): (r: seq<Item>)
    ensures |r| == |cs| && forall i :: 0 <= i < |cs| ==> r[i] == ConnectionItem(cs[i])
  {
    if cs == [] then [] else [ConnectionItem(cs[0])] + ConnectionItems(cs[1..])
  }

  /** The item of one folder: its connections sorted by name, then its
      subfolders. */
  function FolderItemOf(node: FolderNode, name: string): (item: Item)
    ensures item.FolderItem? && item.name == name && item.path == node.path
    decreases node, 1
  {
    FolderItem(name, node.path,
      ConnectionItems(SortBy(node.connections, ConnectionName)) + BuildItems(node, SortedKeys(node.folders.Keys)))
  }

  /** `_build_tree`: the folders under `parent` in the order of `keys`,
      leaving out a folder named "" together with everything below it. */
  function BuildItems(parent: FolderNode, keys: seq<string>): (items: seq<Item>)
    requires forall k :: k in keys ==> k in parent.folders
    ensures forall i :: 0 <= i < |items| ==> items[i].FolderItem?
    decreases parent, 0, |keys|
  {
    if keys == [] then []
    else
      (if keys[0] == "" then [] else [FolderItemOf(parent.folders[keys[0]], keys[0])]) + BuildItems(parent, keys[1..])
  }

  /** The top level of the tree. */
  function BuildTree(folderMap: map<string, FolderNode>): seq<Item>
  {
    var root := FolderNode(folderMap, [], "");
    BuildItems(root, SortedKeys(folderMap.Keys))
  }

  /** Prepending a name below and different from all others keeps a list
      strictly sorted. */
  lemma StrictCons(x: string, t: seq<string>)
    requires StrictlySorted(t)
    requires forall y :: y in t ==> StrLe(x, y) && x != y
    ensures StrictlySorted([x] + t)
  {
    forall i, j | 0 <= i < j < |[x] + t|
      ensures StrLe(([x] + t)[i], ([x] + t)[j]) && ([x] + t)[i] != ([x] + t)[j]
    {
      assert ([x] + t)[j] == t[j - 1];
      if i > 0 {
        assert ([x] + t)[i] == t[i - 1];
      }
    }
  }

  /** The names other than "", in order. */
  function WithoutEmpty(keys: seq<string>): (r: seq<string>)
    ensures forall k :: k in r <==> k in keys && k != ""
  {
    if keys == [] then []
    else
      assert forall k :: k in keys <==> k == keys[0] || k in keys[1..] by {
        assert keys == [keys[0]] + keys[1..];
      }
      (if keys[0] == "" then [] else [keys[0]]) + WithoutEmpty(keys[1..])
  }

  lemma {:induction false} WithoutEmptyStrict(keys: seq<string>)
    requires StrictlySorted(keys)
    ensures StrictlySorted(WithoutEmpty(keys))
  {
    if keys != [] {
      var t := WithoutEmpty(keys[1..]);
      assert StrictlySorted(keys[1..]) by {
        forall i, j | 0 <= i < j < |keys[1..]|
          ensures StrLe(keys[1..][i], keys[1..][j]) && keys[1..][i] != keys[1..][j]
        {
          assert keys[1..][i] == keys[i + 1] && keys[1..][j] == keys[j + 1];
        }
      }
      WithoutEmptyStrict(keys[1..]);
      if keys[0] != "" {
        forall y | y in t
          ensures StrLe(keys[0], y) && keys[0] != y
        {
          var m :| 0 <= m < |keys[1..]| && keys[1..][m] == y;
          assert keys[m + 1] == y;
        }
        StrictCons(keys[0], t);
      } else {
        assert WithoutEmpty(keys) == t;
      }
    }
  }

  /** The names of the folder items. */
  function FolderNames(items: seq<Item>): (names: seq<string>)
    ensures |names| <= |items|
  {
    if items == [] then []
    else (if items[0].FolderItem? then [items[0].name] else []) + FolderNames(items[1..])
  }

  lemma {:induction false} FolderNamesAppend(a: seq<Item>, b: seq<Item>)
    ensures FolderNames(a + b) == FolderNames(a) + FolderNames(b)
  {
    if a != [] {
      assert (a + b)[1..] == a[1..] + b;
      FolderNamesAppend(a[1..], b);
    } else {
      assert a + b == b;
    }
  }

  /** The folder items made of `keys` are named by the keys other than
      "", in the same order. */
  lemma {:induction false} BuildItemsNames(parent: FolderNode, keys: seq<string>)
    requires forall k :: k in keys ==> k in parent.folders
    ensures FolderNames(BuildItems(parent, keys)) == WithoutEmpty(keys)
    decreases |keys|
  {
    if keys != [] {
      var head := if keys[0] == "" then [] else [FolderItemOf(parent.folders[keys[0]], keys[0])];
      BuildItemsNames(parent, keys[1..]);
      FolderNamesAppend(head, BuildItems(parent, keys[1..]));
    }
  }

  /** The children `_build_tree` gives a folder: first its connections,
      sorted by name, then one folder item for each subfolder other than
      "", in strictly increasing order of name. */
  lemma FolderItemLayout(node: FolderNode, name: string)
    ensures var ch := FolderItemOf(node, name).children;
      var n := |node.connections|;
      n <= |ch| &&
      (forall i :: 0 <= i < n ==> ch[i].ConnectionItem?) &&
      SortedBy(Connections(ch[..n]), ConnectionName) &&
      multiset(Connections(ch[..n])) == multiset(node.connections) &&
      (forall i :: n <= i < |ch| ==> ch[i].FolderItem?) &&
      StrictlySorted(FolderNames(ch[n..])) &&
      (forall k :: k in FolderNames(ch[n..]) <==> k in node.folders && k != "")
  {
    var ch := FolderItemOf(node, name).children;
    var n := |node.connections|;
    var sorted := SortBy(node.connections, ConnectionName);
    var keys := SortedKeys(node.folders.Keys);
    var sub := BuildItems(node, keys);
    ChildrenSplit(ch, sorted, sub);
    assert Connections(ch[..n]) == sorted by {
      ConnectionsOfConnectionItems(sorted);
    }
    assert FolderNames(ch[n..]) == WithoutEmpty(keys) by {
      BuildItemsNames(node, keys);
    }
    WithoutEmptyStrict(keys);
  }

  /** Connection items followed by folder items, split where they meet. */
  lemma ChildrenSplit(ch: seq<Item>, cs: seq<Connection>, sub: seq<Item>)
    requires ch == ConnectionItems(cs) + sub
    requires forall i :: 0 <= i < |sub| ==> sub[i].FolderItem?
    ensures |cs| <= |ch| && ch[..|cs|] == ConnectionItems(cs) && ch[|cs|..] == sub
    ensures forall i :: 0 <= i < |cs| ==> ch[i].ConnectionItem?
    ensures forall i :: |cs| <= i < |ch| ==> ch[i].FolderItem?
  {
    forall i | |cs| <= i < |ch| ensures ch[i].FolderItem? {
      assert ch[i] == sub[i - |cs|];
    }
  }

  /** The top level of the tree: one folder item for each top-level name
      other than "", in strictly increasing order. */
  lemma TopLevelLayout(folderMap: map<string, FolderNode>)
    ensures var items := BuildTree(folderMap);
      (forall i :: 0 <= i < |items| ==> items[i].FolderItem?) &&
      StrictlySorted(FolderNames(items)) &&
      (forall k :: k in FolderNames(items) <==> k in folderMap && k != "")
  {
    var keys := SortedKeys(folderMap.Keys);
    BuildItemsNames(FolderNode(folderMap, [], ""), keys);
    WithoutEmptyStrict(keys);
  }

  /** The connections of the items, in pre-order. */
  function Connections(items: seq<Item>): seq<Connection>
    decreases items, 1
  {
    if items == [] then [] else ItemConnections(items[0]) + Connections(items[1..])
  }

  function ItemConnections(item: Item): seq<Connection>
    decreases item, 0
  {
    match item
    case ConnectionItem(c) => [c]
    case FolderItem(_, _, children) => Connections(children)
  }

  lemma {:induction false} ConnectionsAppend(a: seq<Item>, b: seq<Item>)
    ensures Connections(a + b) == Connections(a) + Connections(b)
  {
    if a != [] {
      assert (a + b)[1..] == a[1..] + b;
      ConnectionsAppend(a[1..], b);
    } else {
      assert a + b == b;
    }
  }

  lemma {:induction false} ConnectionsOfConnectionItems(cs: seq<Connection>)
    ensures Connections(ConnectionItems(cs)) == cs
  {
    if cs != [] {
      ConnectionsOfConnectionItems(cs[1..]);
      assert ConnectionItems(cs)[1..] == ConnectionItems(cs[1..]);
    }
  }

  /** A connection lies in a folder below `node` whose name, and the names
      of the folders above it, are not "". */
  ghost predicate ShownBelow(node: FolderNode, c: Connection)
    decreases node
  {
    exists k :: k in node.folders && k != "" &&
      (c in node.folders[k].connections || ShownBelow(node.folders[k], c))
  }

  /** Some folder of `keys` not named "" holds `c` or shows it below. */
  ghost predicate ShownIn(parent: FolderNode, keys: seq<string>, c: Connection)
    requires forall k :: k in keys ==> k in parent.folders
  {
    exists k :: k in keys && k != "" && (c in parent.folders[k].connections || ShownBelow(parent.folders[k], c))
  }

  lemma ShownInCons(parent: FolderNode, keys: seq<string>, c: Connection)
    requires keys != [] && forall k :: k in keys ==> k in parent.folders
    ensures ShownIn(parent, keys, c) <==>
      (keys[0] != "" && (c in parent.folders[keys[0]].connections || ShownBelow(parent.folders[keys[0]], c)))
      || ShownIn(parent, keys[1..], c)
  {
    var k0 := keys[0];
    assert keys == [k0] + keys[1..];
    if ShownIn(parent, keys, c) {
      var k :| k in keys && k != "" && (c in parent.folders[k].connections || ShownBelow(parent.folders[k], c));
      if k != k0 {
        assert k in keys[1..];
      }
    }
    if ShownIn(parent, keys[1..], c) {
      var k :| k in keys[1..] && k != "" && (c in parent.folders[k].connections || ShownBelow(parent.folders[k], c));
      assert k in keys;
    }
  }

  /** The folders `keys` of `parent`, as items, show exactly the
      connections of those not named "" and of their shown subfolders. */
  lemma {:induction false} BuildItemsConnections(parent: FolderNode, keys: seq<string>, c: Connection)
    requires forall k :: k in keys ==> k in parent.folders
    ensures c in Connections(BuildItems(parent, keys)) <==>
      exists k :: k in keys && k != "" && (c in parent.folders[k].connections || ShownBelow(parent.folders[k], c))
    decreases parent, |keys|
  {
    if keys != [] {
      var k := keys[0];
      var head := if k == "" then [] else [FolderItemOf(parent.folders[k], k)];
      assert BuildItems(parent, keys) == head + BuildItems(parent, keys[1..]);
      ConnectionsAppend(head, BuildItems(parent, keys[1..]));
      BuildItemsConnections(parent, keys[1..], c);
      HeadShows(parent, k, c);
      ShownInCons(parent, keys, c);
      assert c in Connections(BuildItems(parent, keys)) <==> ShownIn(parent, keys, c);
    }
  }

  /** The item of one folder of `parent` shows what that folder holds or
      shows below, and nothing for a folder named "". */
  lemma {:induction false} HeadShows(parent: FolderNode, k: string, c: Connection)
    requires k in parent.folders
    ensures c in Connections(if k == "" then [] else [FolderItemOf(parent.folders[k], k)]) <==>
      k != "" && (c in parent.folders[k].connections || ShownBelow(parent.folders[k], c))
    decreases parent, 0
  {
    if k != "" {
      var node := parent.folders[k];
      FolderItemConnections(node, k, c);
      BuildItemsConnections(node, SortedKeys(node.folders.Keys), c);
    } else {
      assert Connections([]) == [];
    }
  }

  /** A folder item shows its own connections and those of its
      subfolders' items. */
  lemma FolderItemConnections(node: FolderNode, name: string, c: Connection)
    ensures c in Connections([FolderItemOf(node, name)]) <==>
      c in node.connections || c in Connections(BuildItems(node, SortedKeys(node.folders.Keys)))
  {
    var sorted := SortBy(node.connections, ConnectionName);
    var sub := BuildItems(node, SortedKeys(node.folders.Keys));
    assert Connections([FolderItemOf(node, name)]) == Connections(ConnectionItems(sorted) + sub) + Connections([]);
    ConnectionsAppend(ConnectionItems(sorted), sub);
    ConnectionsOfConnectionItems(sorted);
    assert c in sorted <==> c in node.connections by {
      assert c in sorted <==> c in multiset(sorted);
      assert c in node.connections <==> c in multiset(node.connections);
    }
  }

  lemma ShownBelowTop(folderMap: map<string, FolderNode>, c: Connection)
    ensures c in Connections(BuildTree(folderMap)) <==> ShownBelow(FolderNode(folderMap, [], ""), c)
  {
    BuildItemsConnections(FolderNode(folderMap, [], ""), SortedKeys(folderMap.Keys), c);
  }

  /** Shown below a node means: stored at some path none of whose names is
      "". */
  lemma {:induction false} ShownBelowAt(node: FolderNode, c: Connection)
    ensures ShownBelow(node, c) <==> exists q :: q != [] && "" !in q && c in ConnectionsAt(node.folders, q)
    decreases node
  {
    if ShownBelow(node, c) {
      var k :| k in node.folders && k != "" && (c in node.folders[k].connections || ShownBelow(node.folders[k], c));
      if c in node.folders[k].connections {
        assert c in ConnectionsAt(node.folders, [k]);
      } else {
        ShownBelowAt(node.folders[k], c);
        var q :| q != [] && "" !in q && c in ConnectionsAt(node.folders[k].folders, q);
        assert ([k] + q)[1..] == q;
        assert c in ConnectionsAt(node.folders, [k] + q);
      }
    }
    if exists q :: q != [] && "" !in q && c in ConnectionsAt(node.folders, q) {
      var q :| q != [] && "" !in q && c in ConnectionsAt(node.folders, q);
      var k := q[0];
      assert k in node.folders && k != "";
      if |q| > 1 {
        ShownBelowAt(node.folders[k], c);
        assert "" !in q[1..] && c in ConnectionsAt(node.folders[k].folders, q[1..]);
      }
    }
  }

  /** `load_connections` shows a connection exactly when it is one of those
      loaded and no part of its folder path is "": a connection at the top
      level, or under an empty segment ("a//b", "/a", "a/"), is not shown. */
  lemma Shown(conns: seq<Connection>, c: Connection)
    ensures c in Connections(BuildTree(FolderMapOf(conns))) <==> c in conns && "" !in FolderParts(c.folder)
  {
    var m := FolderMapOf(conns);
    ShownBelowTop(m, c);
    ShownBelowAt(FolderNode(m, [], ""), c);
    if c in conns && "" !in FolderParts(c.folder) {
      FolderMapShape(conns, FolderParts(c.folder));
    }
    if exists q :: q != [] && "" !in q && c in ConnectionsAt(m, q) {
      var q :| q != [] && "" !in q && c in ConnectionsAt(m, q);
      FolderMapShape(conns, q);
    }
  }

  // ---------------------------------------------------------------------
  // Pre-order rows
  // ---------------------------------------------------------------------

  /** An item as the iterator meets it, with the index of its parent. */
  datatype Row = FolderRow(parent: Option<nat>, name: string, path: string) | ConnectionRow(parent: Option<nat>, conn: Connection)

  /** Row `j` of `rows` (which start at index `offset`) has either the
      given parent or a folder row before it as parent. */
  ghost predicate ParentBefore(rows: seq<Row>, j: nat, parent: Option<nat>, offset: nat)
    requires j < |rows|
  {
    rows[j].parent == parent ||
      (rows[j].parent.Some? && offset <= rows[j].parent.value < offset + j &&
       rows[rows[j].parent.value - offset].FolderRow?)
  }

  /** The items in pre-order, numbered from `offset`, the top ones under
      `parent`. */
  function Flatten(items: seq<Item>, parent: Option<nat>, offset: nat): (rows: seq<Row>)
    ensures forall j {:trigger ParentBefore(rows, j, parent, offset)} :: 0 <= j < |rows| ==> ParentBefore(rows, j, parent, offset)
    decreases items, 1
  {
    if items == [] then []
    else
      var head := FlattenItem(items[0], parent, offset);
      var tail := Flatten(items[1..], parent, offset + |head|);
      var rows := head + tail;
      assert forall j :: 0 <= j < |rows| ==> ParentBefore(rows, j, parent, offset) by {
        forall j | 0 <= j < |rows|
          ensures ParentBefore(rows, j, parent, offset)
        {
          if j < |head| {
            assert ParentBefore(head, j, parent, offset);
          } else {
            assert ParentBefore(tail, j - |head|, parent, offset + |head|);
          }
        }
      }
      rows
  }

  function FlattenItem(item: Item, parent: Option<nat>, offset: nat): (rows: seq<Row>)
    ensures rows != []
    ensures forall j {:trigger ParentBefore(rows, j, parent, offset)} :: 0 <= j < |rows| ==> ParentBefore(rows, j, parent, offset)
    decreases item, 0
  {
    match item
    case ConnectionItem(c) => [ConnectionRow(parent, c)]
    case FolderItem(name, path, children) =>
      var sub := Flatten(children, Some(offset), offset + 1);
      var rows := [FolderRow(parent, name, path)] + sub;
      assert forall j :: 0 <= j < |rows| ==> ParentBefore(rows, j, parent, offset) by {
        forall j | 0 < j < |rows|
          ensures ParentBefore(rows, j, parent, offset)
        {
          assert ParentBefore(sub, j - 1, Some(offset), offset + 1);
        }
      }
      rows
  }

  /** Every parent comes before its child and is a folder row. */
  ghost predicate WellFormed(rows: seq<Row>)
  {
    forall j {:trigger ParentBefore(rows, j, None, 0)} :: 0 <= j < |rows| ==> ParentBefore(rows, j, None, 0)
  }

  /** The connections of the connection rows, in order. */
  function RowConnections(rows: seq<Row>): seq<Connection>
  {
    if rows == [] then []
    else (if rows[0].ConnectionRow? then [rows[0].conn] else []) + RowConnections(rows[1..])
  }

  lemma {:induction false} RowConnectionsAppend(a: seq<Row>, b: seq<Row>)
    ensures RowConnections(a + b) == RowConnections(a) + RowConnections(b)
  {
    if a != [] {
      assert (a + b)[1..] == a[1..] + b;
      RowConnectionsAppend(a[1..], b);
    } else {
      assert a + b == b;
    }
  }

  /** The rows carry the items' connections, in the same order. */
  lemma {:induction false} FlattenConnections(items: seq<Item>, parent: Option<nat>, offset: nat)
    ensures RowConnections(Flatten(items, parent, offset)) == Connections(items)
    decreases items, 1
  {
    if items != [] {
      var head := FlattenItem(items[0], parent, offset);
      FlattenItemConnections(items[0], parent, offset);
      FlattenConnections(items[1..], parent, offset + |head|);
      RowConnectionsAppend(head, Flatten(items[1..], parent, offset + |head|));
    }
  }

  lemma {:induction false} FlattenItemConnections(item: Item, parent: Option<nat>, offset: nat)
    ensures RowConnections(FlattenItem(item, parent, offset)) == ItemConnections(item)
    decreases item, 0
  {
    match item
    case ConnectionItem(c) =>
      assert RowConnections(FlattenItem(item, parent, offset)) == [c] + RowConnections([]);
    case FolderItem(name, path, children) =>
      var sub := Flatten(children, Some(offset), offset + 1);
      FlattenConnections(children, Some(offset), offset + 1);
      RowConnectionsAppend([FolderRow(parent, name, path)], sub);
      assert RowConnections([FolderRow(parent, name, path)]) == [] + RowConnections([]);
  }

  /** The rows of the whole tree. */
  function TreeRows(folderMap: map<string, FolderNode>): (rows: seq<Row>)
    ensures WellFormed(rows)
    ensures RowConnections(rows) == Connections(BuildTree(folderMap))
  {
    FlattenConnections(BuildTree(folderMap), None, 0);
    Flatten(BuildTree(folderMap), None, 0)
  }
}
