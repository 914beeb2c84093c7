/** The tree view of the Tk front end: one group item per group path
    prefix, the connections under the deepest one, and the dictionary
    `connections_data` from item id to what the item stands for. Tk's item
    ids are modelled as numbers handed out in insertion order. */
module TkConnectionTree {
  import opened Wrappers
  import opened Text
  import opened Sorting
  import SshManager

  type Entry = SshManager.Entry

  // ---------------------------------------------------------------------
  // Group icons
  // ---------------------------------------------------------------------

  const GroupIcons: map<string, string> := map[
    "work" := "🏢", "personal" := "🏠", "projects" := "📁",
    "development" := "💻", "dev" := "💻",
    "production" := "🚀", "prod" := "🚀",
    "staging" := "🧪", "test" := "🧪", "testing" := "🧪",
    "servers" := "🖥️", "databases" := "🗃️",
    "cloud" := "☁️", "aws" := "☁️", "azure" := "☁️", "gcp" := "☁️"]

  const DefaultGroupIcon: string := "📂"

  /** `get_group_icon`: the icon of the lower-cased name, the open folder
      for any name the table does not know. */
  function GetGroupIcon(groupName: string): (icon: string)
    ensures icon == DefaultGroupIcon <==> Lower(groupName) !in GroupIcons
    ensures Lower(groupName) in GroupIcons ==> icon == GroupIcons[Lower(groupName)]
  {
    if Lower(groupName) in GroupIcons then GroupIcons[Lower(groupName)] else DefaultGroupIcon
  }

  /** Lower-casing twice changes nothing more. */
  lemma {:induction false} LowerLower(s: string)
    ensures Lower(Lower(s)) == Lower(s)
  {
    if s != [] {
      LowerLower(s[1..]);
    }
  }

  /** The icon does not depend on the case of the name. */
  lemma GroupIconIgnoresCase(groupName: string)
    ensures GetGroupIcon(Lower(groupName)) == GetGroupIcon(groupName)
  {
    LowerLower(groupName);
  }

  // ---------------------------------------------------------------------
  // Group paths
  // ---------------------------------------------------------------------

  /** One step of `current_path` in `add_group_to_tree`: the part is
      appended after a '/' unless the path so far is empty. */
  function NextPath(current: string, part: string): string
  {
    if current != "" then current + "/" + part else part
  }

  /** `current_path` after the given parts. */
  function PathAfter(parts: seq<string>): string
  {
    if parts == [] then "" else NextPath(PathAfter(parts[..|parts| - 1]), parts[|parts| - 1])
  }

  /** With no empty part, the path is the parts joined by '/'. */
  lemma {:induction false} PathAfterJoin(parts: seq<string>)
    requires forall i :: 0 <= i < |parts| ==> parts[i] != ""
    ensures PathAfter(parts) == Join(parts, "/")
  {
    if |parts| > 1 {
      var init := parts[..|parts| - 1];
      PathAfterJoin(init);
      JoinSnoc(init, "/", parts[|parts| - 1]);
      JoinHead(init, "/");
      assert init + [parts[|parts| - 1]] == parts;
    }
  }

  /** A group path whose segments are all non-empty gets a deepest item
      whose path is the group path itself. */
  lemma DeepestPath(groupPath: string)
    requires forall i :: 0 <= i < |Split(groupPath, "/")| ==> Split(groupPath, "/")[i] != ""
    ensures PathAfter(Split(groupPath, "/")) == groupPath
  {
    PathAfterJoin(Split(groupPath, "/"));
    JoinSplit(groupPath, '/');
  }

  /** A leading '/' is lost: "/x" ends at the item of "x". */
  lemma LeadingSlashLost()
    ensures PathAfter(Split("/x", "/")) == PathAfter(Split("x", "/")) == "x"
  {
    LacksNotContains("x", "/");
    assert "/x" == "/" + "x";
    SplitKeyword("/", "x");
    SplitNoSep("x", "/");
  }

  // ---------------------------------------------------------------------
  // Grouping
  // ---------------------------------------------------------------------

  function EntryName(e: Entry): string
  {
    e.name
  }

  /** The `groups` dictionary of `load_connections`: each group path with
      its connections in list order. */
  function GroupsOf(conns: seq<Entry>): (g: map<string, seq<Entry>>)
    ensures forall k, i :: k in g && 0 <= i < |g[k]| ==> g[k][i].group == k
  {
    if conns == [] then map[]
    else
      var g := GroupsOf(conns[..|conns| - 1]);
      var c := conns[|conns| - 1];
      g[c.group := (if c.group in g then g[c.group] else []) + [c]]
  }

  /** The keys of `groups`, in the order they were first met. */
  function GroupKeys(conns: seq<Entry>): (ks: seq<string>)
    ensures forall k :: k in ks <==> k in GroupsOf(conns)
    ensures forall i, j :: 0 <= i < j < |ks| ==> ks[i] != ks[j]
  {
    if conns == [] then []
    else
      var ks := GroupKeys(conns[..|conns| - 1]);
      var c := conns[|conns| - 1];
      if c.group in GroupsOf(conns[..|conns| - 1]) then ks else ks + [c.group]
  }

  /** The connections of one group; none for a path with no group. */
  function GroupOf(groups: map<string, seq<Entry>>, key: string): seq<Entry>
  {
    if key in groups then groups[key] else []
  }

  /** The connections in the order they are inserted: group by group, each
      group's connections sorted by name. */
  function Listed(keys: seq<string>, groups: map<string, seq<Entry>>): seq<Entry>
  {
    if keys == [] then []
    else Listed(keys[..|keys| - 1], groups) + SortBy(GroupOf(groups, keys[|keys| - 1]), EntryName)
  }

  /** The connections of the given groups, as a bag. */
  ghost function Bag(keys: seq<string>, groups: map<string, seq<Entry>>): multiset<Entry>
  {
    if keys == [] then multiset{}
    else Bag(keys[..|keys| - 1], groups) + multiset(GroupOf(groups, keys[|keys| - 1]))
  }

  /** What `load_connections` shows, in tree order. */
  function Expected(conns: seq<Entry>): seq<Entry>
  {
    var keys := Sort(GroupKeys(conns));
    Listed(keys, GroupsOf(conns))
  }

  lemma {:induction false} ListedBag(keys: seq<string>, groups: map<string, seq<Entry>>)
    ensures multiset(Listed(keys, groups)) == Bag(keys, groups)
  {
    if keys != [] {
      ListedBag(keys[..|keys| - 1], groups);
    }
  }

  lemma {:induction false} BagAppend(a: seq<string>, b: seq<string>, groups: map<string, seq<Entry>>)
    ensures Bag(a + b, groups) == Bag(a, groups) + Bag(b, groups)
  {
    if b != [] {
      assert (a + b)[..|a + b| - 1] == a + b[..|b| - 1];
      BagAppend(a, b[..|b| - 1], groups);
    } else {
      assert a + b == a;
    }
  }

  /** The bag does not depend on the order of the groups. */
  lemma {:induction false} BagPermutation(a: seq<string>, b: seq<string>, groups: map<string, seq<Entry>>)
    requires multiset(a) == multiset(b)
    ensures Bag(a, groups) == Bag(b, groups)
    decreases |a|
  {
    if a != [] {
      var x := a[|a| - 1];
      var init := a[..|a| - 1];
      assert x in multiset(b) by {
        assert a == init + [x];
      }
      var k :| 0 <= k < |b| && b[k] == x;
      var rest := b[..k] + b[k + 1..];
      assert multiset(init) == multiset(rest) by {
        assert a == init + [x];
        assert multiset(init) == multiset(a) - multiset{x};
        assert b == b[..k] + [x] + b[k + 1..];
        assert multiset(rest) == multiset(b) - multiset{x};
      }
      BagPermutation(init, rest, groups);
      BagRemove(b, k, groups);
    } else {
      assert |b| == |multiset(b)| == |multiset(a)| == 0;
    }
  }

  /** Taking one group out of the list takes its connections out of the
      bag. */
  lemma BagRemove(b: seq<string>, k: nat, groups: map<string, seq<Entry>>)
    requires k < |b|
    ensures Bag(b, groups) == Bag(b[..k] + b[k + 1..], groups) + multiset(GroupOf(groups, b[k]))
  {
    var pre, post := b[..k], b[k + 1..];
    assert b == pre + [b[k]] + post;
    BagAppend(pre + [b[k]], post, groups);
    BagAppend(pre, [b[k]], groups);
    BagAppend(pre, post, groups);
    assert Bag([b[k]], groups) == multiset(GroupOf(groups, b[k])) by {
      assert [b[k]][..0] == [];
    }
  }

  /** A group that is not listed does not count. */
  lemma {:induction false} BagOutside(keys: seq<string>, groups: map<string, seq<Entry>>, g: string, v: seq<Entry>)
    requires g !in keys
    ensures Bag(keys, groups[g := v]) == Bag(keys, groups)
  {
    if keys != [] {
      BagOutside(keys[..|keys| - 1], groups, g, v);
    }
  }

  /** Appending to a group listed once adds the connection once. */
  lemma {:induction false} BagAppendTo(keys: seq<string>, groups: map<string, seq<Entry>>, g: string, c: Entry)
    requires forall i, j :: 0 <= i < j < |keys| ==> keys[i] != keys[j]
    requires g in keys && g in groups
    ensures Bag(keys, groups[g := groups[g] + [c]]) == Bag(keys, groups) + multiset{c}
  {
    var init := keys[..|keys| - 1];
    if keys[|keys| - 1] == g {
      assert g !in init;
      BagOutside(init, groups, g, groups[g] + [c]);
    } else {
      BagAppendTo(init, groups, g, c);
    }
  }

  lemma MultisetSnoc<T>(s: seq<T>)
    requires s != []
    ensures multiset(s) == multiset(s[..|s| - 1]) + multiset{s[|s| - 1]}
  {
    assert s == s[..|s| - 1] + [s[|s| - 1]];
  }

  /** Grouping loses and adds nothing. */
  lemma {:induction false} GroupsBag(conns: seq<Entry>)
    ensures Bag(GroupKeys(conns), GroupsOf(conns)) == multiset(conns)
  {
    if conns != [] {
      var init := conns[..|conns| - 1];
      var c := conns[|conns| - 1];
      var g := GroupsOf(init);
      var ks := GroupKeys(init);
      MultisetSnoc(conns);
      GroupsBag(init);
      if c.group in g {
        assert GroupsOf(conns) == g[c.group := g[c.group] + [c]];
        assert GroupKeys(conns) == ks;
        BagAppendTo(ks, g, c.group, c);
      } else {
        assert GroupsOf(conns) == g[c.group := [c]] by {
          assert [] + [c] == [c];
        }
        assert GroupKeys(conns) == ks + [c.group];
        BagOutside(ks, g, c.group, [c]);
        assert (ks + [c.group])[..|ks|] == ks;
      }
    }
  }

  /** Every connection is shown exactly as often as it is listed. */
  lemma ExpectedPermutation(conns: seq<Entry>)
    ensures multiset(Expected(conns)) == multiset(conns)
  {
    var keys := GroupKeys(conns);
    var groups := GroupsOf(conns);
    ListedBag(Sort(keys), groups);
    BagPermutation(keys, Sort(keys), groups);
    GroupsBag(conns);
  }

  // ---------------------------------------------------------------------
  // The view
  // ---------------------------------------------------------------------

  /** What `connections_data` records for an item: `{'type': 'group', 'name',
      'path'}` or `{'type': 'connection', **connection}`. */
  datatype ItemData = Group(name: string, path: string) | Connection(entry: Entry)

  /** A Treeview item together with its record in `connections_data`: its
      parent (None for the root), its text and what it stands for. The
      source fills the widget and the dictionary in step, so they are one
      map here. */
  datatype Node = Node(parent: Option<nat>, text: string, data: ItemData)

  /** What `add_group_to_tree` and `add_connection_to_tree` keep true of
      one item: its parent is a
      group item, a connection has a parent, and a group's path extends its
      parent's by its name. */
  ghost predicate ItemOk(nodes: map<nat, Node>, id: nat)
    requires id in nodes
  {
    var n := nodes[id];
    && (n.parent.Some? ==> n.parent.value in nodes && nodes[n.parent.value].data.Group?)
    && (n.data.Connection? ==> n.parent.Some?)
    && (n.data.Group? ==> n.data.path == NextPath(ParentPath(nodes, n.parent), n.data.name))
  }

  /** Every id is below the next one to hand out, every item is well
      placed and no two group items share a path, so
      `find_group_item` has at most one answer. The trigger keeps the
      solver from walking up the parent chain on its own. */
  ghost predicate Tree(nodes: map<nat, Node>, nextId: nat)
  {
    && (forall id :: id in nodes ==> id < nextId)
    && (forall id {:trigger ItemOk(nodes, id)} :: id in nodes ==> ItemOk(nodes, id))
    && (forall i, j :: i in nodes && j in nodes && nodes[i].data.Group? && nodes[j].data.Group? ==>
          (nodes[i].data.path == nodes[j].data.path ==> i == j))
  }

  /** The path of a parent item, "" at the root. */
  function ParentPath(nodes: map<nat, Node>, parent: Option<nat>): string
  {
    if parent.Some? && parent.value in nodes && nodes[parent.value].data.Group? then
      nodes[parent.value].data.path
    else ""
  }

  /** A connection item hangs under the group item of its group path. */
  ghost predicate ItemPlaced(nodes: map<nat, Node>, id: nat)
    requires id in nodes
  {
    nodes[id].data.Connection? ==>
      ParentPath(nodes, nodes[id].parent) == PathAfter(Split(nodes[id].data.entry.group, "/"))
  }

  /** Each connection item hangs under the group item of its group path. */
  ghost predicate PlacedIn(nodes: map<nat, Node>)
  {
    forall id {:trigger ItemPlaced(nodes, id)} :: id in nodes ==> ItemPlaced(nodes, id)
  }

  /** The items of `before` are still there, unchanged; new ones have ids
      from `from` on. */
  ghost predicate Extends(before: map<nat, Node>, after: map<nat, Node>, from: nat)
  {
    && (forall id :: id in before ==> id in after && after[id] == before[id])
    && (forall id :: id in after && id !in before ==> from <= id)
  }

  /** Adding an item under an existing id-free slot changes no parent path
      of the items already there. */
  lemma ParentPathKept(nodes: map<nat, Node>, nextId: nat, added: Node, id: nat)
    requires Tree(nodes, nextId) && id in nodes
    ensures ParentPath(nodes[nextId := added], nodes[id].parent) == ParentPath(nodes, nodes[id].parent)
  {
    assert ItemOk(nodes, id);
    var p := nodes[id].parent;
    if p.Some? {
      assert ItemOk(nodes, p.value);
    }
  }

  /** A new group item under a group (or at the root), with a path no group
      has yet, keeps the shape; connections keep their places. */
  lemma InsertGroupKeeps(nodes: map<nat, Node>, nextId: nat, parent: Option<nat>, text: string, name: string, path: string)
    requires Tree(nodes, nextId)
    requires parent.Some? ==> parent.value in nodes && nodes[parent.value].data.Group?
    requires path == NextPath(ParentPath(nodes, parent), name)
    requires forall id :: id in nodes && nodes[id].data.Group? ==> nodes[id].data.path != path
    ensures Tree(nodes[nextId := Node(parent, text, Group(name, path))], nextId + 1)
    ensures PlacedIn(nodes) ==> PlacedIn(nodes[nextId := Node(parent, text, Group(name, path))])
  {
    var added := Node(parent, text, Group(name, path));
    var after := nodes[nextId := added];
    if parent.Some? {
      assert ItemOk(nodes, parent.value);
    }
    forall id | id in after
      ensures ItemOk(after, id)
    {
      if id != nextId {
        assert ItemOk(nodes, id);
        ParentPathKept(nodes, nextId, added, id);
      }
    }
    if PlacedIn(nodes) {
      forall id | id in after
        ensures ItemPlaced(after, id)
      {
        if id != nextId {
          assert ItemPlaced(nodes, id);
          ParentPathKept(nodes, nextId, added, id);
        }
      }
    }
  }

  /** A new connection item under a group keeps the shape, and keeps every
      connection in its place when the group is the connection's own. */
  lemma InsertConnectionKeeps(nodes: map<nat, Node>, nextId: nat, parent: nat, text: string, c: Entry)
    requires Tree(nodes, nextId)
    requires parent in nodes && nodes[parent].data.Group?
    ensures Tree(nodes[nextId := Node(Some(parent), text, Connection(c))], nextId + 1)
    ensures PlacedIn(nodes) && nodes[parent].data.path == PathAfter(Split(c.group, "/")) ==>
      PlacedIn(nodes[nextId := Node(Some(parent), text, Connection(c))])
  {
    var added := Node(Some(parent), text, Connection(c));
    var after := nodes[nextId := added];
    assert ItemOk(nodes, parent);
    forall id | id in after
      ensures ItemOk(after, id)
    {
      if id != nextId {
        assert ItemOk(nodes, id);
        ParentPathKept(nodes, nextId, added, id);
      }
    }
    if PlacedIn(nodes) && nodes[parent].data.path == PathAfter(Split(c.group, "/")) {
      forall id | id in after
        ensures ItemPlaced(after, id)
      {
        if id != nextId {
          assert ItemPlaced(nodes, id);
          ParentPathKept(nodes, nextId, added, id);
        }
      }
    }
  }

  lemma ListedSnoc(keys: seq<string>, j: nat, groups: map<string, seq<Entry>>)
    requires j < |keys| && keys[j] in groups
    ensures Listed(keys[..j + 1], groups) == Listed(keys[..j], groups) + SortBy(groups[keys[j]], EntryName)
  {
    assert keys[..j + 1][..j] == keys[..j];
  }

  /** A group's connections, in any order, all carry the group's path. */
  lemma MembersOfGroup(groups: map<string, seq<Entry>>, key: string, members: seq<Entry>)
    requires key in groups
    requires forall i :: 0 <= i < |groups[key]| ==> groups[key][i].group == key
    requires multiset(members) == multiset(groups[key])
    ensures forall k :: 0 <= k < |members| ==> members[k].group == key
  {
    forall k | 0 <= k < |members|
      ensures members[k].group == key
    {
      assert members[k] in multiset(groups[key]);
    }
  }

  /** The items `ids` stand for the connections of `list`, one by one. */
  ghost predicate Shows(nodes: map<nat, Node>, ids: seq<nat>, list: seq<Entry>)
  {
    |ids| == |list| && forall k :: 0 <= k < |ids| ==> ids[k] in nodes && nodes[ids[k]].data == Connection(list[k])
  }

  /** The ids were handed out in this order. */
  ghost predicate Increasing(ids: seq<nat>)
  {
    forall k, l :: 0 <= k < l < |ids| ==> ids[k] < ids[l]
  }

  ghost predicate Below(ids: seq<nat>, bound: nat)
  {
    forall k :: 0 <= k < |ids| ==> ids[k] < bound
  }

  /** One more connection item, with the next id, extends what was
      shown. */
  lemma AddStep(n0: map<nat, Node>, n1: map<nat, Node>, ids: seq<nat>, list: seq<Entry>, id: nat, c: Entry)
    requires Shows(n0, ids, list) && Increasing(ids) && Below(ids, id)
    requires id !in n0 && n1.Keys == n0.Keys + {id} && n1[id].data == Connection(c)
    requires forall x :: x in n0 ==> n1[x] == n0[x]
    ensures Shows(n1, ids + [id], list + [c]) && Increasing(ids + [id]) && Below(ids + [id], id + 1)
  {
  }

  /** Every item has an id from `start` on, and `ids` are all the
      connection items, showing `list`. */
  ghost predicate LoadedSince(start: nat, nodes: map<nat, Node>, nextId: nat, ids: seq<nat>, list: seq<Entry>)
  {
    && start <= nextId && (forall id :: id in nodes ==> start <= id)
    && Shows(nodes, ids, list) && Increasing(ids) && Below(ids, nextId)
    && (forall id :: id in nodes && nodes[id].data.Connection? ==> id in ids)
  }

  /** Only group items were added since the tree was `start` with
      `startNext` the next id. */
  ghost predicate GrownByGroups(start: map<nat, Node>, startNext: nat, nodes: map<nat, Node>, nextId: nat)
  {
    && startNext <= nextId && Extends(start, nodes, startNext)
    && (forall id :: id in nodes && id !in start ==> nodes[id].data.Group?)
  }

  /** Growing by groups twice is growing by groups. */
  lemma GrownChain(a: map<nat, Node>, an: nat, b: map<nat, Node>, bn: nat, c: map<nat, Node>, cn: nat)
    requires GrownByGroups(a, an, b, bn) && GrownByGroups(b, bn, c, cn)
    ensures GrownByGroups(a, an, c, cn)
  {
  }

  /** The items `ids`, made since the tree was `start` with `startNext`
      the next id, are the only new ones and show `list`. */
  ghost predicate ShownSince(start: map<nat, Node>, startNext: nat, nodes: map<nat, Node>, nextId: nat,
                             ids: seq<nat>, list: seq<Entry>)
  {
    && Shows(nodes, ids, list) && Increasing(ids) && Below(ids, nextId)
    && (forall k :: 0 <= k < |ids| ==> startNext <= ids[k])
    && startNext <= nextId && Extends(start, nodes, startNext)
    && (forall x :: x in nodes && x !in start ==> x in ids)
  }

  /** One pass of the inner loop of `load_connections`: the new item, with
      the next id, extends both the tree and what was shown. */
  lemma MemberAdded(start: map<nat, Node>, startNext: nat, before: map<nat, Node>, after: map<nat, Node>,
                    ids: seq<nat>, list: seq<Entry>, id: nat, c: Entry)
    requires forall x :: x in before ==> x < id
    requires after.Keys == before.Keys + {id} && after[id].data == Connection(c)
    requires forall x :: x in before ==> after[x] == before[x]
    requires Shows(before, ids, list) && Increasing(ids) && Below(ids, id)
    requires forall k :: 0 <= k < |ids| ==> startNext <= ids[k]
    requires startNext <= id && Extends(start, before, startNext)
    requires forall x :: x in before && x !in start ==> x in ids
    ensures Shows(after, ids + [id], list + [c]) && Increasing(ids + [id]) && Below(ids + [id], id + 1)
    ensures forall k :: 0 <= k < |ids + [id]| ==> startNext <= (ids + [id])[k]
    ensures Extends(start, after, startNext)
    ensures forall x :: x in after && x !in start ==> x in ids + [id]
  {
    AddStep(before, after, ids, list, id, c);
  }

  /** One round of `load_connections`: a group's items, then its
      connections, extend what the earlier rounds showed. */
  lemma LoadStep(n0: map<nat, Node>, n1: map<nat, Node>, n2: map<nat, Node>,
                 ids: seq<nat>, newIds: seq<nat>, list: seq<Entry>, members: seq<Entry>, mid: nat)
    requires Shows(n0, ids, list) && Increasing(ids) && Below(ids, mid)
    requires forall id :: id in n0 && n0[id].data.Connection? ==> id in ids
    requires forall id :: id in n0 ==> id in n1 && n1[id] == n0[id]
    requires forall id :: id in n1 && id !in n0 ==> n1[id].data.Group?
    requires forall id :: id in n1 ==> id in n2 && n2[id] == n1[id]
    requires forall id :: id in n2 && id !in n1 ==> id in newIds
    requires Shows(n2, newIds, members) && Increasing(newIds)
    requires forall k :: 0 <= k < |newIds| ==> mid <= newIds[k]
    ensures Shows(n2, ids + newIds, list + members) && Increasing(ids + newIds)
    ensures forall id :: id in n2 && n2[id].data.Connection? ==> id in ids + newIds
  {
  }

  class ConnectionTreeView {
    var nodes: map<nat, Node>
    var nextId: nat

    ghost predicate Valid()
      reads this
    {
      Tree(nodes, nextId)
    }

    ghost predicate Placed()
      reads this
    {
      PlacedIn(nodes)
    }

    constructor ()
      ensures Valid() && Placed() && nodes == map[]
    {
      nodes := map[];
      nextId := 0;
    }

    /** `tree.insert(parent, "end", ...)` followed by the record in
        `connections_data`. */
    method Insert(parent: Option<nat>, text: string, d: ItemData) returns (id: nat)
      modifies this
      ensures id == old(nextId) && nextId == id + 1
      ensures nodes == old(nodes)[id := Node(parent, text, d)]
    {
      id := nextId;
      nodes := nodes[id := Node(parent, text, d)];
      nextId := nextId + 1;
    }

    /** `find_group_item`: the first group item with that path, in
        insertion order. */
    method FindGroupItem(groupPath: string) returns (found: Option<nat>)
      requires Valid()
      ensures found.Some? ==> found.value in nodes && nodes[found.value].data.Group? && nodes[found.value].data.path == groupPath
      ensures found.None? ==> forall id :: id in nodes && nodes[id].data.Group? ==> nodes[id].data.path != groupPath
    {
      var i := 0;
      while i < nextId
        invariant i <= nextId
        invariant forall id :: id in nodes && id < i && nodes[id].data.Group? ==> nodes[id].data.path != groupPath
      {
        if i in nodes && nodes[i].data.Group? && nodes[i].data.path == groupPath {
          return Some(i);
        }
        i := i + 1;
      }
      return None;
    }

    /** One level of `add_group_to_tree`: the item of `NextPath(current,
        part)`, made under `currentParent` when there is none. */
    method GroupLevel(currentParent: Option<nat>, currentPath: string, part: string)
      returns (groupItemId: nat, path: string)
      requires Valid()
      requires currentParent.None? ==> currentPath == ""
      requires currentParent.Some? ==>
        currentParent.value in nodes && nodes[currentParent.value].data.Group? && nodes[currentParent.value].data.path == currentPath
      modifies this
      ensures Valid()
      ensures old(Placed()) ==> Placed()
      ensures path == NextPath(currentPath, part)
      ensures groupItemId in nodes && nodes[groupItemId].data.Group? && nodes[groupItemId].data.path == path
      ensures GrownByGroups(old(nodes), old(nextId), nodes, nextId)
    {
      if currentPath != "" {
        path := currentPath + "/" + part;
      } else {
        path := part;
      }
      var found := FindGroupItem(path);
      if found.None? {
        var icon := GetGroupIcon(part);
        InsertGroupKeeps(nodes, nextId, currentParent, icon + " " + part, part, path);
        groupItemId := Insert(currentParent, icon + " " + part, Group(part, path));
      } else {
        groupItemId := found.value;
      }
    }

    /** `add_group_to_tree`: a group item for each level of the path that
        has none, each under the previous level's; the id of the deepest. */
    method AddGroupToTree(groupPath: string) returns (deepest: nat)
      requires Valid()
      modifies this
      ensures Valid()
      ensures old(Placed()) ==> Placed()
      ensures deepest in nodes && nodes[deepest].data.Group?
      ensures nodes[deepest].data.path == PathAfter(Split(groupPath, "/"))
      ensures old(nextId) <= nextId && Extends(old(nodes), nodes, old(nextId))
      ensures forall id :: id in nodes && id !in old(nodes) ==> nodes[id].data.Group?
    {
      var parts := Split(groupPath, "/");
      var currentPath := "";
      var currentParent: Option<nat> := None;
      var i := 0;
      while i < |parts|
        invariant 0 <= i <= |parts|
        invariant Valid()
        invariant old(Placed()) ==> Placed()
        invariant currentPath == PathAfter(parts[..i])
        invariant i == 0 <==> currentParent.None?
        invariant currentParent.Some? ==>
          currentParent.value in nodes && nodes[currentParent.value].data.Group? && nodes[currentParent.value].data.path == currentPath
        invariant GrownByGroups(old(nodes), old(nextId), nodes, nextId)
      {
        assert PathAfter(parts[..i + 1]) == NextPath(PathAfter(parts[..i]), parts[i]) by {
          assert parts[..i + 1][..i] == parts[..i];
        }
        ghost var before, beforeNext := nodes, nextId;
        var groupItemId;
        groupItemId, currentPath := GroupLevel(currentParent, currentPath, parts[i]);
        GrownChain(old(nodes), old(nextId), before, beforeNext, nodes, nextId);
        currentParent := Some(groupItemId);
        i := i + 1;
      }
      assert parts[..|parts|] == parts;
      deepest := currentParent.value;
    }

    /** `add_connection_to_tree`: one connection item under the group. */
    method AddConnectionToTree(parentItem: nat, c: Entry) returns (id: nat)
      requires Valid() && parentItem in nodes && nodes[parentItem].data.Group?
      modifies this
      ensures Valid()
      ensures old(Placed()) && old(nodes[parentItem].data.path) == PathAfter(Split(c.group, "/")) ==> Placed()
      ensures id == old(nextId) && nextId == id + 1
      ensures nodes == old(nodes)[id := Node(Some(parentItem), c.icon + " " + c.name, Connection(c))]
    {
      InsertConnectionKeeps(nodes, nextId, parentItem, c.icon + " " + c.name, c);
      id := Insert(Some(parentItem), c.icon + " " + c.name, Connection(c));
    }

    /** The inner loop of `load_connections`: the connections of one group,
        in the given order, under its item. */
    method AddConnections(groupItemId: nat, members: seq<Entry>) returns (ghost newIds: seq<nat>)
      requires Valid() && Placed()
      requires groupItemId in nodes && nodes[groupItemId].data.Group?
      requires forall k :: 0 <= k < |members| ==> nodes[groupItemId].data.path == PathAfter(Split(members[k].group, "/"))
      modifies this
      ensures Valid() && Placed()
      ensures Shows(nodes, newIds, members) && Increasing(newIds) && Below(newIds, nextId)
      ensures forall k :: 0 <= k < |newIds| ==> old(nextId) <= newIds[k]
      ensures old(nextId) <= nextId && Extends(old(nodes), nodes, old(nextId))
      ensures forall id :: id in nodes && id !in old(nodes) ==> id in newIds
    {
      newIds := [];
      var m := 0;
      while m < |members|
        invariant 0 <= m <= |members|
        invariant Valid() && Placed()
        invariant groupItemId in nodes && nodes[groupItemId] == old(nodes)[groupItemId]
        invariant ShownSince(old(nodes), old(nextId), nodes, nextId, newIds, members[..m])
      {
        newIds := AddMember(groupItemId, members[m], old(nodes), old(nextId), newIds, members[..m]);
        assert members[..m + 1] == members[..m] + [members[m]];
        m := m + 1;
      }
      assert members[..|members|] == members;
    }

    /** One pass of the inner loop of `load_connections`: the item of `c`
        under the group's item, after the ones made since `start`. */
    method AddMember(groupItemId: nat, c: Entry, ghost start: map<nat, Node>, ghost startNext: nat,
                     ghost ids: seq<nat>, ghost list: seq<Entry>) returns (ghost newIds: seq<nat>)
      requires Valid() && Placed()
      requires groupItemId in nodes && nodes[groupItemId].data.Group?
      requires nodes[groupItemId].data.path == PathAfter(Split(c.group, "/"))
      requires ShownSince(start, startNext, nodes, nextId, ids, list)
      modifies this
      ensures Valid() && Placed()
      ensures groupItemId in nodes && nodes[groupItemId] == old(nodes[groupItemId])
      ensures ShownSince(start, startNext, nodes, nextId, newIds, list + [c])
    {
      ghost var before := nodes;
      var id := AddConnectionToTree(groupItemId, c);
      MemberAdded(start, startNext, before, nodes, ids, list, id, c);
      newIds := ids + [id];
    }

    /** The first loop of `load_connections`: the connections grouped by
        their group path, keys in the order first met. */
    static method GroupConnections(conns: seq<Entry>) returns (groups: map<string, seq<Entry>>, keys: seq<string>)
      ensures groups == GroupsOf(conns) && keys == GroupKeys(conns)
    {
      groups := map[];
      keys := [];
      var i := 0;
      while i < |conns|
        invariant 0 <= i <= |conns|
        invariant groups == GroupsOf(conns[..i]) && keys == GroupKeys(conns[..i])
      {
        var c := conns[i];
        assert conns[..i + 1][..i] == conns[..i] && conns[..i + 1][i] == c;
        if c.group !in groups {
          groups := groups[c.group := []];
          keys := keys + [c.group];
        }
        groups := groups[c.group := groups[c.group] + [c]];
        i := i + 1;
      }
      assert conns[..|conns|] == conns;
    }

    /** `load_connections`: the tree is cleared, then every group (in sorted
        order) gets its item and its connections (sorted by name) beneath
        it. `ids` are the connection items in the order they were made. */
    method LoadConnections(conns: seq<Entry>) returns (ghost ids: seq<nat>)
      modifies this
      ensures Valid() && Placed()
      ensures forall id :: id in nodes ==> old(nextId) <= id
      ensures Shows(nodes, ids, Expected(conns)) && Increasing(ids)
      ensures forall id :: id in nodes && nodes[id].data.Connection? ==> id in ids
    {
      nodes := map[];
      var groups, keys := GroupConnections(conns);
      var sortedKeys := Sort(keys);
      ids := [];
      ghost var listed: seq<Entry> := [];
      var j := 0;
      while j < |sortedKeys|
        invariant 0 <= j <= |sortedKeys|
        invariant Valid() && Placed()
        invariant listed == Listed(sortedKeys[..j], groups)
        invariant LoadedSince(old(nextId), nodes, nextId, ids, listed)
      {
        var key := sortedKeys[j];
        var members := SortBy(groups[key], EntryName);
        MembersOfGroup(groups, key, members);
        ghost var newIds := LoadGroup(key, members, ids, listed, old(nextId));
        ListedSnoc(sortedKeys, j, groups);
        ids := ids + newIds;
        listed := listed + members;
        j := j + 1;
      }
      assert sortedKeys[..|sortedKeys|] == sortedKeys;
    }

    /** One pass of the second loop of `load_connections`: the group's item,
        then its connections beneath it, after everything shown so far. */
    method LoadGroup(key: string, members: seq<Entry>, ghost ids: seq<nat>, ghost listed: seq<Entry>, ghost start: nat)
      returns (ghost newIds: seq<nat>)
      requires Valid() && Placed()
      requires forall k :: 0 <= k < |members| ==> members[k].group == key
      requires LoadedSince(start, nodes, nextId, ids, listed)
      modifies this
      ensures Valid() && Placed()
      ensures LoadedSince(start, nodes, nextId, ids + newIds, listed + members)
    {
      ghost var before, mid := nodes, nextId;
      var groupItemId := AddGroupToTree(key);
      ghost var middle := nodes;
      newIds := AddConnections(groupItemId, members);
      LoadStep(before, middle, nodes, ids, newIds, listed, members, mid);
      assert Below(ids + newIds, nextId) by {
        forall k | 0 <= k < |ids + newIds| ensures (ids + newIds)[k] < nextId {
          if k >= |ids| { assert (ids + newIds)[k] == newIds[k - |ids|]; }
        }
      }
    }

    /** `get_selected_connection` (and the value `on_selection_change`
        passes on): the record of the first selected item when it is a
        connection. */
    function SelectedConnection(selection: seq<nat>): (r: Option<Entry>)
      reads this
      ensures r.Some? <==> selection != [] && selection[0] in nodes && nodes[selection[0]].data.Connection?
      ensures r.Some? ==> nodes[selection[0]].data == Connection(r.value)
    {
      if selection != [] && selection[0] in nodes && nodes[selection[0]].data.Connection? then
        Some(nodes[selection[0]].data.entry)
      else None
    }
  }
}
