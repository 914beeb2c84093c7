/** The add/edit dialog of the Qt front end: the colour-tag combo, the two
    port-forward lists, the dialog that asks for one forward, and the
    record the dialog emits on save. Widgets are reduced to the values they
    hold; the current row of a list is the caller's input. */
module ConnectionDialog {
  import opened Wrappers
  import opened Text
  import opened Connection

  // ---------------------------------------------------------------------
  // The colour combo
  // ---------------------------------------------------------------------

  /** The tags of the four combo entries, by index. */
  const ColorTags: seq<string> := ["", "production", "staging", "development"]

  /** `load_connection_data`: the combo index of a tag, 0 for any tag the
      map does not know. */
  function ColorIndex(tag: string): (i: nat)
    ensures i < |ColorTags|
    ensures i != 0 ==> ColorTags[i] == tag
    ensures i == 0 <==> tag !in ColorTags[1..]
  {
    if tag == "production" then 1
    else if tag == "staging" then 2
    else if tag == "development" then 3
    else 0
  }

  /** `save_connection`: the tag of a combo index. */
  function ColorTag(index: nat): (tag: string)
    requires index < |ColorTags|
    ensures tag in ColorTags
  {
    ColorTags[index]
  }

  /** Loading then saving keeps each of the four tags. */
  lemma TagIndexTag(tag: string)
    requires tag in ColorTags
    ensures ColorTag(ColorIndex(tag)) == tag
  {
  }

  /** Saving then loading keeps each of the four indices. */
  lemma IndexTagIndex(index: nat)
    requires index < |ColorTags|
    ensures ColorIndex(ColorTag(index)) == index
  {
  }

  /** Any other tag is shown as "None" and saved as "". */
  lemma UnknownTagCleared(tag: string)
    requires tag !in ColorTags
    ensures ColorTag(ColorIndex(tag)) == ""
  {
  }

  // ---------------------------------------------------------------------
  // The port-forward list
  // ---------------------------------------------------------------------

  /** A list item: its label and the forward it carries as data. */
  datatype Item = Item(text: string, data: Forward)

  /** The label of an item; the arrow glyphs are those the source file
      spells. */
  function ItemText(local: bool, f: Forward): string
  {
    IntToString(f.port1) + (if local then " ‚Üí " else " ‚Üê ") + f.host + ":" + IntToString(f.port2)
  }

  /** The forwards the items carry, in list order. */
  function ItemForwards(items: seq<Item>): (fs: seq<Forward>)
    ensures |fs| == |items|
    ensures forall i :: 0 <= i < |items| ==> fs[i] == items[i].data
  {
    if items == [] then [] else ItemForwards(items[..|items| - 1]) + [items[|items| - 1].data]
  }

  /** `PortForwardWidget`: a list widget of forwards of one direction. */
  class PortForwardWidget {
    const local: bool
    var items: seq<Item>

    constructor(forwardType: string)
      ensures local == (forwardType == "local") && items == []
    {
      local := forwardType == "local";
      items := [];
    }

    /** `add_forward`: one item at the end. */
    method AddForward(port1: int, host: string, port2: int)
      modifies this
      ensures items == old(items) + [Item(ItemText(local, Forward(port1, host, port2)), Forward(port1, host, port2))]
    {
      var f := Forward(port1, host, port2);
      items := items + [Item(ItemText(local, f), f)];
    }

    /** `get_forwards`: the data of every item, in order. */
    method GetForwards() returns (fs: seq<Forward>)
      ensures fs == ItemForwards(items)
    {
      fs := [];
      var i := 0;
      while i < |items|
        invariant 0 <= i <= |items|
        invariant fs == ItemForwards(items[..i])
      {
        assert items[..i + 1][..i] == items[..i];
        fs := fs + [items[i].data];
        i := i + 1;
      }
      assert items[..|items|] == items;
    }

    /** `remove_selected`: the item at the current row goes; a row of -1
        (no selection) removes nothing. */
    method RemoveSelected(currentRow: int)
      requires currentRow < |items|
      modifies this
      ensures currentRow >= 0 ==> items == old(items[..currentRow] + items[currentRow + 1..])
      ensures currentRow < 0 ==> items == old(items)
    {
      if currentRow >= 0 {
        items := items[..currentRow] + items[currentRow + 1..];
      }
    }
  }

  /** Removing a row drops exactly that forward; the others keep their
      order. */
  lemma RemovedForward(items: seq<Item>, row: nat)
    requires row < |items|
    ensures ItemForwards(items[..row] + items[row + 1..]) == ItemForwards(items)[..row] + ItemForwards(items)[row + 1..]
  {
    var kept := items[..row] + items[row + 1..];
    var expected := ItemForwards(items)[..row] + ItemForwards(items)[row + 1..];
    forall i | 0 <= i < |kept|
      ensures ItemForwards(kept)[i] == expected[i]
    {
      if i < row {
        assert kept[i] == items[i];
      } else {
        assert kept[i] == items[i + 1];
      }
    }
    assert |ItemForwards(kept)| == |expected|;
  }

  // ---------------------------------------------------------------------
  // The forward dialog
  // ---------------------------------------------------------------------

  /** A value a spin box with range 1..65535 can hold. */
  predicate PortValue(p: int)
  {
    1 <= p <= 65535
  }

  /** `PortForwardDialog.get_forward`: the two spin-box values around the
      stripped host text. */
  function GetForward(port1: int, hostText: string, port2: int): (f: Forward)
    requires PortValue(port1) && PortValue(port2)
    ensures PortValue(f.port1) && PortValue(f.port2)
    ensures IsStripped(f.host)
    ensures f.port1 == port1 && f.port2 == port2 && f.host == Strip(hostText)
  {
    StripResult(hostText);
    Forward(port1, Strip(hostText), port2)
  }

  /** The values the forward dialog opens with: 8080, localhost, 80 for a
      local forward and 3000, localhost, 3000 for a remote one. */
  function ForwardDefaults(local: bool): (f: Forward)
    ensures PortValue(f.port1) && PortValue(f.port2) && f.host == "localhost"
  {
    if local then Forward(8080, "localhost", 80) else Forward(3000, "localhost", 3000)
  }

  // ---------------------------------------------------------------------
  // Load and save
  // ---------------------------------------------------------------------

  /** The texts of the line edits and the values of the two combos and the
      spin box. */
  datatype Fields = Fields(
    name: string, hostname: string, user: string, port: int, identityFile: string,
    folder: string, proxyJump: string, colorIndex: nat)

  /** A spin box shows a value clamped into its range. */
  function SpinValue(v: int): (p: int)
    ensures PortValue(p)
    ensures PortValue(v) ==> p == v
  {
    if v < 1 then 1 else if v > 65535 then 65535 else v
  }

  /** The fields of a new dialog: empty texts, port 22, folder "personal"
      and no colour. */
  const NewFields: Fields := Fields("", "", "", 22, "", "personal", "", 0)

  /** `load_connection_data` of an existing connection. */
  function LoadFields(c: Connection): (d: Fields)
    ensures d.colorIndex < |ColorTags| && PortValue(d.port)
    ensures d.name == c.name && d.hostname == c.hostname && d.folder == c.folder
  {
    Fields(c.name, c.hostname, c.user, SpinValue(c.port), c.identityFile, c.folder, c.proxyJump,
           ColorIndex(c.colorTag))
  }

  /** The record `save_connection` builds from the fields and the two
      lists. */
  function BuildConnection(d: Fields, local: seq<Forward>, remote: seq<Forward>): (c: Connection)
    requires d.colorIndex < |ColorTags|
    ensures IsStripped(c.name) && IsStripped(c.hostname) && IsStripped(c.user)
    ensures IsStripped(c.identityFile) && IsStripped(c.folder) && IsStripped(c.proxyJump)
    ensures c.port == d.port && c.localForwards == local && c.remoteForwards == remote
    ensures c.colorTag in ColorTags && ColorIndex(c.colorTag) == d.colorIndex
  {
    StripResult(d.name); StripResult(d.hostname); StripResult(d.user);
    StripResult(d.identityFile); StripResult(d.folder); StripResult(d.proxyJump);
    IndexTagIndex(d.colorIndex);
    Connection(Strip(d.name), Strip(d.hostname), Strip(d.user), d.port, Strip(d.identityFile),
               Strip(d.folder), Strip(d.proxyJump), local, remote, ColorTag(d.colorIndex))
  }

  /** `save_connection`: nothing is emitted while `validate` reports
      errors; otherwise the record built from the form. */
  method SaveConnection(d: Fields, localList: PortForwardWidget, remoteList: PortForwardWidget)
    returns (emitted: Option<Connection>)
    requires d.colorIndex < |ColorTags|
    ensures emitted.Some? <==>
      IsValid(BuildConnection(d, ItemForwards(localList.items), ItemForwards(remoteList.items)))
    ensures emitted.Some? ==>
      emitted.value == BuildConnection(d, ItemForwards(localList.items), ItemForwards(remoteList.items))
  {
    var local := localList.GetForwards();
    var remote := remoteList.GetForwards();
    var c := BuildConnection(d, local, remote);
    var errors := Validate(c);
    ValidateEmptyIff(c);
    if errors != [] {
      return None;
    }
    return Some(c);
  }

  /** Editing a valid connection whose texts carry no surrounding
      whitespace and whose tag is one of the four, and saving without
      changes, emits that connection again. */
  lemma LoadSaveRoundTrip(c: Connection)
    requires IsValid(c) && c.colorTag in ColorTags
    requires IsStripped(c.name) && IsStripped(c.hostname) && IsStripped(c.user)
    requires IsStripped(c.identityFile) && IsStripped(c.folder) && IsStripped(c.proxyJump)
    ensures BuildConnection(LoadFields(c), c.localForwards, c.remoteForwards) == c
  {
    StripStripped(c.name); StripStripped(c.hostname); StripStripped(c.user);
    StripStripped(c.identityFile); StripStripped(c.folder); StripStripped(c.proxyJump);
    TagIndexTag(c.colorTag);
  }
}
