/** What `from_ssh_config` recovers from the text `to_ssh_config` writes:
    the record itself, line by line, under conditions on the fields that keep
    each written line readable as the directive it came from. */
module ConnectionRoundTrip {
  import opened Wrappers
  import opened Text
  import opened Connection

  // ---------------------------------------------------------------------
  // Conditions under which the text reads back
  // ---------------------------------------------------------------------

  /** A directive value that reads back unchanged after `keyword `: no
      surrounding whitespace, no line break, no second `keyword `. */
  predicate FieldReadsBack(v: string, keyword: string)
  {
    IsStripped(v) && Lacks(v, '\n') && !Contains(v, keyword + " ")
  }

  /** A forward host that survives `split()` and `split(':')`. */
  predicate HostReadsBack(f: Forward)
  {
    NoSpace(f.host) && Lacks(f.host, ':')
  }

  /** The text the metadata search looks for: its prefix and the opening
      brace of the JSON object. */
  const Marker: string := MetadataPrefix + "{"

  predicate MarkerFree(v: string)
  {
    !Contains(v, Marker)
  }

  /** No free-text field holds the metadata marker, which the search of
      `from_ssh_config` would otherwise find in a stanza without a colour
      tag. A forward host needs no such condition: it has no space, so it
      cannot hold the marker's `"# "`. */
  predicate MarkerFreeFields(c: Connection)
  {
    && MarkerFree(c.name) && MarkerFree(c.hostname) && MarkerFree(c.user)
    && MarkerFree(c.identityFile) && MarkerFree(c.proxyJump)
  }

  predicate RoundTrips(c: Connection)
  {
    && c.name != "" && IsStripped(c.name) && Lacks(c.name, '\n')
    && FieldReadsBack(c.hostname, "HostName") && FieldReadsBack(c.user, "User")
    && FieldReadsBack(c.identityFile, "IdentityFile") && FieldReadsBack(c.proxyJump, "ProxyJump")
    && (forall i :: 0 <= i < |c.localForwards| ==> HostReadsBack(c.localForwards[i]))
    && (forall i :: 0 <= i < |c.remoteForwards| ==> HostReadsBack(c.remoteForwards[i]))
    && (if c.colorTag == "" then MarkerFreeFields(c) else PlainTag(c.colorTag))
  }

  // ---------------------------------------------------------------------
  // One line at a time
  // ---------------------------------------------------------------------

  /** A written directive strips to `keyword value`, and the text after
      `keyword ` strips back to the value. */
  lemma DirectiveReadsBack(keyword: string, v: string)
    requires |keyword| >= 2 && !IsSpace(keyword[0])
    requires v != [] && FieldReadsBack(v, keyword)
    ensures Strip(Directive(keyword, v)) == keyword + " " + v
    ensures StartsWith(keyword + " " + v, keyword + " ")
    ensures ValueAfter(keyword + " " + v, keyword + " ") == v
  {
    var w := keyword + " " + v;
    StartsWithConcat(keyword + " ", v);
    assert Directive(keyword, v) == Indent + w;
    assert w[0] == keyword[0] && w[|w| - 1] == v[|v| - 1];
    StripIndented(Indent, w);
    SplitKeyword(keyword + " ", v);
    StripStripped(v);
  }

  /** The characters of `keyword value` that decide which prefix test holds. */
  lemma KeywordLineShape(keyword: string, v: string)
    requires |keyword| >= 2
    ensures (keyword + " " + v)[..|keyword| + 1] == keyword + " "
    ensures (keyword + " " + v)[0] == keyword[0] && (keyword + " " + v)[1] == keyword[1]
  {
  }

  /** A directive written with an empty value strips to the bare keyword. */
  lemma EmptyDirective(keyword: string)
    requires keyword != [] && IsStripped(keyword)
    ensures Strip(Directive(keyword, "")) == keyword
  {
    assert Directive(keyword, "") == Indent + keyword + " ";
    StripPadded(Indent, keyword);
  }

  /** `int()` and `split(':')` undo what a forward line writes. */
  lemma ParseForwardRoundTrip(f: Forward)
    requires HostReadsBack(f)
    ensures ParseForward(ForwardValue(f)) == Ok(Some(f))
  {
    ForwardWords(f);
    ParseIntToString(f.port1);
    HostPortSplit(f);
    ParseIntToString(f.port2);
  }

  /** `host:port` of a forward has no whitespace. */
  lemma HostPortNoSpace(f: Forward)
    requires HostReadsBack(f)
    ensures NoSpace(f.host + ":" + IntToString(f.port2))
  {
    var p2 := IntToString(f.port2);
    var hp := f.host + ":" + p2;
    IntStringNoSpace(f.port2);
    forall i | 0 <= i < |hp| ensures !IsSpace(hp[i]) {
      if i < |f.host| { assert hp[i] == f.host[i]; }
      else if i > |f.host| { assert hp[i] == p2[i - |f.host| - 1]; }
    }
  }

  /** `split()` of a forward's value: the first port, then `host:port`. */
  lemma ForwardWords(f: Forward)
    requires HostReadsBack(f)
    ensures Words(ForwardValue(f)) == [IntToString(f.port1), f.host + ":" + IntToString(f.port2)]
  {
    var p1 := IntToString(f.port1);
    var hp := f.host + ":" + IntToString(f.port2);
    IntStringNoSpace(f.port1);
    HostPortNoSpace(f);
    assert ForwardValue(f) == p1 + " " + hp;
    WordsOfPair(p1, hp);
  }

  /** `split(':')` of `host:port`. */
  lemma HostPortSplit(f: Forward)
    requires HostReadsBack(f)
    ensures Split(f.host + ":" + IntToString(f.port2), ":") == [f.host, IntToString(f.port2)]
  {
    var p2 := IntToString(f.port2);
    IntStringNoSpace(f.port2);
    assert Join([f.host, p2], ":") == f.host + ":" + p2;
    SplitJoin([f.host, p2], ':');
  }

  // Each lemma below fixes what `strip()` leaves of a line and follows the
  // scanner's chain of `startswith` tests to the branch that line takes.

  lemma ScanBlank(st: ScanState, raw: string)
    requires Strip(raw) == ""
    ensures ScanLine(st, raw) == Ok(st)
  {
  }

  lemma ScanComment(st: ScanState, raw: string)
    requires Strip(raw) != "" && Strip(raw)[0] == '#'
    ensures ScanLine(st, raw) == Ok(st)
  {
    var line := Strip(raw);
    assert StartsWith(line, "#") by {
      assert line == "#" + line[1..];
      StartsWithConcat("#", line[1..]);
    }
  }

  /** None of the keyword tests after `Host ` holds. */
  predicate NoLaterKeyword(line: string)
  {
    !StartsWith(line, "#") && !StartsWith(line, "HostName ") && !StartsWith(line, "User ")
    && !StartsWith(line, "Port ") && !StartsWith(line, "IdentityFile ") && !StartsWith(line, "ProxyJump ")
    && !StartsWith(line, "LocalForward ") && !StartsWith(line, "RemoteForward ")
  }

  /** A line no test claims leaves the state as it is. */
  lemma ScanFallThrough(st: ScanState, raw: string)
    requires Strip(raw) != "" && NoLaterKeyword(Strip(raw))
    requires !StartsWith(Strip(raw), "Host ") || st.name != ""
    ensures ScanLine(st, raw) == Ok(st)
  {
  }

  /** The tests a line fails when its first character is none of the keywords'. */
  lemma OtherFirstChar(line: string)
    requires line != [] && line[0] !in {'#', 'H', 'U', 'P', 'I', 'L', 'R'}
    ensures NoLaterKeyword(line) && !StartsWith(line, "Host ")
  {
    StartsWithAt(line, "#", 0);
    StartsWithAt(line, "Host ", 0);
    StartsWithAt(line, "HostName ", 0);
    StartsWithAt(line, "User ", 0);
    StartsWithAt(line, "Port ", 0);
    StartsWithAt(line, "IdentityFile ", 0);
    StartsWithAt(line, "ProxyJump ", 0);
    StartsWithAt(line, "LocalForward ", 0);
    StartsWithAt(line, "RemoteForward ", 0);
  }

  /** The tests a line starting with 'H' fails besides the two Host ones. */
  lemma FirstCharH(line: string)
    requires line != [] && line[0] == 'H'
    ensures !StartsWith(line, "#") && !StartsWith(line, "User ") && !StartsWith(line, "Port ")
    ensures !StartsWith(line, "IdentityFile ") && !StartsWith(line, "ProxyJump ")
    ensures !StartsWith(line, "LocalForward ") && !StartsWith(line, "RemoteForward ")
  {
    StartsWithAt(line, "#", 0);
    StartsWithAt(line, "User ", 0);
    StartsWithAt(line, "Port ", 0);
    StartsWithAt(line, "IdentityFile ", 0);
    StartsWithAt(line, "ProxyJump ", 0);
    StartsWithAt(line, "LocalForward ", 0);
    StartsWithAt(line, "RemoteForward ", 0);
  }

  /** A later `Host` line: the name is already known. */
  lemma ScanLaterHost(st: ScanState, raw: string, name: string)
    requires st.name != "" && Strip(raw) == "Host " + name
    ensures ScanLine(st, raw) == Ok(st)
  {
    LaterHostLineOnly(Strip(raw), name);
    ScanFallThrough(st, raw);
  }

  lemma LaterHostLineOnly(line: string, name: string)
    requires line == "Host " + name
    ensures line != "" && NoLaterKeyword(line)
  {
    assert line[0] == 'H' && line[4] == ' ';
    FirstCharH(line);
    StartsWithAt(line, "HostName ", 4);
  }

  /** A line none of whose keywords starts like it. */
  lemma ScanUnknown(st: ScanState, raw: string)
    requires Strip(raw) != ""
    requires Strip(raw)[0] !in {'#', 'H', 'U', 'P', 'I', 'L', 'R'}
    ensures ScanLine(st, raw) == Ok(st)
  {
    OtherFirstChar(Strip(raw));
    ScanFallThrough(st, raw);
  }

  lemma ScanBareHostName(st: ScanState, raw: string)
    requires Strip(raw) == "HostName"
    ensures ScanLine(st, raw) == Ok(st)
  {
    BareHostNameOnly(Strip(raw));
    ScanFallThrough(st, raw);
  }

  lemma BareHostNameOnly(line: string)
    requires line == "HostName"
    ensures line != "" && NoLaterKeyword(line) && !StartsWith(line, "Host ")
  {
    assert line[0] == 'H' && line[4] == 'N';
    FirstCharH(line);
    StartsWithAt(line, "Host ", 4);
    StartsWithAt(line, "HostName ", 8);
  }

  lemma ScanBareUser(st: ScanState, raw: string)
    requires Strip(raw) == "User"
    ensures ScanLine(st, raw) == Ok(st)
  {
    BareUserOnly(Strip(raw));
    ScanFallThrough(st, raw);
  }

  lemma BareUserOnly(line: string)
    requires line == "User"
    ensures line != "" && NoLaterKeyword(line) && !StartsWith(line, "Host ")
  {
    assert line[0] == 'U';
    OtherThanU(line);
    StartsWithAt(line, "User ", 4);
  }

  /** The tests a line starting with 'U' fails. */
  lemma OtherThanU(line: string)
    requires line != [] && line[0] == 'U'
    ensures !StartsWith(line, "#") && !StartsWith(line, "Host ") && !StartsWith(line, "HostName ")
    ensures !StartsWith(line, "Port ") && !StartsWith(line, "IdentityFile ") && !StartsWith(line, "ProxyJump ")
    ensures !StartsWith(line, "LocalForward ") && !StartsWith(line, "RemoteForward ")
  {
    StartsWithAt(line, "#", 0);
    StartsWithAt(line, "Host ", 0);
    StartsWithAt(line, "HostName ", 0);
    StartsWithAt(line, "Port ", 0);
    StartsWithAt(line, "IdentityFile ", 0);
    StartsWithAt(line, "ProxyJump ", 0);
    StartsWithAt(line, "LocalForward ", 0);
    StartsWithAt(line, "RemoteForward ", 0);
  }

  lemma ScanHostName(st: ScanState, raw: string, v: string)
    requires Strip(raw) == "HostName " + v && StartsWith("HostName " + v, "HostName ") && ValueAfter("HostName " + v, "HostName ") == v
    ensures ScanLine(st, raw) == Ok(st.(hostname := v))
  {
    HostNameLineOnly(Strip(raw), v);
    ScanHostNameBranch(st, raw);
  }

  /** A HostName line is neither a comment nor a `Host ` line. */
  lemma HostNameLineOnly(line: string, v: string)
    requires line == "HostName " + v
    ensures !StartsWith(line, "#") && !StartsWith(line, "Host ")
  {
    assert line[0] == 'H' && line[4] == 'N';
    StartsWithAt(line, "#", 0);
    StartsWithAt(line, "Host ", 4);
  }

  /** The branch `ScanLine` takes on a HostName line. */
  lemma ScanHostNameBranch(st: ScanState, raw: string)
    requires Strip(raw) != "" && !StartsWith(Strip(raw), "#") && !StartsWith(Strip(raw), "Host ")
    requires StartsWith(Strip(raw), "HostName ")
    ensures ScanLine(st, raw) == Ok(st.(hostname := ValueAfter(Strip(raw), "HostName ")))
  {
  }

  lemma ScanUser(st: ScanState, raw: string, v: string)
    requires Strip(raw) == "User " + v && StartsWith("User " + v, "User ") && ValueAfter("User " + v, "User ") == v
    ensures ScanLine(st, raw) == Ok(st.(user := v))
  {
    assert Strip(raw)[0] == 'U';
    OtherThanU(Strip(raw));
    ScanUserBranch(st, raw);
  }

  lemma ScanUserBranch(st: ScanState, raw: string)
    requires Strip(raw) != "" && !StartsWith(Strip(raw), "#") && !StartsWith(Strip(raw), "Host ")
    requires !StartsWith(Strip(raw), "HostName ") && StartsWith(Strip(raw), "User ")
    ensures ScanLine(st, raw) == Ok(st.(user := ValueAfter(Strip(raw), "User ")))
  {
  }

  /** The tests before `Port ` that a line starting with 'P' fails. */
  lemma FirstCharP(line: string)
    requires line != [] && line[0] == 'P'
    ensures !StartsWith(line, "#") && !StartsWith(line, "Host ") && !StartsWith(line, "HostName ")
    ensures !StartsWith(line, "User ")
  {
    StartsWithAt(line, "#", 0);
    StartsWithAt(line, "Host ", 0);
    StartsWithAt(line, "HostName ", 0);
    StartsWithAt(line, "User ", 0);
  }

  lemma ScanPort(st: ScanState, raw: string, v: string, port: int)
    requires Strip(raw) == "Port " + v && StartsWith("Port " + v, "Port ") && ValueAfter("Port " + v, "Port ") == v
    requires ParseInt(v) == Some(port)
    ensures ScanLine(st, raw) == Ok(st.(port := port))
  {
    assert Strip(raw)[0] == 'P';
    FirstCharP(Strip(raw));
    ScanPortBranch(st, raw, port);
  }

  lemma ScanPortBranch(st: ScanState, raw: string, port: int)
    requires Strip(raw) != "" && !StartsWith(Strip(raw), "#") && !StartsWith(Strip(raw), "Host ")
    requires !StartsWith(Strip(raw), "HostName ") && !StartsWith(Strip(raw), "User ")
    requires StartsWith(Strip(raw), "Port ") && ParseInt(ValueAfter(Strip(raw), "Port ")) == Some(port)
    ensures ScanLine(st, raw) == Ok(st.(port := port))
  {
  }

  lemma ScanIdentityFile(st: ScanState, raw: string, v: string)
    requires Strip(raw) == "IdentityFile " + v && StartsWith("IdentityFile " + v, "IdentityFile ") && ValueAfter("IdentityFile " + v, "IdentityFile ") == v
    ensures ScanLine(st, raw) == Ok(st.(identityFile := v))
  {
    IdentityFileLineOnly(Strip(raw), v);
    ScanIdentityFileBranch(st, raw);
  }

  lemma IdentityFileLineOnly(line: string, v: string)
    requires line == "IdentityFile " + v
    ensures !StartsWith(line, "#") && !StartsWith(line, "Host ") && !StartsWith(line, "HostName ")
    ensures !StartsWith(line, "User ") && !StartsWith(line, "Port ")
  {
    assert line[0] == 'I';
    StartsWithAt(line, "#", 0);
    StartsWithAt(line, "Host ", 0);
    StartsWithAt(line, "HostName ", 0);
    StartsWithAt(line, "User ", 0);
    StartsWithAt(line, "Port ", 0);
  }

  lemma ScanIdentityFileBranch(st: ScanState, raw: string)
    requires Strip(raw) != "" && !StartsWith(Strip(raw), "#") && !StartsWith(Strip(raw), "Host ")
    requires !StartsWith(Strip(raw), "HostName ") && !StartsWith(Strip(raw), "User ") && !StartsWith(Strip(raw), "Port ")
    requires StartsWith(Strip(raw), "IdentityFile ")
    ensures ScanLine(st, raw) == Ok(st.(identityFile := ValueAfter(Strip(raw), "IdentityFile ")))
  {
  }

  lemma ScanProxyJump(st: ScanState, raw: string, v: string)
    requires Strip(raw) == "ProxyJump " + v && StartsWith("ProxyJump " + v, "ProxyJump ") && ValueAfter("ProxyJump " + v, "ProxyJump ") == v
    ensures ScanLine(st, raw) == Ok(st.(proxyJump := v))
  {
    ProxyJumpLineOnly(Strip(raw), v);
    ScanProxyJumpBranch(st, raw);
  }

  lemma ProxyJumpLineOnly(line: string, v: string)
    requires line == "ProxyJump " + v
    ensures !StartsWith(line, "#") && !StartsWith(line, "Host ") && !StartsWith(line, "HostName ")
    ensures !StartsWith(line, "User ") && !StartsWith(line, "Port ") && !StartsWith(line, "IdentityFile ")
  {
    assert line[0] == 'P' && line[1] == 'r';
    FirstCharP(line);
    StartsWithAt(line, "Port ", 1);
    StartsWithAt(line, "IdentityFile ", 0);
  }

  lemma ScanProxyJumpBranch(st: ScanState, raw: string)
    requires Strip(raw) != "" && !StartsWith(Strip(raw), "#") && !StartsWith(Strip(raw), "Host ")
    requires !StartsWith(Strip(raw), "HostName ") && !StartsWith(Strip(raw), "User ") && !StartsWith(Strip(raw), "Port ")
    requires !StartsWith(Strip(raw), "IdentityFile ") && StartsWith(Strip(raw), "ProxyJump ")
    ensures ScanLine(st, raw) == Ok(st.(proxyJump := ValueAfter(Strip(raw), "ProxyJump ")))
  {
  }

  /** Only the `LocalForward` test holds for such a line. */
  lemma LocalForwardLineOnly(line: string, v: string)
    requires line == "LocalForward " + v
    ensures !StartsWith(line, "#") && !StartsWith(line, "Host ") && !StartsWith(line, "HostName ") && !StartsWith(line, "User ") && !StartsWith(line, "Port ") && !StartsWith(line, "IdentityFile ") && !StartsWith(line, "ProxyJump ")
  {
    assert line[0] == 'L';
    StartsWithAt(line, "#", 0);
    StartsWithAt(line, "Host ", 0);
    StartsWithAt(line, "HostName ", 0);
    StartsWithAt(line, "User ", 0);
    StartsWithAt(line, "Port ", 0);
    StartsWithAt(line, "IdentityFile ", 0);
    StartsWithAt(line, "ProxyJump ", 0);
  }

  lemma ScanLocalForward(st: ScanState, raw: string, v: string, f: Forward)
    requires Strip(raw) == "LocalForward" + " " + v && StartsWith("LocalForward" + " " + v, "LocalForward" + " ") && ValueAfter("LocalForward" + " " + v, "LocalForward" + " ") == v
    requires ParseForward(v) == Ok(Some(f))
    ensures ScanLine(st, raw) == Ok(st.(localForwards := st.localForwards + [f]))
  {
    assert "LocalForward" + " " == "LocalForward ";
    LocalForwardLineOnly(Strip(raw), v);
  }

  /** Only the `RemoteForward` test holds for such a line. */
  lemma RemoteForwardLineOnly(line: string, v: string)
    requires line == "RemoteForward " + v
    ensures !StartsWith(line, "#") && !StartsWith(line, "Host ") && !StartsWith(line, "HostName ") && !StartsWith(line, "User ") && !StartsWith(line, "Port ") && !StartsWith(line, "IdentityFile ") && !StartsWith(line, "ProxyJump ") && !StartsWith(line, "LocalForward ")
  {
    assert line[0] == 'R';
    StartsWithAt(line, "#", 0);
    StartsWithAt(line, "Host ", 0);
    StartsWithAt(line, "HostName ", 0);
    StartsWithAt(line, "User ", 0);
    StartsWithAt(line, "Port ", 0);
    StartsWithAt(line, "IdentityFile ", 0);
    StartsWithAt(line, "ProxyJump ", 0);
    StartsWithAt(line, "LocalForward ", 0);
  }

  lemma ScanRemoteForward(st: ScanState, raw: string, v: string, f: Forward)
    requires Strip(raw) == "RemoteForward" + " " + v && StartsWith("RemoteForward" + " " + v, "RemoteForward" + " ") && ValueAfter("RemoteForward" + " " + v, "RemoteForward" + " ") == v
    requires ParseForward(v) == Ok(Some(f))
    ensures ScanLine(st, raw) == Ok(st.(remoteForwards := st.remoteForwards + [f]))
  {
    assert "RemoteForward" + " " == "RemoteForward ";
    RemoteForwardLineOnly(Strip(raw), v);
  }

  // ---------------------------------------------------------------------
  // The stanza, segment by segment
  // ---------------------------------------------------------------------

  /** Scanning `a + b` is scanning `a`, then `b` from where `a` left off. */
  lemma {:induction false} ScanLinesAppend(st: ScanState, a: seq<string>, b: seq<string>, mid: ScanState)
    requires ScanLines(st, a) == Ok(mid)
    ensures ScanLines(st, a + b) == ScanLines(mid, b)
    decreases |a|
  {
    if a != [] {
      assert (a + b)[0] == a[0] && (a + b)[1..] == a[1..] + b;
      var next := ScanLine(st, a[0]).value;
      ScanLinesAppend(next, a[1..], b, mid);
    } else {
      assert a + b == b;
    }
  }

  lemma ScanOneLine(st: ScanState, line: string, next: ScanState)
    requires ScanLine(st, line) == Ok(next)
    ensures ScanLines(st, [line]) == Ok(next)
  {
    assert [line][1..] == [];
  }

  /** Scanning two consecutive segments. */
  lemma ScanTwo(st: ScanState, a: seq<string>, b: seq<string>, mid: ScanState, last: ScanState)
    requires ScanLines(st, a) == Ok(mid) && ScanLines(mid, b) == Ok(last)
    ensures ScanLines(st, a + b) == Ok(last)
  {
    ScanLinesAppend(st, a, b, mid);
  }

  /** The integer a line carries: no whitespace, no line break, no keyword. */
  lemma IntReadsBack(n: int, keyword: string)
    requires |keyword| >= 1 && !IsDigit(keyword[0]) && keyword[0] != '-'
    ensures FieldReadsBack(IntToString(n), keyword) && IntToString(n) != []
    ensures NoSpace(IntToString(n)) && Lacks(IntToString(n), keyword[0]) && Lacks(IntToString(n), '#')
  {
    var p := IntToString(n);
    IntStringNoSpace(n);
    NoSpaceStripped(p);
    assert Lacks(p, keyword[0]);
    LacksNotContains(p, keyword + " ");
  }

  /** What a forward line reads back as. */
  lemma ForwardLineReadsBack(keyword: string, f: Forward)
    requires keyword == "LocalForward" || keyword == "RemoteForward"
    requires HostReadsBack(f)
    ensures Strip(ForwardLine(keyword, f)) == keyword + " " + ForwardValue(f)
    ensures StartsWith(keyword + " " + ForwardValue(f), keyword + " ")
    ensures ValueAfter(keyword + " " + ForwardValue(f), keyword + " ") == ForwardValue(f)
    ensures ParseForward(ForwardValue(f)) == Ok(Some(f))
  {
    ForwardValueReads(keyword, f);
    assert |keyword| >= 2 && !IsSpace(keyword[0]);
    DirectiveReadsBack(keyword, ForwardValue(f));
    ParseForwardRoundTrip(f);
  }

  /** A forward's value is a field that reads back under its keyword. */
  lemma ForwardValueReads(keyword: string, f: Forward)
    requires keyword == "LocalForward" || keyword == "RemoteForward"
    requires HostReadsBack(f)
    ensures ForwardValue(f) != [] && FieldReadsBack(ForwardValue(f), keyword)
  {
    var p1 := IntToString(f.port1);
    var p2 := IntToString(f.port2);
    var hp := f.host + ":" + p2;
    var v := ForwardValue(f);
    assert v == p1 + " " + hp;
    IntReadsBack(f.port1, keyword);
    IntReadsBack(f.port2, keyword);
    assert !Contains(v, keyword + " ") by {
      HostPortNoSpace(f);
      KeywordNotAcross(p1, hp, keyword + " ");
    }
    assert Lacks(v, '\n') by {
      HostPortNoSpace(f);
      forall i | 0 <= i < |v| ensures v[i] != '\n' {
        if i < |p1| { assert v[i] == p1[i]; }
        else if i > |p1| { assert v[i] == hp[i - |p1| - 1]; }
      }
    }
    assert v[0] == p1[0] && v[|v| - 1] == p2[|p2| - 1];
  }

  lemma ScanMetadataLines(st: ScanState, c: Connection)
    requires c.colorTag != "" ==> PlainTag(c.colorTag)
    ensures ScanLines(st, MetadataLines(c)) == Ok(st)
  {
    if c.colorTag != "" {
      var m := MetadataLine(c.colorTag);
      assert ScanLines(st, [m]) == Ok(st) by {
        ScanMetadataLine(st, c.colorTag);
      }
      assert ScanLines(st, [""]) == Ok(st) by {
        ScanBlank(st, "");
        ScanOneLine(st, "", st);
      }
      ScanTwo(st, [m], [""], st, st);
      assert MetadataLines(c) == [m] + [""];
    }
  }

  /** The metadata comment leaves the state as it is. */
  lemma ScanMetadataLine(st: ScanState, tag: string)
    ensures ScanLines(st, [MetadataLine(tag)]) == Ok(st)
  {
    var m := MetadataLine(tag);
    assert m == MetadataPrefix + (ColorJsonOpen + JsonEscape(tag) + ColorJsonClose);
    assert m[0] == '#' && m[|m| - 1] == '}';
    StripStripped(m);
    ScanComment(st, m);
    ScanOneLine(st, m, st);
  }

  /** The HostName line, written with an empty or a non-empty value. */
  lemma ScanHostNameLine(st: ScanState, v: string)
    requires st.hostname == "" && FieldReadsBack(v, "HostName")
    ensures ScanLines(st, [Directive("HostName", v)]) == Ok(st.(hostname := v))
  {
    var line := Directive("HostName", v);
    if v == "" {
      EmptyDirective("HostName");
      ScanBareHostName(st, line);
      ScanOneLine(st, line, st);
    } else {
      assert "HostName" + " " == "HostName ";
      assert |"HostName"| >= 2 && !IsSpace("HostName"[0]);
      DirectiveReadsBack("HostName", v);
      ScanHostName(st, line, v);
      ScanOneLine(st, line, st.(hostname := v));
    }
  }

  lemma ScanUserLine(st: ScanState, v: string)
    requires st.user == "" && FieldReadsBack(v, "User")
    ensures ScanLines(st, [Directive("User", v)]) == Ok(st.(user := v))
  {
    var line := Directive("User", v);
    if v == "" {
      EmptyDirective("User");
      ScanBareUser(st, line);
      ScanOneLine(st, line, st);
    } else {
      assert "User" + " " == "User ";
      assert |"User"| >= 2 && !IsSpace("User"[0]);
      DirectiveReadsBack("User", v);
      ScanUser(st, line, v);
      ScanOneLine(st, line, st.(user := v));
    }
  }

  /** The Port line strips to `Port <digits>` and its value parses back. */
  lemma PortDirectiveReadsBack(port: int, p: string)
    requires p == IntToString(port)
    ensures Strip(Directive("Port", p)) == "Port " + p
    ensures StartsWith("Port " + p, "Port ") && ValueAfter("Port " + p, "Port ") == p
    ensures ParseInt(p) == Some(port)
  {
    IntReadsBack(port, "Port");
    assert "Port" + " " == "Port ";
    assert |"Port"| >= 2 && !IsSpace("Port"[0]);
    DirectiveReadsBack("Port", p);
    ParseIntToString(port);
  }

  lemma ScanPortLine(st: ScanState, port: int)
    ensures ScanLines(st, [Directive("Port", IntToString(port))]) == Ok(st.(port := port))
  {
    var p := IntToString(port);
    var line := Directive("Port", p);
    PortDirectiveReadsBack(port, p);
    ScanPort(st, line, p, port);
    ScanOneLine(st, line, st.(port := port));
  }

  lemma ScanHostLine(st: ScanState, name: string)
    requires st.name != "" && name != "" && IsStripped(name)
    ensures ScanLines(st, [HostLine(name)]) == Ok(st)
  {
    var h := HostLine(name);
    assert h[0] == 'H' && h[|h| - 1] == name[|name| - 1];
    StripStripped(h);
    ScanLaterHost(st, h, name);
    ScanOneLine(st, h, st);
  }

  lemma ScanHeaderLines(st: ScanState, c: Connection)
    requires st.name != "" && st.hostname == "" && st.user == ""
    requires c.name != "" && IsStripped(c.name)
    requires FieldReadsBack(c.hostname, "HostName") && FieldReadsBack(c.user, "User")
    ensures ScanLines(st, HeaderLines(c)) == Ok(st.(hostname := c.hostname, user := c.user, port := c.port))
  {
    var l0, l1, l2, l3 := HostLine(c.name), Directive("HostName", c.hostname), Directive("User", c.user),
      Directive("Port", IntToString(c.port));
    var s1 := st.(hostname := c.hostname);
    var s2 := s1.(user := c.user);
    var s3 := s2.(port := c.port);
    assert ScanLines(st, [l0]) == Ok(st) by { ScanHostLine(st, c.name); }
    assert ScanLines(st, [l1]) == Ok(s1) by { ScanHostNameLine(st, c.hostname); }
    assert ScanLines(s1, [l2]) == Ok(s2) by { ScanUserLine(s1, c.user); }
    assert ScanLines(s2, [l3]) == Ok(s3) by { ScanPortLine(s2, c.port); }
    ScanFour(st, l0, l1, l2, l3, st, s1, s2, s3);
    assert HeaderLines(c) == [l0, l1, l2, l3];
  }

  /** Four lines, each scanned from the state the one before left. */
  lemma ScanFour(st: ScanState, l0: string, l1: string, l2: string, l3: string,
                 s0: ScanState, s1: ScanState, s2: ScanState, s3: ScanState)
    requires ScanLines(st, [l0]) == Ok(s0) && ScanLines(s0, [l1]) == Ok(s1)
    requires ScanLines(s1, [l2]) == Ok(s2) && ScanLines(s2, [l3]) == Ok(s3)
    ensures ScanLines(st, [l0, l1, l2, l3]) == Ok(s3)
  {
    ScanTwo(s1, [l2], [l3], s2, s3);
    ScanTwo(s0, [l1], [l2] + [l3], s1, s3);
    ScanTwo(st, [l0], [l1] + ([l2] + [l3]), s0, s3);
    assert [l0] + ([l1] + ([l2] + [l3])) == [l0, l1, l2, l3];
  }

  lemma ScanIdentityFileLine(st: ScanState, v: string)
    requires st.identityFile == "" && FieldReadsBack(v, "IdentityFile")
    ensures ScanLines(st, if v != "" then [Directive("IdentityFile", v)] else []) == Ok(st.(identityFile := v))
  {
    if v != "" {
      assert "IdentityFile" + " " == "IdentityFile ";
      assert |"IdentityFile"| >= 2 && !IsSpace("IdentityFile"[0]);
      DirectiveReadsBack("IdentityFile", v);
      ScanIdentityFile(st, Directive("IdentityFile", v), v);
      ScanOneLine(st, Directive("IdentityFile", v), st.(identityFile := v));
    }
  }

  lemma ScanProxyJumpLine(st: ScanState, v: string)
    requires st.proxyJump == "" && FieldReadsBack(v, "ProxyJump")
    ensures ScanLines(st, if v != "" then [Directive("ProxyJump", v)] else []) == Ok(st.(proxyJump := v))
  {
    if v != "" {
      assert "ProxyJump" + " " == "ProxyJump ";
      assert |"ProxyJump"| >= 2 && !IsSpace("ProxyJump"[0]);
      DirectiveReadsBack("ProxyJump", v);
      ScanProxyJump(st, Directive("ProxyJump", v), v);
      ScanOneLine(st, Directive("ProxyJump", v), st.(proxyJump := v));
    }
  }

  lemma ScanOptionalLines(st: ScanState, c: Connection)
    requires st.identityFile == "" && st.proxyJump == ""
    requires FieldReadsBack(c.identityFile, "IdentityFile") && FieldReadsBack(c.proxyJump, "ProxyJump")
    ensures ScanLines(st, OptionalLines(c)) == Ok(st.(identityFile := c.identityFile, proxyJump := c.proxyJump))
  {
    var s1 := st.(identityFile := c.identityFile);
    ScanIdentityFileLine(st, c.identityFile);
    ScanProxyJumpLine(s1, c.proxyJump);
    ScanTwo(st, if c.identityFile != "" then [Directive("IdentityFile", c.identityFile)] else [],
      if c.proxyJump != "" then [Directive("ProxyJump", c.proxyJump)] else [], s1, s1.(proxyJump := c.proxyJump));
  }

  lemma ScanLocalForwardLine(st: ScanState, f: Forward)
    requires HostReadsBack(f)
    ensures ScanLines(st, [ForwardLine("LocalForward", f)]) == Ok(st.(localForwards := st.localForwards + [f]))
  {
    var line := ForwardLine("LocalForward", f);
    ForwardLineReadsBack("LocalForward", f);
    ScanLocalForward(st, line, ForwardValue(f), f);
    ScanOneLine(st, line, st.(localForwards := st.localForwards + [f]));
  }

  lemma ScanNoForwards(st: ScanState, keyword: string)
    ensures ScanLines(st, ForwardLines(keyword, [])) == Ok(st)
  {
  }

  /** Scanning the forward lines of `fs` is scanning those of all but the
      last forward, then the last one's line. */
  lemma ScanForwardSnoc(st: ScanState, keyword: string, fs: seq<Forward>, mid: ScanState, last: ScanState)
    requires fs != []
    requires ScanLines(st, ForwardLines(keyword, fs[..|fs| - 1])) == Ok(mid)
    requires ScanLines(mid, [ForwardLine(keyword, fs[|fs| - 1])]) == Ok(last)
    ensures ScanLines(st, ForwardLines(keyword, fs)) == Ok(last)
  {
    var init, line := fs[..|fs| - 1], ForwardLine(keyword, fs[|fs| - 1]);
    assert ForwardLines(keyword, fs) == ForwardLines(keyword, init) + [line];
    ScanLinesAppend(st, ForwardLines(keyword, init), [line], mid);
  }

  /** Appending a sequence is appending all but its last element, then that. */
  lemma AppendLast<T>(a: seq<T>, s: seq<T>)
    requires s != []
    ensures a + s[..|s| - 1] + [s[|s| - 1]] == a + s
  {
    assert s[..|s| - 1] + [s[|s| - 1]] == s;
  }

  lemma ScanLocalForwardStep(st: ScanState, fs: seq<Forward>, mid: ScanState, last: ScanState)
    requires fs != [] && HostReadsBack(fs[|fs| - 1])
    requires ScanLines(st, ForwardLines("LocalForward", fs[..|fs| - 1])) == Ok(mid)
    requires last == mid.(localForwards := mid.localForwards + [fs[|fs| - 1]])
    ensures ScanLines(st, ForwardLines("LocalForward", fs)) == Ok(last)
  {
    ScanLocalForwardLine(mid, fs[|fs| - 1]);
    ScanForwardSnoc(st, "LocalForward", fs, mid, last);
  }

  /** Each local forward line appends its forward. */
  lemma ScanLocalForwardLines(st: ScanState, fs: seq<Forward>)
    requires forall i :: 0 <= i < |fs| ==> HostReadsBack(fs[i])
    ensures ScanLines(st, ForwardLines("LocalForward", fs)) == Ok(st.(localForwards := st.localForwards + fs))
    decreases |fs|
  {
    if fs == [] {
      ScanNoForwards(st, "LocalForward");
      assert st.localForwards + fs == st.localForwards;
    } else {
      var init, f := fs[..|fs| - 1], fs[|fs| - 1];
      ScanLocalForwardLines(st, init);
      var mid := st.(localForwards := st.localForwards + init);
      var last := mid.(localForwards := mid.localForwards + [f]);
      ScanLocalForwardStep(st, fs, mid, last);
      AppendLast(st.localForwards, fs);
    }
  }

  lemma ScanRemoteForwardLine(st: ScanState, f: Forward)
    requires HostReadsBack(f)
    ensures ScanLines(st, [ForwardLine("RemoteForward", f)]) == Ok(st.(remoteForwards := st.remoteForwards + [f]))
  {
    var line := ForwardLine("RemoteForward", f);
    ForwardLineReadsBack("RemoteForward", f);
    ScanRemoteForward(st, line, ForwardValue(f), f);
    ScanOneLine(st, line, st.(remoteForwards := st.remoteForwards + [f]));
  }

  lemma ScanRemoteForwardStep(st: ScanState, fs: seq<Forward>, mid: ScanState, last: ScanState)
    requires fs != [] && HostReadsBack(fs[|fs| - 1])
    requires ScanLines(st, ForwardLines("RemoteForward", fs[..|fs| - 1])) == Ok(mid)
    requires last == mid.(remoteForwards := mid.remoteForwards + [fs[|fs| - 1]])
    ensures ScanLines(st, ForwardLines("RemoteForward", fs)) == Ok(last)
  {
    ScanRemoteForwardLine(mid, fs[|fs| - 1]);
    ScanForwardSnoc(st, "RemoteForward", fs, mid, last);
  }

  /** Each remote forward line appends its forward. */
  lemma ScanRemoteForwardLines(st: ScanState, fs: seq<Forward>)
    requires forall i :: 0 <= i < |fs| ==> HostReadsBack(fs[i])
    ensures ScanLines(st, ForwardLines("RemoteForward", fs)) == Ok(st.(remoteForwards := st.remoteForwards + fs))
    decreases |fs|
  {
    if fs == [] {
      ScanNoForwards(st, "RemoteForward");
      assert st.remoteForwards + fs == st.remoteForwards;
    } else {
      var init, f := fs[..|fs| - 1], fs[|fs| - 1];
      ScanRemoteForwardLines(st, init);
      var mid := st.(remoteForwards := st.remoteForwards + init);
      var last := mid.(remoteForwards := mid.remoteForwards + [f]);
      ScanRemoteForwardStep(st, fs, mid, last);
      AppendLast(st.remoteForwards, fs);
    }
  }

  lemma KeepAliveText(keyword: string, v: string, w: string)
    requires w == keyword + " " + v
    ensures Directive(keyword, v) == Indent + w
  {
  }

  /** The three keep-alive options, as text after the indent. */
  lemma KeepAliveTexts()
    ensures KeepAliveLines == [Indent + "ServerAliveInterval 60", Indent + "ServerAliveCountMax 3",
                               Indent + "ConnectTimeout 10"]
  {
    KeepAliveText("ServerAliveInterval", "60", "ServerAliveInterval 60");
    KeepAliveText("ServerAliveCountMax", "3", "ServerAliveCountMax 3");
    KeepAliveText("ConnectTimeout", "10", "ConnectTimeout 10");
  }

  /** A keep-alive option is no directive the scanner knows. */
  lemma ScanKeepAliveLine(st: ScanState, w: string)
    requires w == "ServerAliveInterval 60" || w == "ServerAliveCountMax 3" || w == "ConnectTimeout 10"
    ensures ScanLines(st, [Indent + w]) == Ok(st)
  {
    assert w[0] == 'S' || w[0] == 'C';
    assert !IsSpace(w[|w| - 1]);
    StripIndented(Indent, w);
    ScanUnknown(st, Indent + w);
    ScanOneLine(st, Indent + w, st);
  }

  /** The keep-alive options and the empty piece after the final newline. */
  lemma ScanKeepAliveLines(st: ScanState)
    ensures ScanLines(st, KeepAliveLines + [""]) == Ok(st)
  {
    var l0, l1, l2 := Indent + "ServerAliveInterval 60", Indent + "ServerAliveCountMax 3", Indent + "ConnectTimeout 10";
    KeepAliveTexts();
    assert KeepAliveLines + [""] == [l0] + ([l1] + ([l2] + [""]));
    ScanKeepAliveLine(st, "ServerAliveInterval 60");
    ScanKeepAliveLine(st, "ServerAliveCountMax 3");
    ScanKeepAliveLine(st, "ConnectTimeout 10");
    ScanBlank(st, "");
    ScanOneLine(st, "", st);
    ScanTwo(st, [l2], [""], st, st);
    ScanTwo(st, [l1], [l2] + [""], st, st);
    ScanTwo(st, [l0], [l1] + ([l2] + [""]), st, st);
  }
  /** The metadata, header and optional lines set the scalar fields. */
  lemma ScanFront(c: Connection)
    requires RoundTrips(c)
    ensures ScanLines(InitialScan(c.name), MetadataLines(c) + HeaderLines(c) + OptionalLines(c)) ==
      Ok(ScanState(c.name, c.hostname, c.user, c.port, c.identityFile, c.proxyJump, [], []))
  {
    var m, h, o := MetadataLines(c), HeaderLines(c), OptionalLines(c);
    var s0 := InitialScan(c.name);
    var s1 := s0.(hostname := c.hostname, user := c.user, port := c.port);
    var s2 := s1.(identityFile := c.identityFile, proxyJump := c.proxyJump);
    ScanMetadataLines(s0, c);
    ScanHeaderLines(s0, c);
    ScanOptionalLines(s1, c);
    ScanTwo(s0, m, h, s0, s1);
    ScanTwo(s0, m + h, o, s1, s2);
  }

  /** The forward lines fill the two lists; the rest changes nothing. */
  lemma ScanBack(c: Connection, st: ScanState)
    requires RoundTrips(c) && st.localForwards == [] && st.remoteForwards == []
    ensures ScanLines(st, ForwardLines("LocalForward", c.localForwards)
                          + ForwardLines("RemoteForward", c.remoteForwards) + (KeepAliveLines + [""])) ==
      Ok(st.(localForwards := c.localForwards, remoteForwards := c.remoteForwards))
  {
    var lf, rf := ForwardLines("LocalForward", c.localForwards), ForwardLines("RemoteForward", c.remoteForwards);
    var s3 := st.(localForwards := c.localForwards);
    var s4 := s3.(remoteForwards := c.remoteForwards);
    ScanLocalForwardLines(st, c.localForwards);
    assert [] + c.localForwards == c.localForwards && [] + c.remoteForwards == c.remoteForwards;
    ScanRemoteForwardLines(s3, c.remoteForwards);
    ScanKeepAliveLines(s4);
    ScanTwo(st, lf, rf, s3, s4);
    ScanTwo(st, lf + rf, KeepAliveLines + [""], s4, s4);
  }

  /** The scan of the whole text: every field is set from its line. */
  lemma ScanStanza(c: Connection)
    requires RoundTrips(c)
    ensures ScanLines(InitialScan(c.name), StanzaLines(c) + [""]) ==
      Ok(ScanState(c.name, c.hostname, c.user, c.port, c.identityFile, c.proxyJump, c.localForwards, c.remoteForwards))
  {
    var front := MetadataLines(c) + HeaderLines(c) + OptionalLines(c);
    var back := ForwardLines("LocalForward", c.localForwards) + ForwardLines("RemoteForward", c.remoteForwards)
                + (KeepAliveLines + [""]);
    var mid := ScanState(c.name, c.hostname, c.user, c.port, c.identityFile, c.proxyJump, [], []);
    ScanFront(c);
    ScanBack(c, mid);
    ScanTwo(InitialScan(c.name), front, back, mid, mid.(localForwards := c.localForwards, remoteForwards := c.remoteForwards));
    StanzaPieces(c);
  }

  lemma StanzaPieces(c: Connection)
    ensures StanzaLines(c) + [""] ==
      (MetadataLines(c) + HeaderLines(c) + OptionalLines(c))
      + (ForwardLines("LocalForward", c.localForwards) + ForwardLines("RemoteForward", c.remoteForwards)
         + (KeepAliveLines + [""]))
  {
    Regroup(MetadataLines(c) + HeaderLines(c) + OptionalLines(c),
      ForwardLines("LocalForward", c.localForwards), ForwardLines("RemoteForward", c.remoteForwards),
      KeepAliveLines, [""]);
  }

  lemma Regroup(a: seq<string>, b: seq<string>, c: seq<string>, d: seq<string>, e: seq<string>)
    ensures a + b + c + d + e == a + (b + c + (d + e))
  {
    assert a + b + c + d + e == a + (b + c + d + e);
    assert b + c + d + e == b + c + (d + e);
  }
  // ---------------------------------------------------------------------
  // Line breaks and `#` in the written text
  // ---------------------------------------------------------------------

  predicate AllLack(lines: seq<string>, ch: char)
  {
    forall i :: 0 <= i < |lines| ==> Lacks(lines[i], ch)
  }

  lemma AllLackAppend(a: seq<string>, b: seq<string>, ch: char)
    requires AllLack(a, ch) && AllLack(b, ch)
    ensures AllLack(a + b, ch)
  {
    forall i | 0 <= i < |a + b| ensures Lacks((a + b)[i], ch) {
      if i >= |a| { assert (a + b)[i] == b[i - |a|]; }
    }
  }

  lemma DirectiveLacks(keyword: string, v: string, ch: char)
    requires ch != ' ' && Lacks(keyword, ch) && Lacks(v, ch)
    ensures Lacks(Directive(keyword, v), ch)
  {
    var d := Directive(keyword, v);
    assert d == Indent + keyword + " " + v;
    forall i | 0 <= i < |d| ensures d[i] != ch {
      if i < 4 { assert d[i] == ' '; }
      else if i < 4 + |keyword| { assert d[i] == keyword[i - 4]; }
      else if i > 4 + |keyword| { assert d[i] == v[i - 5 - |keyword|]; }
    }
  }

  lemma ForwardValueLacks(f: Forward, ch: char)
    requires (ch == '\n' || ch == '#') && Lacks(f.host, ch)
    ensures Lacks(ForwardValue(f), ch)
  {
    var p1, p2 := IntToString(f.port1), IntToString(f.port2);
    IntStringNoSpace(f.port1);
    IntStringNoSpace(f.port2);
    var v := ForwardValue(f);
    forall i | 0 <= i < |v| ensures v[i] != ch {
      if i < |p1| { assert v[i] == p1[i]; }
      else if |p1| < i < |p1| + 1 + |f.host| { assert v[i] == f.host[i - |p1| - 1]; }
      else if i > |p1| + 1 + |f.host| { assert v[i] == p2[i - |p1| - 2 - |f.host|]; }
    }
  }

  lemma ForwardLinesLack(keyword: string, fs: seq<Forward>, ch: char)
    requires (ch == '\n' || ch == '#') && Lacks(keyword, ch)
    requires forall i :: 0 <= i < |fs| ==> Lacks(fs[i].host, ch)
    ensures AllLack(ForwardLines(keyword, fs), ch)
  {
    if fs != [] {
      var f := fs[|fs| - 1];
      ForwardLinesLack(keyword, fs[..|fs| - 1], ch);
      ForwardValueLacks(f, ch);
      DirectiveLacks(keyword, ForwardValue(f), ch);
      AllLackAppend(ForwardLines(keyword, fs[..|fs| - 1]), [ForwardLine(keyword, f)], ch);
    }
  }

  /** The fixed lines: keep-alive options, and the Host/Port/HostName/User skeleton. */
  lemma KeepAliveLinesLack(ch: char)
    requires ch == '\n' || ch == '#'
    ensures AllLack(KeepAliveLines, ch)
  {
    KeepAliveTexts();
    var w0, w1, w2 := "ServerAliveInterval 60", "ServerAliveCountMax 3", "ConnectTimeout 10";
    TextLacks(Indent, ch);
    TextLacks(w0, ch);
    TextLacks(w1, ch);
    TextLacks(w2, ch);
    ConcatLacks(Indent, w0, ch);
    ConcatLacks(Indent, w1, ch);
    ConcatLacks(Indent, w2, ch);
    assert KeepAliveLines == [Indent + w0, Indent + w1, Indent + w2];
    forall i | 0 <= i < |KeepAliveLines| ensures Lacks(KeepAliveLines[i], ch) {
      assert i == 0 || i == 1 || i == 2;
    }
  }

  lemma HeaderLinesLack(c: Connection, ch: char)
    requires ch == '\n' || ch == '#'
    requires Lacks(c.name, ch) && Lacks(c.hostname, ch) && Lacks(c.user, ch)
    ensures AllLack(HeaderLines(c), ch)
  {
    TextLacks("Host ", ch);
    ConcatLacks("Host ", c.name, ch);
    assert HostLine(c.name) == "Host " + c.name;
    TextLacks("HostName", ch);
    DirectiveLacks("HostName", c.hostname, ch);
    TextLacks("User", ch);
    DirectiveLacks("User", c.user, ch);
    IntStringNoSpace(c.port);
    TextLacks("Port", ch);
    DirectiveLacks("Port", IntToString(c.port), ch);
    var h := HeaderLines(c);
    assert h == [HostLine(c.name), Directive("HostName", c.hostname), Directive("User", c.user),
                 Directive("Port", IntToString(c.port))];
    forall i | 0 <= i < |h| ensures Lacks(h[i], ch) {
      assert i == 0 || i == 1 || i == 2 || i == 3;
    }
  }

  /** A text lacks every character that is not in it. */
  lemma TextLacks(t: string, ch: char)
    requires ch !in t
    ensures Lacks(t, ch)
  {
    forall i | 0 <= i < |t| ensures t[i] != ch {
      assert t[i] in t;
    }
  }

  lemma MetadataLinesLack(c: Connection, ch: char)
    requires ch == '\n' || (ch == '#' && c.colorTag == "")
    requires c.colorTag != "" ==> PlainTag(c.colorTag)
    ensures AllLack(MetadataLines(c), ch)
  {
    if c.colorTag != "" {
      MetadataLineLacks(c.colorTag);
      var m := MetadataLines(c);
      assert m == [MetadataLine(c.colorTag), ""];
      forall i | 0 <= i < |m| ensures Lacks(m[i], ch) {
        assert i == 0 || i == 1;
      }
    }
  }

  lemma MetadataLineLacks(tag: string)
    requires PlainTag(tag)
    ensures Lacks(MetadataLine(tag), '\n')
  {
    assert JsonEscape(tag) == tag;
    MetadataConstantsLack();
    PlainTagLacks(tag);
    ConcatLacks(MetadataPrefix, ColorJsonOpen, '\n');
    ConcatLacks(MetadataPrefix + ColorJsonOpen, tag, '\n');
    ConcatLacks(MetadataPrefix + ColorJsonOpen + tag, ColorJsonClose, '\n');
    assert MetadataLine(tag) == MetadataPrefix + ColorJsonOpen + tag + ColorJsonClose;
  }

  lemma ConcatLacks(a: string, b: string, ch: char)
    requires Lacks(a, ch) && Lacks(b, ch)
    ensures Lacks(a + b, ch)
  {
    forall i | 0 <= i < |a + b| ensures (a + b)[i] != ch {
      if i >= |a| { assert (a + b)[i] == b[i - |a|]; }
    }
  }

  lemma PlainTagLacks(t: string)
    requires PlainTag(t)
    ensures Lacks(t, '\n')
  {
  }

  /** The fixed text around the colour tag holds no line break. */
  lemma MetadataConstantsLack()
    ensures Lacks(MetadataPrefix, '\n') && Lacks(ColorJsonOpen, '\n') && Lacks(ColorJsonClose, '\n')
  {
    assert '\n' !in MetadataPrefix && '\n' !in ColorJsonOpen && '\n' !in ColorJsonClose;
    forall i | 0 <= i < |MetadataPrefix| ensures MetadataPrefix[i] != '\n' {
      assert MetadataPrefix[i] in MetadataPrefix;
    }
    forall i | 0 <= i < |ColorJsonOpen| ensures ColorJsonOpen[i] != '\n' {
      assert ColorJsonOpen[i] in ColorJsonOpen;
    }
    forall i | 0 <= i < |ColorJsonClose| ensures ColorJsonClose[i] != '\n' {
      assert ColorJsonClose[i] in ColorJsonClose;
    }
  }

  lemma OptionalLinesLack(c: Connection, ch: char)
    requires ch == '\n' || ch == '#'
    requires Lacks(c.identityFile, ch) && Lacks(c.proxyJump, ch)
    ensures AllLack(OptionalLines(c), ch)
  {
    if c.identityFile != "" { DirectiveLacks("IdentityFile", c.identityFile, ch); }
    if c.proxyJump != "" { DirectiveLacks("ProxyJump", c.proxyJump, ch); }
  }

  /** The metadata, header and optional lines lack `ch` when the fields do. */
  lemma FrontLinesLack(c: Connection, ch: char)
    requires ch == '\n' || (ch == '#' && c.colorTag == "")
    requires c.colorTag != "" ==> PlainTag(c.colorTag)
    requires Lacks(c.name, ch) && Lacks(c.hostname, ch) && Lacks(c.user, ch)
    requires Lacks(c.identityFile, ch) && Lacks(c.proxyJump, ch)
    ensures AllLack(MetadataLines(c) + HeaderLines(c) + OptionalLines(c), ch)
  {
    MetadataLinesLack(c, ch);
    HeaderLinesLack(c, ch);
    OptionalLinesLack(c, ch);
    AllLackAppend(MetadataLines(c), HeaderLines(c), ch);
    AllLackAppend(MetadataLines(c) + HeaderLines(c), OptionalLines(c), ch);
  }

  lemma ForwardKeywordsLack(ch: char)
    requires ch == '\n' || ch == '#'
    ensures Lacks("LocalForward", ch) && Lacks("RemoteForward", ch)
  {
    TextLacks("LocalForward", ch);
    TextLacks("RemoteForward", ch);
  }

  /** The forward and keep-alive lines lack `ch` when the forward hosts do. */
  lemma BackLinesLack(c: Connection, ch: char)
    requires ch == '\n' || ch == '#'
    requires forall i :: 0 <= i < |c.localForwards| ==> Lacks(c.localForwards[i].host, ch)
    requires forall i :: 0 <= i < |c.remoteForwards| ==> Lacks(c.remoteForwards[i].host, ch)
    ensures AllLack(ForwardLines("LocalForward", c.localForwards), ch)
    ensures AllLack(ForwardLines("RemoteForward", c.remoteForwards), ch)
    ensures AllLack(KeepAliveLines, ch)
  {
    ForwardKeywordsLack(ch);
    ForwardLinesLack("LocalForward", c.localForwards, ch);
    ForwardLinesLack("RemoteForward", c.remoteForwards, ch);
    KeepAliveLinesLack(ch);
  }

  /** Every line of the stanza lacks `ch` when the fields do (and `#`
      only without a metadata comment). */
  lemma StanzaLinesLack(c: Connection, ch: char)
    requires ch == '\n' || (ch == '#' && c.colorTag == "")
    requires c.colorTag != "" ==> PlainTag(c.colorTag)
    requires Lacks(c.name, ch) && Lacks(c.hostname, ch) && Lacks(c.user, ch)
    requires Lacks(c.identityFile, ch) && Lacks(c.proxyJump, ch)
    requires forall i :: 0 <= i < |c.localForwards| ==> Lacks(c.localForwards[i].host, ch)
    requires forall i :: 0 <= i < |c.remoteForwards| ==> Lacks(c.remoteForwards[i].host, ch)
    ensures AllLack(StanzaLines(c), ch)
  {
    var front := MetadataLines(c) + HeaderLines(c) + OptionalLines(c);
    var local := ForwardLines("LocalForward", c.localForwards);
    var remote := ForwardLines("RemoteForward", c.remoteForwards);
    FrontLinesLack(c, ch);
    BackLinesLack(c, ch);
    AllLackAppend(front, local, ch);
    AllLackAppend(front + local, remote, ch);
    AllLackAppend(front + local + remote, KeepAliveLines, ch);
  }

  // ---------------------------------------------------------------------
  // The colour tag
  // ---------------------------------------------------------------------

  /** The search finds nothing in a text without the marker. */
  lemma {:induction false} MatchHasMarker(s: string)
    ensures MetadataMatch(s).Some? ==> Contains(s, Marker)
    decreases |s|
  {
    if !(Marker <= s) && s != [] {
      MatchHasMarker(s[1..]);
    }
  }

  lemma MarkerShape()
    ensures |Marker| == 25 && Marker[0] == '#' && Marker[1] == ' ' && Lacks(Marker, '\n')
  {
    assert '\n' !in Marker;
    forall i | 0 <= i < |Marker| ensures Marker[i] != '\n' {
      assert Marker[i] in Marker;
    }
  }

  /** The marker holds no line break, so it never spans two lines. */
  lemma {:induction false} MarkerAcrossBreak(a: string, b: string)
    ensures Contains(a + "\n" + b, Marker) ==> Contains(a, Marker) || Contains(b, Marker)
    decreases |a|
  {
    var s := a + "\n" + b;
    MarkerShape();
    if a == [] {
      assert s[0] == '\n' && s[1..] == b;
    } else {
      assert s[1..] == a[1..] + "\n" + b;
      MarkerAcrossBreak(a[1..], b);
      if Marker <= s {
        PrefixBeforeBreak(Marker, a, b);
      }
    }
  }

  /** A prefix without a line break ends before the first one. */
  lemma PrefixBeforeBreak(sub: string, a: string, b: string)
    requires Lacks(sub, '\n') && sub <= a + "\n" + b
    ensures sub <= a
  {
    var s := a + "\n" + b;
    assert s[|a|] == '\n';
    assert forall i :: 0 <= i < |sub| ==> sub[i] == s[i];
    assert forall i :: 0 <= i < |a| ==> s[i] == a[i];
  }

  /** Joined lines hold the marker only if one of the lines does. */
  lemma {:induction false} JoinedMarkerFree(lines: seq<string>)
    requires AllMarkerFree(lines)
    ensures MarkerFree(Join(lines, "\n"))
  {
    if |lines| > 1 {
      JoinedMarkerFree(lines[1..]);
      MarkerAcrossBreak(lines[0], Join(lines[1..], "\n"));
    } else if lines == [] {
      assert !(Marker <= "");
    }
  }

  predicate AllMarkerFree(lines: seq<string>)
  {
    forall i :: 0 <= i < |lines| ==> MarkerFree(lines[i])
  }

  lemma AllMarkerFreeAppend(a: seq<string>, b: seq<string>)
    requires AllMarkerFree(a) && AllMarkerFree(b)
    ensures AllMarkerFree(a + b)
  {
    forall i | 0 <= i < |a + b| ensures MarkerFree((a + b)[i]) {
      if i >= |a| { assert (a + b)[i] == b[i - |a|]; }
    }
  }

  /** A text without `#` keeps the marker out of whatever follows it. */
  lemma {:induction false} HashFreeFront(p: string, v: string)
    requires Lacks(p, '#') && MarkerFree(v)
    ensures MarkerFree(p + v)
    decreases |p|
  {
    MarkerShape();
    if p == [] {
      assert p + v == v;
    } else {
      assert (p + v)[0] == p[0];
      assert (p + v)[1..] == p[1..] + v;
      HashFreeFront(p[1..], v);
    }
  }

  /** A text without `#` holds no marker. */
  lemma HashFreeText(v: string)
    requires Lacks(v, '#')
    ensures MarkerFree(v)
  {
    MarkerShape();
    LacksNotContains(v, Marker);
  }

  /** A text without spaces, followed by one that neither holds `#` nor
      starts with a space, holds no marker: the marker opens with `"# "`. */
  lemma {:induction false} SpacelessMarkerFree(h: string, r: string)
    requires NoSpace(h) && Lacks(r, '#') && (r == [] || r[0] != ' ')
    ensures MarkerFree(h + r)
    decreases |h|
  {
    MarkerShape();
    if h == [] {
      assert h + r == r;
      HashFreeText(r);
    } else {
      var s := h + r;
      assert s[1..] == h[1..] + r;
      SpacelessMarkerFree(h[1..], r);
      if |s| >= 2 {
        if |h| >= 2 {
          assert s[1] == h[1] && !IsSpace(h[1]);
        } else {
          assert s[1] == r[0];
        }
      }
    }
  }

  /** A directive line holds the marker only if its value does. */
  lemma DirectiveMarkerFree(keyword: string, v: string)
    requires Lacks(keyword, '#') && MarkerFree(v)
    ensures MarkerFree(Directive(keyword, v))
  {
    var p := Indent + keyword + " ";
    TextLacks(Indent, '#');
    ConcatLacks(Indent, keyword, '#');
    TextLacks(" ", '#');
    ConcatLacks(Indent + keyword, " ", '#');
    HashFreeFront(p, v);
    assert Directive(keyword, v) == p + v;
  }

  /** A forward line never holds the marker: its host has no space. */
  lemma ForwardLineMarkerFree(keyword: string, f: Forward)
    requires Lacks(keyword, '#') && NoSpace(f.host)
    ensures MarkerFree(ForwardLine(keyword, f))
  {
    var p1, p2 := IntToString(f.port1), IntToString(f.port2);
    IntStringNoSpace(f.port1);
    IntStringNoSpace(f.port2);
    var r := ":" + p2;
    TextLacks(":", '#');
    ConcatLacks(":", p2, '#');
    assert r[0] == ':';
    SpacelessMarkerFree(f.host, r);
    TextLacks(" ", '#');
    ConcatLacks(p1, " ", '#');
    HashFreeFront(p1 + " ", f.host + r);
    assert ForwardValue(f) == (p1 + " ") + (f.host + r);
    DirectiveMarkerFree(keyword, ForwardValue(f));
  }

  lemma {:induction false} ForwardLinesMarkerFree(keyword: string, fs: seq<Forward>)
    requires Lacks(keyword, '#')
    requires forall i :: 0 <= i < |fs| ==> NoSpace(fs[i].host)
    ensures AllMarkerFree(ForwardLines(keyword, fs))
  {
    if fs != [] {
      ForwardLinesMarkerFree(keyword, fs[..|fs| - 1]);
      ForwardLineMarkerFree(keyword, fs[|fs| - 1]);
      AllMarkerFreeAppend(ForwardLines(keyword, fs[..|fs| - 1]), [ForwardLine(keyword, fs[|fs| - 1])]);
    }
  }

  /** The header and optional lines hold the marker only through a field. */
  lemma FieldLinesMarkerFree(c: Connection)
    requires MarkerFreeFields(c)
    ensures AllMarkerFree(HeaderLines(c)) && AllMarkerFree(OptionalLines(c))
  {
    TextLacks("Host ", '#');
    HashFreeFront("Host ", c.name);
    assert HostLine(c.name) == "Host " + c.name;
    TextLacks("HostName", '#');
    DirectiveMarkerFree("HostName", c.hostname);
    TextLacks("User", '#');
    DirectiveMarkerFree("User", c.user);
    IntStringNoSpace(c.port);
    HashFreeText(IntToString(c.port));
    TextLacks("Port", '#');
    DirectiveMarkerFree("Port", IntToString(c.port));
    var h := HeaderLines(c);
    forall i | 0 <= i < |h| ensures MarkerFree(h[i]) {
      assert i == 0 || i == 1 || i == 2 || i == 3;
    }
    TextLacks("IdentityFile", '#');
    TextLacks("ProxyJump", '#');
    if c.identityFile != "" { DirectiveMarkerFree("IdentityFile", c.identityFile); }
    if c.proxyJump != "" { DirectiveMarkerFree("ProxyJump", c.proxyJump); }
  }

  /** Without a colour tag, no line of the stanza holds the marker. */
  lemma StanzaMarkerFree(c: Connection)
    requires c.colorTag == "" && MarkerFreeFields(c)
    requires forall i :: 0 <= i < |c.localForwards| ==> NoSpace(c.localForwards[i].host)
    requires forall i :: 0 <= i < |c.remoteForwards| ==> NoSpace(c.remoteForwards[i].host)
    ensures AllMarkerFree(StanzaLines(c))
  {
    FieldLinesMarkerFree(c);
    TextLacks("LocalForward", '#');
    TextLacks("RemoteForward", '#');
    ForwardLinesMarkerFree("LocalForward", c.localForwards);
    ForwardLinesMarkerFree("RemoteForward", c.remoteForwards);
    KeepAliveMarkerFree();
    assert AllMarkerFree(MetadataLines(c)) by { assert MetadataLines(c) == []; }
    AllMarkerFreeSix(MetadataLines(c), HeaderLines(c), OptionalLines(c),
      ForwardLines("LocalForward", c.localForwards), ForwardLines("RemoteForward", c.remoteForwards), KeepAliveLines);
  }

  lemma KeepAliveMarkerFree()
    ensures AllMarkerFree(KeepAliveLines)
  {
    KeepAliveLinesLack('#');
    forall i | 0 <= i < |KeepAliveLines| ensures MarkerFree(KeepAliveLines[i]) {
      HashFreeText(KeepAliveLines[i]);
    }
  }

  lemma AllMarkerFreeSix(m: seq<string>, h: seq<string>, o: seq<string>, l: seq<string>, r: seq<string>, k: seq<string>)
    requires AllMarkerFree(m) && AllMarkerFree(h) && AllMarkerFree(o)
    requires AllMarkerFree(l) && AllMarkerFree(r) && AllMarkerFree(k)
    ensures AllMarkerFree(m + h + o + l + r + k)
  {
    AllMarkerFreeAppend(m, h);
    AllMarkerFreeAppend(m + h, o);
    AllMarkerFreeAppend(m + h + o, l);
    AllMarkerFreeAppend(m + h + o + l, r);
    AllMarkerFreeAppend(m + h + o + l + r, k);
  }

  /** `.` stops at the first line break. */
  lemma {:induction false} LineHeadOf(a: string, rest: string)
    requires Lacks(a, '\n')
    ensures LineHead(a + "\n" + rest) == a
  {
    if a != [] {
      assert (a + "\n" + rest)[1..] == a[1..] + "\n" + rest;
      LineHeadOf(a[1..], rest);
    }
  }

  /** `json.loads` of what `json.dumps` wrote for a plain tag. */
  lemma DecodeColorJson(tag: string)
    requires PlainTag(tag)
    ensures DecodeColor(ColorJson(tag)) == Some(tag)
  {
    var j := ColorJson(tag);
    assert j == ColorJsonOpen + tag + ColorJsonClose;
    assert j[..|ColorJsonOpen|] == ColorJsonOpen;
    assert j[|j| - |ColorJsonClose|..] == ColorJsonClose;
    assert j[|ColorJsonOpen|..|j| - |ColorJsonClose|] == tag;
  }

  /** The regular expression matches at the start: group 1 is the rest of the first line. */
  lemma MetadataMatchFirstLine(j: string, rest: string)
    requires |j| >= 2 && j[0] == '{' && j[|j| - 1] == '}' && Lacks(j, '\n')
    ensures MetadataMatch(MetadataPrefix + (j + "\n" + rest)) == Some(j)
  {
    var s := MetadataPrefix + (j + "\n" + rest);
    assert s[..|MetadataPrefix| + 1] == MetadataPrefix + "{";
    assert s[|MetadataPrefix|..] == j + "\n" + rest;
    LineHeadOf(j, rest);
    assert LastIndexOf(j, '}') == Some(|j| - 1);
    assert j[..|j|] == j;
  }

  lemma ColorJsonShape(tag: string)
    requires PlainTag(tag)
    ensures var j := ColorJson(tag); |j| >= 2 && j[0] == '{' && j[|j| - 1] == '}' && Lacks(j, '\n')
  {
    var j := ColorJson(tag);
    assert j == ColorJsonOpen + tag + ColorJsonClose;
    forall i | 0 <= i < |j| ensures j[i] != '\n' {
      if |ColorJsonOpen| <= i < |j| - 2 { assert j[i] == tag[i - |ColorJsonOpen|]; }
    }
  }

  /** A text that starts with the metadata comment of a plain tag yields that tag. */
  lemma MetadataPresent(tag: string, rest: string)
    requires tag != "" && PlainTag(tag)
    ensures MetadataColor(MetadataLine(tag) + "\n" + rest) == tag
  {
    var j := ColorJson(tag);
    ColorJsonShape(tag);
    MetadataText(tag, rest);
    MetadataMatchFirstLine(j, rest);
    DecodeColorJson(tag);
  }

  lemma MetadataText(tag: string, rest: string)
    ensures MetadataLine(tag) + "\n" + rest == MetadataPrefix + (ColorJson(tag) + "\n" + rest)
  {
  }
  // ---------------------------------------------------------------------
  // The round trip
  // ---------------------------------------------------------------------

  lemma NoLineBreaks(c: Connection)
    requires RoundTrips(c)
    ensures AllLack(StanzaLines(c), '\n')
  {
    assert forall i :: 0 <= i < |c.localForwards| ==> Lacks(c.localForwards[i].host, '\n') by {
      forall i | 0 <= i < |c.localForwards| ensures Lacks(c.localForwards[i].host, '\n') {
        assert HostReadsBack(c.localForwards[i]);
      }
    }
    assert forall i :: 0 <= i < |c.remoteForwards| ==> Lacks(c.remoteForwards[i].host, '\n') by {
      forall i | 0 <= i < |c.remoteForwards| ensures Lacks(c.remoteForwards[i].host, '\n') {
        assert HostReadsBack(c.remoteForwards[i]);
      }
    }
    StanzaLinesLack(c, '\n');
  }

  /** `content.split('\n')` gives back the written lines and the empty piece
      after the final newline. */
  lemma SplitStanza(c: Connection)
    requires RoundTrips(c)
    ensures Split(SshConfigText(c), "\n") == StanzaLines(c) + [""]
  {
    var lines := StanzaLines(c);
    NoLineBreaks(c);
    assert |lines| >= 7;
    JoinSnoc(lines, "\n", "");
    assert Join(lines + [""], "\n") == SshConfigText(c);
    assert AllLack(lines + [""], '\n') by {
      AllLackAppend(lines, [""], '\n');
    }
    SplitJoin(lines + [""], '\n');
  }

  /** Forward hosts that read back have no space. */
  lemma NoSpaceHosts(c: Connection)
    requires RoundTrips(c)
    ensures forall i :: 0 <= i < |c.localForwards| ==> NoSpace(c.localForwards[i].host)
    ensures forall i :: 0 <= i < |c.remoteForwards| ==> NoSpace(c.remoteForwards[i].host)
  {
    forall i | 0 <= i < |c.localForwards| ensures NoSpace(c.localForwards[i].host) {
      assert HostReadsBack(c.localForwards[i]);
    }
    forall i | 0 <= i < |c.remoteForwards| ensures NoSpace(c.remoteForwards[i].host) {
      assert HostReadsBack(c.remoteForwards[i]);
    }
  }

  /** The colour tag is read back from the metadata comment, or is empty. */
  lemma ColorOfText(c: Connection)
    requires RoundTrips(c)
    ensures MetadataColor(SshConfigText(c)) == c.colorTag
  {
    var lines := StanzaLines(c);
    if c.colorTag == "" {
      NoSpaceHosts(c);
      StanzaMarkerFree(c);
      JoinedMarkerFree(lines);
      MarkerAcrossBreak(Join(lines, "\n"), "");
      assert Join(lines, "\n") + "\n" + "" == SshConfigText(c);
      assert !(Marker <= "");
      MatchHasMarker(SshConfigText(c));
    } else {
      StanzaHead(c);
      JoinedAfterFirst(lines);
      MetadataPresent(c.colorTag, Join(lines[1..], "\n") + "\n");
    }
  }

  /** With a colour tag, the stanza opens with the metadata comment. */
  lemma StanzaHead(c: Connection)
    requires c.colorTag != ""
    ensures |StanzaLines(c)| >= 2 && StanzaLines(c)[0] == MetadataLine(c.colorTag)
  {
    var m := MetadataLines(c);
    assert m == [MetadataLine(c.colorTag), ""];
    var s1 := m + HeaderLines(c);
    HeadKept(m, HeaderLines(c));
    var s2 := s1 + OptionalLines(c);
    HeadKept(s1, OptionalLines(c));
    var s3 := s2 + ForwardLines("LocalForward", c.localForwards);
    HeadKept(s2, ForwardLines("LocalForward", c.localForwards));
    var s4 := s3 + ForwardLines("RemoteForward", c.remoteForwards);
    HeadKept(s3, ForwardLines("RemoteForward", c.remoteForwards));
    HeadKept(s4, KeepAliveLines);
    assert StanzaLines(c) == s4 + KeepAliveLines;
  }

  lemma HeadKept(a: seq<string>, b: seq<string>)
    requires |a| >= 2
    ensures |a + b| >= 2 && (a + b)[0] == a[0]
  {
  }

  /** A newline-terminated join is its first line, a newline, and the join of the rest. */
  lemma JoinedAfterFirst(lines: seq<string>)
    requires |lines| >= 2
    ensures Join(lines, "\n") + "\n" == lines[0] + "\n" + (Join(lines[1..], "\n") + "\n")
  {
    assert Join(lines, "\n") == lines[0] + "\n" + Join(lines[1..], "\n");
  }

  /** from_ssh_config(to_ssh_config(c), c.name, c.folder) == c */
  lemma RoundTrip(c: Connection)
    requires RoundTrips(c)
    ensures ParseConfig(SshConfigText(c), c.name, c.folder) == Ok(c)
  {
    SplitStanza(c);
    ScanStanza(c);
    ColorOfText(c);
  }
}








