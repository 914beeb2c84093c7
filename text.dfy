/** The fragment of Python's `str` semantics the program relies on:
    `strip`, `split`, `join`, `startswith`, `in`, `lower`, `int()` and `str()`
    of integers. Strings are sequences of code points. */
module Text {
  import opened Wrappers

  /** Python's `str.isspace` on a single code point. */
  predicate IsSpace(c: char)
  {
    c == ' ' || ('\t' <= c <= '\r') || ('\U{1C}' <= c <= '\U{1F}') ||
    c == '\U{85}' || c == '\U{A0}' || c == '\U{1680}' || ('\U{2000}' <= c <= '\U{200A}') ||
    c == '\U{2028}' || c == '\U{2029}' || c == '\U{202F}' || c == '\U{205F}' || c == '\U{3000}'
  }

  /** `s.lstrip()` */
  function LStrip(s: string): (r: string)
    ensures |r| <= |s| && r == s[|s| - |r|..]
    ensures r == [] || !IsSpace(r[0])
  {
    if |s| > 0 && IsSpace(s[0]) then LStrip(s[1..]) else s
  }

  /** `s.rstrip()` */
  function RStrip(s: string): (r: string)
    ensures |r| <= |s| && r == s[..|r|]
    ensures r == [] || !IsSpace(r[|r| - 1])
  {
    if |s| > 0 && IsSpace(s[|s| - 1]) then RStrip(s[..|s| - 1]) else s
  }

  /** `s.strip()` */
  function Strip(s: string): string
  {
    RStrip(LStrip(s))
  }

  /** No whitespace at either end: what `strip()` leaves. */
  predicate IsStripped(s: string)
  {
    s == [] || (!IsSpace(s[0]) && !IsSpace(s[|s| - 1]))
  }

  predicate NoSpace(s: string)
  {
    forall i :: 0 <= i < |s| ==> !IsSpace(s[i])
  }

  lemma StripResult(s: string)
    ensures IsStripped(Strip(s))
  {
    var l := LStrip(s);
    var r := RStrip(l);
    if r != [] {
      assert r == l[..|r|];
      assert r[0] == l[0];
    }
  }

  lemma StripStripped(s: string)
    requires IsStripped(s)
    ensures LStrip(s) == s && RStrip(s) == s && Strip(s) == s
  {
  }

  lemma NoSpaceStripped(s: string)
    requires NoSpace(s)
    ensures IsStripped(s)
  {
  }

  /** `lstrip` removes a run of leading spaces and stops at the first other character. */
  lemma {:induction false} LStripIndent(indent: string, w: string)
    requires forall i :: 0 <= i < |indent| ==> indent[i] == ' '
    requires w == [] || !IsSpace(w[0])
    ensures LStrip(indent + w) == w
  {
    if indent == [] {
      assert indent + w == w;
    } else {
      assert (indent + w)[1..] == indent[1..] + w;
      LStripIndent(indent[1..], w);
    }
  }

  /** Stripping a stripped text behind any run of spaces gives the text back. */
  lemma StripIndented(indent: string, w: string)
    requires forall i :: 0 <= i < |indent| ==> indent[i] == ' '
    requires IsStripped(w)
    ensures Strip(indent + w) == w
  {
    LStripIndent(indent, w);
    StripStripped(w);
  }

  /** The same with one trailing space. */
  lemma StripPadded(indent: string, w: string)
    requires forall i :: 0 <= i < |indent| ==> indent[i] == ' '
    requires w != [] && IsStripped(w)
    ensures Strip(indent + w + " ") == w
  {
    var padded := w + " ";
    assert indent + w + " " == indent + padded;
    LStripIndent(indent, padded);
    assert padded[..|padded| - 1] == w;
    assert IsSpace(padded[|padded| - 1]);
    assert RStrip(padded) == RStrip(w);
    StripStripped(w);
  }

  /** `s.strip(c)` for one character `c`. */
  function StripChar(s: string, c: char): (r: string)
    ensures r == [] || (r[0] != c && r[|r| - 1] != c)
    decreases |s|
  {
    if |s| > 0 && s[0] == c then StripChar(s[1..], c)
    else if |s| > 0 && s[|s| - 1] == c then StripChar(s[..|s| - 1], c)
    else s
  }

  /** `sub in s` */
  predicate Contains(s: string, sub: string)
  {
    sub <= s || (|s| > 0 && Contains(s[1..], sub))
  }

  /** `s.startswith(p)` */
  predicate StartsWith(s: string, p: string)
  {
    p == [] || (s != [] && s[0] == p[0] && StartsWith(s[1..], p[1..]))
  }

  /** `startswith` is the prefix relation. */
  lemma {:induction false} StartsWithPrefix(s: string, p: string)
    ensures StartsWith(s, p) <==> p <= s
  {
    if p != [] && s != [] {
      StartsWithPrefix(s[1..], p[1..]);
      assert p <= s <==> s[0] == p[0] && p[1..] <= s[1..];
    }
  }

  /** A string starts with each of its prefixes written out. */
  lemma {:induction false} StartsWithConcat(p: string, v: string)
    ensures StartsWith(p + v, p)
  {
    if p != [] {
      assert (p + v)[1..] == p[1..] + v;
      StartsWithConcat(p[1..], v);
    }
  }

  /** A string that starts with `p` agrees with `p` at each of its indices. */
  lemma {:induction false} StartsWithAt(s: string, p: string, i: nat)
    requires i < |p|
    ensures StartsWith(s, p) ==> i < |s| && s[i] == p[i]
  {
    if i > 0 && s != [] {
      StartsWithAt(s[1..], p[1..], i - 1);
    }
  }

  /** `c` does not occur in `s`. */
  predicate Lacks(s: string, c: char)
  {
    forall i :: 0 <= i < |s| ==> s[i] != c
  }

  /** A text contains whatever was placed inside it. */
  lemma {:induction false} ContainsMiddle(a: string, sub: string, b: string)
    ensures Contains(a + sub + b, sub)
  {
    if a == [] {
      assert a + sub + b == sub + b;
    } else {
      assert (a + sub + b)[1..] == a[1..] + sub + b;
      ContainsMiddle(a[1..], sub, b);
    }
  }

  /** A string without `sub[0]` cannot contain a non-empty `sub`. */
  lemma {:induction false} LacksNotContains(s: string, sub: string)
    requires sub != [] && Lacks(s, sub[0])
    ensures !Contains(s, sub)
  {
    if |s| > 0 {
      LacksNotContains(s[1..], sub);
    }
  }

  /** A string without some character of `sub` cannot contain `sub`. */
  lemma {:induction false} LacksNotContainsAt(s: string, sub: string, k: nat)
    requires k < |sub| && Lacks(s, sub[k])
    ensures !Contains(s, sub)
  {
    if |sub| <= |s| {
      assert s[k] != sub[k];
    }
    if |s| > 0 {
      LacksNotContainsAt(s[1..], sub, k);
    }
  }

  /** A keyword that ends in a space and starts with a character absent from
      `a` does not occur in `a + " " + b` when `b` has no whitespace. */
  lemma {:induction false} KeywordNotAcross(a: string, b: string, kw: string)
    requires |kw| >= 2 && kw[|kw| - 1] == ' ' && kw[0] != ' '
    requires Lacks(a, kw[0]) && NoSpace(b)
    ensures !Contains(a + " " + b, kw)
  {
    var s := a + " " + b;
    if a == [] {
      assert s == " " + b && s[1..] == b;
      LacksNotContainsAt(b, kw, |kw| - 1);
    } else {
      assert s[0] == a[0];
      assert s[1..] == a[1..] + " " + b;
      KeywordNotAcross(a[1..], b, kw);
    }
  }

  /** `s.split(sep)` for a non-empty separator: the pieces between
      non-overlapping occurrences found left to right. */
  function Split(s: string, sep: string): (r: seq<string>)
    requires sep != []
    ensures |r| >= 1
    decreases |s|
  {
    if |s| < |sep| then [s]
    else if sep <= s then [""] + Split(s[|sep|..], sep)
    else
      var t := Split(s[1..], sep);
      [[s[0]] + t[0]] + t[1..]
  }

  /** `sep.join(parts)` */
  function Join(parts: seq<string>, sep: string): string
  {
    if |parts| == 0 then ""
    else if |parts| == 1 then parts[0]
    else parts[0] + sep + Join(parts[1..], sep)
  }

  /** A joined list starts with the first character of its first part. */
  lemma JoinHead(parts: seq<string>, sep: string)
    requires parts != [] && parts[0] != ""
    ensures Join(parts, sep) != "" && Join(parts, sep)[0] == parts[0][0]
  {
  }

  /** Joining one more part appends the separator and the part. */
  lemma {:induction false} JoinSnoc(parts: seq<string>, sep: string, x: string)
    requires parts != []
    ensures Join(parts + [x], sep) == Join(parts, sep) + sep + x
  {
    if |parts| > 1 {
      assert (parts + [x])[1..] == parts[1..] + [x];
      JoinSnoc(parts[1..], sep, x);
    }
  }

  /** A character absent from the parts and the separator is absent from the join. */
  lemma {:induction false} JoinLacks(parts: seq<string>, sep: string, c: char)
    requires Lacks(sep, c) && forall i :: 0 <= i < |parts| ==> Lacks(parts[i], c)
    ensures Lacks(Join(parts, sep), c)
  {
    if |parts| > 1 {
      JoinLacks(parts[1..], sep, c);
    }
  }

  /** A string that does not contain the separator is one piece. */
  lemma {:induction false} SplitNoSep(s: string, sep: string)
    requires sep != [] && !Contains(s, sep)
    ensures Split(s, sep) == [s]
    decreases |s|
  {
    if |s| >= |sep| {
      assert !(sep <= s);
      SplitNoSep(s[1..], sep);
      assert [s[0]] + s[1..] == s;
    }
  }

  /** `p` is what follows some occurrence of `c` in `s`. */
  ghost predicate EndsAfter(s: string, c: char, p: string)
  {
    exists k :: 1 <= k <= |s| && s[k - 1] == c && p == s[k..]
  }

  /** What follows an occurrence in the tail also follows one in the whole. */
  lemma EndsAfterShift(s: string, c: char, p: string)
    requires |s| >= 1 && EndsAfter(s[1..], c, p)
    ensures EndsAfter(s, c, p)
  {
    var k :| 1 <= k <= |s[1..]| && s[1..][k - 1] == c && p == s[1..][k..];
    assert s[k] == c && s[1..][k..] == s[k + 1..];
  }

  /** The last piece of a split at one character is the whole text when
      there is one piece, and otherwise what follows an occurrence of the
      character. */
  lemma {:induction false} SplitLastPiece(s: string, c: char)
    ensures |Split(s, [c])| == 1 ==> Split(s, [c])[0] == s
    ensures |Split(s, [c])| > 1 ==> EndsAfter(s, c, Split(s, [c])[|Split(s, [c])| - 1])
    decreases |s|
  {
    if |s| >= 1 {
      var t := Split(s[1..], [c]);
      SplitLastPiece(s[1..], c);
      if [c] <= s {
        assert Split(s, [c]) == [""] + t;
        if |t| == 1 {
          assert s[0] == c && Split(s, [c])[1] == s[1..];
          assert EndsAfter(s, c, s[1..]) by { assert s[1..] == s[1..]; }
        } else {
          EndsAfterShift(s, c, t[|t| - 1]);
        }
      } else {
        assert Split(s, [c]) == [[s[0]] + t[0]] + t[1..];
        if |t| == 1 {
          assert [s[0]] + s[1..] == s;
        } else {
          EndsAfterShift(s, c, t[|t| - 1]);
        }
      }
    }
  }

  /** A string starting with the separator splits into "" and what follows. */
  lemma SplitAtPrefix(s: string, sep: string)
    requires sep != [] && sep <= s
    ensures Split(s, sep) == [""] + Split(s[|sep|..], sep)
  {
  }

  /** Splitting `sep + v` when `v` does not contain `sep` gives ["", v]. */
  lemma SplitKeyword(sep: string, v: string)
    requires sep != [] && !Contains(v, sep)
    ensures Split(sep + v, sep) == ["", v]
  {
    assert (sep + v)[|sep|..] == v;
    SplitAtPrefix(sep + v, sep);
    SplitNoSep(v, sep);
  }

  /** Splitting a one-character-separated join recovers the parts. */
  lemma {:induction false} SplitJoin(parts: seq<string>, c: char)
    requires |parts| >= 1
    requires forall i :: 0 <= i < |parts| ==> Lacks(parts[i], c)
    ensures Split(Join(parts, [c]), [c]) == parts
    decreases |parts|, |parts[0]|
  {
    var p := parts[0];
    if |parts| == 1 {
      LacksNotContains(p, [c]);
      SplitNoSep(p, [c]);
    } else if p == [] {
      var rest := Join(parts[1..], [c]);
      assert Join(parts, [c]) == [c] + rest;
      assert ([c] + rest)[1..] == rest;
      SplitJoin(parts[1..], c);
    } else {
      var s := Join(parts, [c]);
      var tail := [p[1..]] + parts[1..];
      assert s == [p[0]] + Join(tail, [c]);
      assert forall i :: 0 <= i < |tail| ==> Lacks(tail[i], c) by {
        forall i | 0 <= i < |tail| ensures Lacks(tail[i], c) {
          if i > 0 { assert tail[i] == parts[i]; }
        }
      }
      SplitJoin(tail, c);
      assert p[0] != c;
      assert s[1..] == Join(tail, [c]);
      assert [p[0]] + p[1..] == p;
    }
  }

  /** `s.strip(c)` is empty exactly when `s` is made only of `c`. */
  lemma {:induction false} StripCharEmpty(s: string, c: char)
    ensures StripChar(s, c) == [] <==> forall i :: 0 <= i < |s| ==> s[i] == c
    decreases |s|
  {
    if |s| > 0 && s[0] == c {
      StripCharEmpty(s[1..], c);
      assert forall i :: 1 <= i < |s| ==> s[i] == s[1..][i - 1];
    } else if |s| > 0 && s[|s| - 1] == c {
      StripCharEmpty(s[..|s| - 1], c);
    }
  }

  /** Rejoining the pieces of a one-character split gives the text back. */
  lemma {:induction false} JoinSplit(s: string, c: char)
    ensures Join(Split(s, [c]), [c]) == s
    decreases |s|
  {
    if |s| >= 1 {
      if [c] <= s {
        JoinSplit(s[1..], c);
        assert s == [c] + s[1..];
      } else {
        var t := Split(s[1..], [c]);
        JoinSplit(s[1..], c);
        assert s == [s[0]] + s[1..];
        if |t| > 1 {
          assert ([[s[0]] + t[0]] + t[1..])[1..] == t[1..];
        }
      }
    }
  }

  /** The pieces of a one-character split do not contain the separator. */
  lemma {:induction false} SplitLacks(s: string, c: char)
    ensures forall i :: 0 <= i < |Split(s, [c])| ==> Lacks(Split(s, [c])[i], c)
    decreases |s|
  {
    if |s| >= 1 {
      SplitLacks(s[1..], c);
      if !([c] <= s) {
        var t := Split(s[1..], [c]);
        assert s[0] != c;
        assert Lacks([s[0]] + t[0], c);
        assert forall i :: 1 <= i < |Split(s, [c])| ==> Split(s, [c])[i] == t[i];
      }
    }
  }

  /** The first piece of `a + [c] + b` split at `c` is `a` when `a` lacks `c`. */
  lemma {:induction false} SplitFirstPiece(a: string, c: char, b: string)
    requires Lacks(a, c)
    ensures Split(a + [c] + b, [c])[0] == a
    decreases |a|
  {
    if a == [] {
      assert [c] <= [c] + b;
    } else {
      assert (a + [c] + b)[0] == a[0] != c;
      assert (a + [c] + b)[1..] == a[1..] + [c] + b;
      SplitFirstPiece(a[1..], c, b);
      assert a == [a[0]] + a[1..];
    }
  }

  /** One step of a split at one character: a leading separator closes an
      empty piece; any other character opens the first piece. */
  lemma SplitStep(s: string, c: char)
    requires s != []
    ensures s[0] == c ==> Split(s, [c]) == [""] + Split(s[1..], [c])
    ensures s[0] != c ==>
      Split(s, [c]) == [[s[0]] + Split(s[1..], [c])[0]] + Split(s[1..], [c])[1..]
  {
    if s[0] == c {
      assert [c] <= s;
    } else {
      assert !([c] <= s);
    }
  }

  /** Appending text without '/' extends the last piece of a split at '/'. */
  lemma {:induction false} SplitAppend(a: string, s: string)
    requires Lacks(s, '/')
    ensures |Split(a + s, "/")| == |Split(a, "/")|
    ensures Split(a + s, "/") == Split(a, "/")[..|Split(a, "/")| - 1] + [Split(a, "/")[|Split(a, "/")| - 1] + s]
    decreases |a|
  {
    if a == [] {
      LacksNotContains(s, "/");
      SplitNoSep(s, "/");
      assert a + s == s;
    } else {
      var q := Split(a[1..], "/");
      var t := Split(a[1..] + s, "/");
      var p := Split(a, "/");
      SplitAppend(a[1..], s);
      assert (a + s)[0] == a[0] && (a + s)[1..] == a[1..] + s;
      SplitStep(a, '/');
      SplitStep(a + s, '/');
      if a[0] != '/' {
        ExtendFirstAndLast(a[0], q, s);
      } else {
        assert p == [""] + q;
        assert Split(a + s, "/") == [""] + t;
      }
    }
  }

  /** Prefixing the first piece and extending the last piece commute. */
  lemma ExtendFirstAndLast(x: char, q: seq<string>, s: string)
    requires |q| >= 1
    ensures var t := q[..|q| - 1] + [q[|q| - 1] + s];
            var p := [[x] + q[0]] + q[1..];
            [[x] + t[0]] + t[1..] == p[..|p| - 1] + [p[|p| - 1] + s]
  {
    var t := q[..|q| - 1] + [q[|q| - 1] + s];
    var p := [[x] + q[0]] + q[1..];
    if |q| == 1 {
      assert t == [q[0] + s];
      assert [x] + (q[0] + s) == ([x] + q[0]) + s;
    } else {
      assert t[0] == q[0];
      assert t[1..] == q[1..|q| - 1] + [q[|q| - 1] + s];
      assert p[..|p| - 1] == [[x] + q[0]] + q[1..|q| - 1];
      assert p[|p| - 1] == q[|q| - 1];
    }
  }

  /** Splitting at '/' a text joined with '/' splits both sides. */
  lemma {:induction false} SplitSlash(a: string, b: string)
    ensures Split(a + "/" + b, "/") == Split(a, "/") + Split(b, "/")
    decreases |a|
  {
    var s := a + "/" + b;
    if a == [] {
      assert s == "/" + b && s[0] == '/' && s[1..] == b;
      SplitStep(s, '/');
    } else {
      var t := a[1..];
      assert a == [a[0]] + t && s == [a[0]] + (t + "/" + b);
      SplitSlash(t, b);
      SplitCons(a[0], t + "/" + b, '/');
      SplitCons(a[0], t, '/');
      if a[0] != '/' {
        GlueFirst([a[0]], Split(t, "/"), Split(b, "/"));
      }
    }
  }

  /** Splitting a text with one character in front. */
  lemma SplitCons(x: char, t: string, c: char)
    ensures x == c ==> Split([x] + t, [c]) == [""] + Split(t, [c])
    ensures x != c ==> Split([x] + t, [c]) == [[x] + Split(t, [c])[0]] + Split(t, [c])[1..]
  {
    assert ([x] + t)[0] == x && ([x] + t)[1..] == t;
    SplitStep([x] + t, c);
  }

  /** Extending the first piece of `p + q` extends the first piece of `p`. */
  lemma GlueFirst(x: string, p: seq<string>, q: seq<string>)
    requires p != []
    ensures [x + (p + q)[0]] + (p + q)[1..] == ([x + p[0]] + p[1..]) + q
  {
    assert (p + q)[1..] == p[1..] + q;
  }

  /** A text starting with the separator splits into at least two pieces,
      the first of them empty. */
  lemma SplitLeading(s: string, sep: string)
    requires sep != [] && sep <= s
    ensures |Split(s, sep)| >= 2 && Split(s, sep)[0] == ""
  {
    SplitAtPrefix(s, sep);
  }

  /** `s.split(c, 1)` when `c` occurs in `s`: the text before its first
      occurrence and the text after it; None when `c` does not occur. */
  function SplitOnce(s: string, c: char): (r: Option<(string, string)>)
    ensures r.None? <==> Lacks(s, c)
    ensures r.Some? ==> s == r.value.0 + [c] + r.value.1 && Lacks(r.value.0, c)
  {
    if s == [] then None
    else if s[0] == c then Some(([], s[1..]))
    else match SplitOnce(s[1..], c)
      case None => None
      case Some((a, b)) => Some(([s[0]] + a, b))
  }

  /** The longest prefix without whitespace. */
  function Word(s: string): (w: string)
    ensures w <= s && NoSpace(w)
    ensures |w| < |s| ==> IsSpace(s[|w|])
  {
    if |s| == 0 || IsSpace(s[0]) then "" else [s[0]] + Word(s[1..])
  }

  /** `s.split()`: the maximal runs of non-whitespace. */
  function Words(s: string): (r: seq<string>)
    decreases |s|
  {
    var t := LStrip(s);
    if t == [] then []
    else
      var w := Word(t);
      [w] + Words(t[|w|..])
  }

  lemma {:induction false} WordOfNoSpace(s: string)
    requires NoSpace(s)
    ensures Word(s) == s
  {
    if |s| > 0 {
      WordOfNoSpace(s[1..]);
    }
  }

  /** A string starting with a non-space splits off its first word. */
  lemma WordsHead(s: string)
    requires s != [] && !IsSpace(s[0])
    ensures Words(s) == [Word(s)] + Words(s[|Word(s)|..])
  {
  }

  /** A whitespace-free word is a single word. */
  lemma WordsOfWord(b: string)
    requires b != [] && NoSpace(b)
    ensures Words(b) == [b]
  {
    WordOfNoSpace(b);
    WordsHead(b);
    assert b[|b|..] == [];
  }

  /** A leading space does not change the words. */
  lemma WordsAfterSpace(b: string)
    requires b != [] && NoSpace(b)
    ensures Words(" " + b) == Words(b)
  {
    var t := " " + b;
    assert t[1..] == b;
    assert LStrip(t) == LStrip(b);
  }

  /** A whitespace-free word followed by a space-led rest splits off first. */
  lemma WordsSplitFirst(a: string, b: string)
    requires a != [] && b != [] && NoSpace(a) && NoSpace(b)
    ensures Words(a + (" " + b)) == [a] + Words(" " + b)
  {
    var s := a + (" " + b);
    WordPrefix(a, " " + b);
    assert s[0] == a[0];
    WordsHead(s);
    assert s[|a|..] == " " + b;
  }

  /** Two whitespace-free words separated by one space split back into two. */
  lemma WordsOfPair(a: string, b: string)
    requires a != [] && b != [] && NoSpace(a) && NoSpace(b)
    ensures Words(a + " " + b) == [a, b]
  {
    assert a + " " + b == a + (" " + b);
    WordsSplitFirst(a, b);
    WordsAfterSpace(b);
    WordsOfWord(b);
  }

  lemma {:induction false} WordPrefix(a: string, rest: string)
    requires NoSpace(a) && rest != [] && IsSpace(rest[0])
    ensures Word(a + rest) == a
  {
    if a == [] {
    } else {
      assert (a + rest)[1..] == a[1..] + rest;
      WordPrefix(a[1..], rest);
    }
  }

  /** `s.lower()` on ASCII letters. */
  function Lower(s: string): (r: string)
    ensures |r| == |s|
  {
    if s == [] then "" else [LowerChar(s[0])] + Lower(s[1..])
  }

  function LowerChar(c: char): char
  {
    if 'A' <= c <= 'Z' then (c as int - 'A' as int + 'a' as int) as char else c
  }

  predicate IsDigit(c: char)
  {
    '0' <= c <= '9'
  }

  predicate AllDigits(s: string)
  {
    forall i :: 0 <= i < |s| ==> IsDigit(s[i])
  }

  function DigitChar(d: nat): char
    requires d < 10
  {
    ('0' as int + d) as char
  }

  /** `str(n)` for a natural number: decimal digits, no leading zeros. */
  function NatToString(n: nat): (r: string)
    ensures r != [] && AllDigits(r)
  {
    if n < 10 then [DigitChar(n)] else NatToString(n / 10) + [DigitChar(n % 10)]
  }

  /** `str(n)` */
  function IntToString(n: int): string
  {
    if n < 0 then "-" + NatToString(-n) else NatToString(n)
  }

  function DigitsValue(s: string): nat
    requires AllDigits(s)
  {
    if s == [] then 0 else DigitsValue(s[..|s| - 1]) * 10 + (s[|s| - 1] as int - '0' as int)
  }

  /** The digits of an integer literal as `int()` reads them: ASCII digits,
      with single underscores allowed between two digits. */
  predicate IsNumeral(s: string)
  {
    && s != []
    && IsDigit(s[0])
    && IsDigit(s[|s| - 1])
    && (forall i :: 0 <= i < |s| ==> IsDigit(s[i]) || s[i] == '_')
    && (forall i :: 0 <= i < |s| - 1 && s[i] == '_' ==> s[i + 1] != '_')
  }

  /** The digits of a text with its underscores dropped. */
  function DropUnderscores(s: string): (r: string)
    ensures (forall i :: 0 <= i < |s| ==> IsDigit(s[i]) || s[i] == '_') ==> AllDigits(r)
  {
    if s == [] then []
    else if s[0] == '_' then DropUnderscores(s[1..])
    else [s[0]] + DropUnderscores(s[1..])
  }

  /** The value of a numeral. */
  function NumeralValue(s: string): nat
    requires IsNumeral(s)
  {
    DigitsValue(DropUnderscores(s))
  }

  /** `int(s)` on a string: surrounding whitespace, an optional sign and a
      numeral of ASCII digits with single underscores between digits;
      anything else raises (None). */
  function ParseInt(s: string): Option<int>
  {
    var t := Strip(s);
    if |t| > 0 && (t[0] == '-' || t[0] == '+') then
      if IsNumeral(t[1..]) then
        var v: int := NumeralValue(t[1..]);
        Some(if t[0] == '-' then -v else v)
      else None
    else if IsNumeral(t) then Some(NumeralValue(t))
    else None
  }

  /** A run of digits is a numeral whose value is its digits' value. */
  lemma {:induction false} DigitsNumeral(s: string)
    requires s != [] && AllDigits(s)
    ensures IsNumeral(s) && NumeralValue(s) == DigitsValue(s)
  {
    DropNoUnderscores(s);
  }

  lemma {:induction false} DropNoUnderscores(s: string)
    requires AllDigits(s)
    ensures DropUnderscores(s) == s
  {
    if s != [] {
      assert IsDigit(s[0]);
      DropNoUnderscores(s[1..]);
    }
  }

  /** `int("2_2") == 22`: an underscore between digits is accepted. */
  lemma GroupedDigits()
    ensures ParseInt("2_2") == Some(22)
  {
    var t := "2_2";
    assert NoSpace(t);
    NoSpaceStripped(t);
    StripStripped(t);
    assert DropUnderscores(t) == "22" by {
      assert t[1..] == "_2" && t[1..][1..] == "2";
    }
    assert "22"[..1] == "2";
  }

  /** A doubled, leading or trailing underscore is refused. */
  lemma MisplacedUnderscores()
    ensures ParseInt("2__2").None? && ParseInt("_22").None? && ParseInt("22_").None?
  {
    StrippedNumeralText("2__2");
    StrippedNumeralText("_22");
    StrippedNumeralText("22_");
    assert !IsNumeral("2__2") by { assert "2__2"[1] == '_' && "2__2"[2] == '_'; }
  }

  /** Digits and underscores are left alone by `strip()`. */
  lemma StrippedNumeralText(t: string)
    requires forall i :: 0 <= i < |t| ==> IsDigit(t[i]) || t[i] == '_'
    ensures Strip(t) == t
  {
    assert NoSpace(t);
    NoSpaceStripped(t);
    StripStripped(t);
  }

  lemma {:induction false} DigitsOfNat(n: nat)
    ensures DigitsValue(NatToString(n)) == n
  {
    if n >= 10 {
      DigitsOfNat(n / 10);
      var s := NatToString(n);
      assert s[..|s| - 1] == NatToString(n / 10);
    }
  }

  lemma DigitsNoSpace(s: string)
    requires AllDigits(s)
    ensures NoSpace(s) && Lacks(s, ':') && Lacks(s, '\n') && Lacks(s, '#')
  {
    forall i | 0 <= i < |s| ensures !IsSpace(s[i]) {
      assert IsDigit(s[i]);
    }
  }

  lemma IntStringNoSpace(n: int)
    ensures NoSpace(IntToString(n)) && IntToString(n) != []
    ensures Lacks(IntToString(n), ':') && Lacks(IntToString(n), '\n')
    ensures Lacks(IntToString(n), '#')
    ensures forall i :: 0 <= i < |IntToString(n)| ==> IsDigit(IntToString(n)[i]) || IntToString(n)[i] == '-'
  {
    var d := if n < 0 then NatToString(-n) else NatToString(n);
    DigitsNoSpace(d);
    if n < 0 {
      assert IntToString(n) == "-" + d;
    }
  }

  lemma ParseNatString(n: nat)
    ensures ParseInt(IntToString(n)) == Some(n)
  {
    var s := NatToString(n);
    assert IntToString(n) == s;
    DigitsNoSpace(s);
    NoSpaceStripped(s);
    StripStripped(s);
    assert s[0] != '-' && s[0] != '+' by { assert IsDigit(s[0]); }
    DigitsNumeral(s);
    DigitsOfNat(n);
  }

  lemma ParseNegString(m: int)
    requires m < 0
    ensures ParseInt(IntToString(m)) == Some(m)
  {
    var n: nat := -m;
    var d := NatToString(n);
    var s := "-" + d;
    assert IntToString(m) == s;
    DigitsNoSpace(d);
    assert NoSpace(s);
    NoSpaceStripped(s);
    StripStripped(s);
    assert s[1..] == d;
    DigitsNumeral(d);
    DigitsOfNat(n);
  }

  /** `int(str(n)) == n` */
  lemma ParseIntToString(n: int)
    ensures ParseInt(IntToString(n)) == Some(n)
  {
    if n < 0 {
      ParseNegString(n);
    } else {
      ParseNatString(n);
    }
  }
}
