/** What `from_ssh_config` promises for any text, written by this program
    or not: where the name and folder come from, which fields keep their
    defaults, and that the only failure is an integer that does not parse. */
module ConnectionParsing {
  import opened Wrappers
  import opened Text
  import opened Connection

  /** A scan that starts with a name never replaces it. */
  lemma {:induction false} ScanKeepsName(st: ScanState, lines: seq<string>)
    requires st.name != "" && ScanLines(st, lines).Ok?
    ensures ScanLines(st, lines).value.name == st.name
    decreases |lines|
  {
    if lines != [] {
      LineKeepsName(st, lines[0]);
      ScanKeepsName(ScanLine(st, lines[0]).value, lines[1..]);
    }
  }

  lemma LineKeepsName(st: ScanState, raw: string)
    requires st.name != "" && ScanLine(st, raw).Ok?
    ensures ScanLine(st, raw).value.name == st.name
  {
    var line := Strip(raw);
    if line == "" || StartsWith(line, "#") {
    } else if StartsWith(line, "HostName ") {
    } else if StartsWith(line, "User ") {
    } else if StartsWith(line, "Port ") {
      assert ParseInt(ValueAfter(line, "Port ")).Some?;
    } else if StartsWith(line, "IdentityFile ") {
    } else if StartsWith(line, "ProxyJump ") {
    } else if StartsWith(line, "LocalForward ") {
      assert ParseForward(ValueAfter(line, "LocalForward ")).Ok?;
    } else if StartsWith(line, "RemoteForward ") {
      assert ParseForward(ValueAfter(line, "RemoteForward ")).Ok?;
    }
  }

  /** A parsed record is in the folder it was loaded from; a non-empty name
      argument is its name; otherwise the first `Host` value, or "unnamed". */
  lemma ParsedNameAndFolder(content: string, name: string, folder: string)
    requires ParseConfig(content, name, folder).Ok?
    ensures ParseConfig(content, name, folder).value.folder == folder
    ensures ParseConfig(content, name, folder).value.name != ""
    ensures name != "" ==> ParseConfig(content, name, folder).value.name == name
  {
    if name != "" {
      ScanKeepsName(InitialScan(name), Split(content, "\n"));
    }
  }

  /** A line that none of the scanned keywords starts (after stripping). */
  predicate Inert(raw: string)
  {
    var line := Strip(raw);
    !(StartsWith(line, "Host ")) && !(StartsWith(line, "HostName ")) && !(StartsWith(line, "User ")) && !(StartsWith(line, "Port "))
    && !(StartsWith(line, "IdentityFile ")) && !(StartsWith(line, "ProxyJump "))
    && !(StartsWith(line, "LocalForward ")) && !(StartsWith(line, "RemoteForward "))
  }

  /** Lines no keyword starts leave the scan where it was. */
  lemma {:induction false} ScanInert(st: ScanState, lines: seq<string>)
    requires forall i :: 0 <= i < |lines| ==> Inert(lines[i])
    ensures ScanLines(st, lines) == Ok(st)
    decreases |lines|
  {
    if lines != [] {
      assert ScanLine(st, lines[0]) == Ok(st);
      ScanInert(st, lines[1..]);
    }
  }

  /** Without any directive every field keeps its default: port 22, empty
      strings and empty forward lists. */
  lemma ParseDefaults(content: string, name: string, folder: string)
    requires forall i :: 0 <= i < |Split(content, "\n")| ==> Inert(Split(content, "\n")[i])
    ensures ParseConfig(content, name, folder)
      == Ok(Connection(if name == "" then "unnamed" else name, "", "", 22, "", folder, "", [], [],
                       MetadataColor(content)))
  {
    ScanInert(InitialScan(name), Split(content, "\n"));
  }

  /** The text of a failure is one `int()` rejects. */
  predicate RejectedInteger(e: ParseError)
  {
    ParseInt(e.text).None?
  }

  lemma ForwardFailure(text: string)
    ensures ParseForward(text).Err? ==> RejectedInteger(ParseForward(text).error)
  {
  }

  lemma LineFailure(st: ScanState, raw: string)
    ensures ScanLine(st, raw).Err? ==> RejectedInteger(ScanLine(st, raw).error)
  {
    var line := Strip(raw);
    if line == "" || StartsWith(line, "#") {
    } else if StartsWith(line, "Host ") && st.name == "" {
    } else if StartsWith(line, "HostName ") {
    } else if StartsWith(line, "User ") {
    } else if StartsWith(line, "Port ") {
    } else if StartsWith(line, "IdentityFile ") {
    } else if StartsWith(line, "ProxyJump ") {
    } else if StartsWith(line, "LocalForward ") {
      ForwardFailure(ValueAfter(line, "LocalForward "));
    } else if StartsWith(line, "RemoteForward ") {
      ForwardFailure(ValueAfter(line, "RemoteForward "));
    }
  }

  lemma {:induction false} LinesFailure(st: ScanState, lines: seq<string>)
    ensures ScanLines(st, lines).Err? ==> RejectedInteger(ScanLines(st, lines).error)
    decreases |lines|
  {
    if lines != [] {
      LineFailure(st, lines[0]);
      if ScanLine(st, lines[0]).Ok? {
        LinesFailure(ScanLine(st, lines[0]).value, lines[1..]);
      }
    }
  }

  /** Parsing fails only on a `Port` or forward port that is not an integer:
      malformed forwards, unknown lines and undecodable metadata never
      raise. */
  lemma ParseFailsOnlyOnIntegers(content: string, name: string, folder: string)
    ensures ParseConfig(content, name, folder).Err? ==> RejectedInteger(ParseConfig(content, name, folder).error)
  {
    LinesFailure(InitialScan(name), Split(content, "\n"));
  }
}
