/** Terminal selection for launching `ssh <connection>` in a new window.
    Which executables are installed (`shutil.which`) is the parameter
    `available`; spawning the process is left out, only the decision of what
    to spawn is modelled. */
module TerminalLauncher {
  import opened Wrappers

  /** The supported emulators in priority order. */
  const Terminals: seq<string> :=
    ["gnome-terminal", "konsole", "xfce4-terminal", "alacritty", "kitty", "tilix", "xterm"]

  /** Argument vector of the given terminal for `ssh conn`; [] for an
      unknown terminal. */
  function TerminalCommand(terminal: string, conn: string): (r: seq<string>)
    ensures r == [] <==> terminal !in Terminals
    ensures r != [] ==> r[0] == terminal && |r| >= 2
    ensures r != [] ==> r[|r| - 1] == conn || r[|r| - 1] == SshCommand(conn)
  {
    if terminal == "gnome-terminal" then [terminal, "--", "ssh", conn]
    else if terminal == "konsole" then [terminal, "-e", "ssh", conn]
    else if terminal == "xfce4-terminal" then [terminal, "-e", SshCommand(conn)]
    else if terminal == "alacritty" then [terminal, "-e", "ssh", conn]
    else if terminal == "kitty" then [terminal, "ssh", conn]
    else if terminal == "tilix" then [terminal, "-e", SshCommand(conn)]
    else if terminal == "xterm" then [terminal, "-e", SshCommand(conn)]
    else []
  }

  /** The command a user can type by hand. */
  function SshCommand(conn: string): (r: string)
    ensures |r| == |conn| + 4 && r[..4] == "ssh " && r[4..] == conn
  {
    "ssh " + conn
  }

  /** The terminals of `ts` that are available, in the order of `ts`. */
  function AvailableIn(ts: seq<string>, available: set<string>): (r: seq<string>)
    ensures forall t :: t in r <==> t in ts && t in available
  {
    if ts == [] then []
    else if ts[0] in available then [ts[0]] + AvailableIn(ts[1..], available)
    else AvailableIn(ts[1..], available)
  }

  /** Filtering a list extended by one terminal extends the filtered list
      by that terminal when it is available. */
  lemma {:induction false} AvailableAppend(ts: seq<string>, t: string, available: set<string>)
    ensures AvailableIn(ts + [t], available) == AvailableIn(ts, available) + (if t in available then [t] else [])
  {
    if ts != [] {
      assert (ts + [t])[1..] == ts[1..] + [t];
      AvailableAppend(ts[1..], t, available);
    }
  }

  /** `sub` is `s` with some elements dropped, the rest kept in order. */
  predicate IsSubsequence(sub: seq<string>, s: seq<string>)
  {
    if sub == [] then true
    else if s == [] then false
    else if sub[0] == s[0] then IsSubsequence(sub[1..], s[1..])
    else IsSubsequence(sub, s[1..])
  }

  lemma {:induction false} AvailableSubsequence(ts: seq<string>, available: set<string>)
    ensures IsSubsequence(AvailableIn(ts, available), ts)
  {
    if ts != [] {
      AvailableSubsequence(ts[1..], available);
      var rest := AvailableIn(ts[1..], available);
      if ts[0] !in available && rest != [] {
        assert rest[0] in available;
      }
    }
  }

  /** The first available terminal of `ts`. */
  function FirstAvailable(ts: seq<string>, available: set<string>): (r: Option<string>)
  {
    if ts == [] then None
    else if ts[0] in available then Some(ts[0])
    else FirstAvailable(ts[1..], available)
  }

  /** Detection agrees with the listing: it yields the listing's head. */
  lemma {:induction false} FirstIsHeadOfAvailable(ts: seq<string>, available: set<string>)
    ensures FirstAvailable(ts, available)
      == (if AvailableIn(ts, available) == [] then None else Some(AvailableIn(ts, available)[0]))
  {
    if ts != [] && ts[0] !in available {
      FirstIsHeadOfAvailable(ts[1..], available);
    }
  }

  /** `detect_terminal`: scan the priority list for an installed emulator. */
  method DetectTerminal(available: set<string>) returns (r: Option<string>)
    ensures r.Some? ==> r.value in available
    ensures r.Some? ==>
      exists i :: 0 <= i < |Terminals| && Terminals[i] == r.value && (forall j :: 0 <= j < i ==> Terminals[j] !in available)
    ensures r.None? <==> forall t :: t in Terminals ==> t !in available
    ensures r == FirstAvailable(Terminals, available)
  {
    var i := 0;
    while i < |Terminals|
      invariant 0 <= i <= |Terminals|
      invariant forall j :: 0 <= j < i ==> Terminals[j] !in available
      invariant FirstAvailable(Terminals, available) == FirstAvailable(Terminals[i..], available)
    {
      if Terminals[i] in available {
        return Some(Terminals[i]);
      }
      assert Terminals[i..][1..] == Terminals[i + 1..];
      i := i + 1;
    }
    return None;
  }

  /** `list_available_terminals` */
  method ListAvailableTerminals(available: set<string>) returns (r: seq<string>)
    ensures r == AvailableIn(Terminals, available)
    ensures IsSubsequence(r, Terminals)
  {
    r := [];
    for i := 0 to |Terminals|
      invariant r == AvailableIn(Terminals[..i], available)
    {
      AvailableAppend(Terminals[..i], Terminals[i], available);
      assert Terminals[..i + 1] == Terminals[..i] + [Terminals[i]];
      if Terminals[i] in available {
        r := r + [Terminals[i]];
      }
    }
    assert Terminals[..|Terminals|] == Terminals;
    AvailableSubsequence(Terminals, available);
  }

  /** What `launch_ssh` does: `spawned` is the argument vector handed to the
      operating system, None when it returns False before spawning;
      `spawnSucceeds` stands for the outcome of starting that process. */
  method LaunchSsh(conn: string, terminal: Option<string>, available: set<string>, spawnSucceeds: bool)
    returns (launched: bool, spawned: Option<seq<string>>)
    ensures var chosen := if terminal.None? || terminal.value == "" then FirstAvailable(Terminals, available) else terminal;
      && (spawned.None? <==> chosen.None? || chosen.value !in Terminals)
      && (spawned.Some? ==> spawned.value == TerminalCommand(chosen.value, conn))
    ensures launched <==> spawned.Some? && spawnSucceeds
  {
    var name := terminal;
    if name.None? || name.value == "" {
      name := DetectTerminal(available);
    }
    if name.None? || name.value == "" {
      return false, None;
    }
    var command := TerminalCommand(name.value, conn);
    if command == [] {
      return false, None;
    }
    return spawnSucceeds, Some(command);
  }
}
