/** The rules of the Add Connection dialog that do not depend on widgets:
    field validation, the options dictionary built from the form, the group
    choices, and the add/test/remove sequence of its connection test. */
module AddConnectionDialog {
  import opened Wrappers
  import opened Text
  import opened FileSystem
  import opened FileUtils
  import opened SshManager

  /** The values of the dialog's form variables. */
  datatype Form = Form(
    name: string, host: string, user: string, port: string, group: string,
    template: string, icon: string, keyFile: string,
    serverAliveInterval: string, serverAliveCountMax: string, connectTimeout: string,
    compression: string, strictHostKeyChecking: string,
    forwardX11: bool, forwardAgent: bool,
    controlMaster: string, controlPersist: string)

  /** The form as the dialog opens: empty name and host, the user from the
      environment and the widgets' default values. */
  function InitialForm(envUser: string): (f: Form)
    ensures f.name == "" && f.host == "" && f.user == envUser
  {
    Form("", "", envUser, "22", "personal", "basic-server", "💻", "~/.ssh/id_ed25519",
         "60", "3", "10", "yes", "ask", false, false, "auto", "10m")
  }

  const NameMissing: string := "Connection name is required"
  const HostMissing: string := "Hostname is required"
  const PortInvalid: string := "Port must be a number between 1 and 65535"

  /** `int(port)` succeeds and lies in 1..65535. */
  predicate PortInRange(port: string)
  {
    ParseInt(port).Some? && 1 <= ParseInt(port).value <= 65535
  }

  /** `validate_basic_fields`: None when the form passes, otherwise the
      message of the first check that fails (name, then host, then port). */
  function ValidateBasicFields(f: Form): (r: Option<string>)
    ensures r.None? <==> Strip(f.name) != "" && Strip(f.host) != "" && PortInRange(f.port)
    ensures r == Some(NameMissing) <==> Strip(f.name) == ""
    ensures r == Some(HostMissing) <==> Strip(f.name) != "" && Strip(f.host) == ""
    ensures r == Some(PortInvalid) <==> Strip(f.name) != "" && Strip(f.host) != "" && !PortInRange(f.port)
  {
    if Strip(f.name) == "" then Some(NameMissing)
    else if Strip(f.host) == "" then Some(HostMissing)
    else if !PortInRange(f.port) then Some(PortInvalid)
    else None
  }

  /** An untouched form is refused for its missing name. */
  lemma InitialFormRefused(envUser: string)
    ensures ValidateBasicFields(InitialForm(envUser)) == Some(NameMissing)
  {
    StripStripped("");
  }

  /** Once a name and a host are typed into the opened dialog, the default
      port lets the form through. */
  lemma FilledInitialFormPasses(envUser: string, name: string, host: string)
    requires Strip(name) != "" && Strip(host) != ""
    ensures ValidateBasicFields(InitialForm(envUser).(name := name, host := host)).None?
  {
    DefaultPortInRange();
  }

  lemma DefaultPortInRange()
    ensures PortInRange("22")
  {
    var t := "22";
    assert NoSpace(t);
    NoSpaceStripped(t);
    StripStripped(t);
    assert AllDigits(t);
    DigitsNumeral(t);
    assert t[..1] == "2";
    assert DigitsValue(t) == 22;
  }

  /** The keys of the dictionary `get_connection_options` returns. */
  const OptionKeys: set<string> := {
    "name", "host", "user", "port", "group", "template", "icon", "key_file",
    "server_alive_interval", "server_alive_count_max", "connect_timeout",
    "compression", "strict_host_key_checking", "forward_x11", "forward_agent",
    "control_master", "control_persist"
  }

  function YesNo(b: bool): string
  {
    if b then "yes" else "no"
  }

  /** The entry `key` of that dictionary: the field stripped, or yes/no for
      the two forwarding switches. */
  function FormValue(f: Form, key: string): string
  {
    if key == "name" then Strip(f.name)
    else if key == "host" then Strip(f.host)
    else if key == "user" then Strip(f.user)
    else if key == "port" then Strip(f.port)
    else if key == "group" then Strip(f.group)
    else if key == "template" then Strip(f.template)
    else if key == "icon" then Strip(f.icon)
    else if key == "key_file" then Strip(f.keyFile)
    else if key == "server_alive_interval" then Strip(f.serverAliveInterval)
    else if key == "server_alive_count_max" then Strip(f.serverAliveCountMax)
    else if key == "connect_timeout" then Strip(f.connectTimeout)
    else if key == "compression" then Strip(f.compression)
    else if key == "strict_host_key_checking" then Strip(f.strictHostKeyChecking)
    else if key == "forward_x11" then YesNo(f.forwardX11)
    else if key == "forward_agent" then YesNo(f.forwardAgent)
    else if key == "control_master" then Strip(f.controlMaster)
    else Strip(f.controlPersist)
  }

  /** `get_connection_options`: every key present, no forward lists. */
  function GetConnectionOptions(f: Form): (o: Options)
    ensures o.text.Keys == OptionKeys
    ensures o.localForwards == [] && o.remoteForwards == []
    ensures NameOf(o) == Strip(f.name) && GroupOf(o) == Strip(f.group)
    ensures Setting(o, "host", "") == Strip(f.host)
    ensures o.text["forward_x11"] == "yes" <==> f.forwardX11
    ensures o.text["forward_agent"] == "yes" <==> f.forwardAgent
  {
    Options(map key | key in OptionKeys :: FormValue(f, key), [], [])
  }

  /** Every value of the options is free of surrounding whitespace. */
  lemma OptionsStripped(f: Form)
    ensures forall k :: k in GetConnectionOptions(f).text ==> IsStripped(GetConnectionOptions(f).text[k])
  {
    forall k | k in OptionKeys
      ensures IsStripped(FormValue(f, k))
    {
      FormValueStripped(f, k);
    }
  }

  lemma FormValueStripped(f: Form, key: string)
    ensures IsStripped(FormValue(f, key))
  {
    if key == "name" { StripResult(f.name); }
    else if key == "host" { StripResult(f.host); }
    else if key == "user" { StripResult(f.user); }
    else if key == "port" { StripResult(f.port); }
    else if key == "group" { StripResult(f.group); }
    else if key == "template" { StripResult(f.template); }
    else if key == "icon" { StripResult(f.icon); }
    else if key == "key_file" { StripResult(f.keyFile); }
    else if key == "server_alive_interval" { StripResult(f.serverAliveInterval); }
    else if key == "server_alive_count_max" { StripResult(f.serverAliveCountMax); }
    else if key == "connect_timeout" { StripResult(f.connectTimeout); }
    else if key == "compression" { StripResult(f.compression); }
    else if key == "strict_host_key_checking" { StripResult(f.strictHostKeyChecking); }
    else if key == "forward_x11" || key == "forward_agent" { }
    else if key == "control_master" { StripResult(f.controlMaster); }
    else { StripResult(f.controlPersist); }
  }

  /** A form that passes validation yields options that pass the first
      check of `add_connection`. */
  lemma ValidatedFormHasNameAndHost(f: Form)
    requires ValidateBasicFields(f).None?
    ensures HasNameAndHost(GetConnectionOptions(f))
  {
  }

  const FallbackGroups: seq<string> := ["personal", "work", "projects"]

  /** The group choices of `load_initial_data`: the groups loaded, or the
      three defaults when loading failed or found none. */
  function GroupChoices(loaded: Result<seq<string>, Error>): (r: seq<string>)
    ensures r != []
    ensures loaded.Ok? && loaded.value != [] ==> r == loaded.value
    ensures loaded.Err? || loaded.value == [] ==> r == FallbackGroups
  {
    if loaded.Ok? && loaded.value != [] then loaded.value else FallbackGroups
  }

  /** The name under which `test_connection` adds its temporary copy. */
  function TempName(name: string): (r: string)
    ensures r != name && |r| > |name|
    ensures r[|r| - |name|..] == name
  {
    "temp_test_" + name
  }

  /** The copy of the options that `test_connection` adds: the name
      replaced by the temporary one, everything else kept. */
  function TempOptions(o: Options): (t: Options)
    requires "name" in o.text
    ensures NameOf(t) == TempName(NameOf(o)) && GroupOf(t) == GroupOf(o)
    ensures HasNameAndHost(t) <==> Setting(o, "host", "") != ""
    ensures forall k :: k != "name" ==> (k in t.text <==> k in o.text)
    ensures forall k :: k in t.text && k != "name" ==> t.text[k] == o.text[k]
    ensures t.localForwards == o.localForwards && t.remoteForwards == o.remoteForwards
  {
    o.(text := o.text["name" := TempName(o.text["name"])])
  }

  /** The outcome of the connection test as far as it is modelled: the form
      was refused, the connection was read back for testing, or an exception
      reached the dialog's handler. */
  datatype TestOutcome = Refused(message: string) | Probed(target: Probe) | Raised(error: Error)

  class AddConnectionDialog {
    const manager: SshManager
    /** `self.result`: what `add_connection` returned, once it succeeded. */
    var result: Option<(string, string)>

    /** The façade's invariant; it does not depend on the dialog's own fields. */
    ghost predicate Valid()
      reads manager, manager.utils, manager.utils.fs
    {
      manager.Valid()
    }

    constructor(manager: SshManager)
      ensures this.manager == manager && result == None
    {
      this.manager := manager;
      result := None;
    }

    /** `add_connection` of the dialog: a form that fails validation is
        refused with its message; otherwise the options are added and the
        result kept. */
    method Submit(f: Form, envUser: string) returns (r: Result<(string, string), Error>)
      requires Valid()
      modifies this, manager.utils.fs
      ensures Valid()
      ensures ValidateBasicFields(f).Some? ==>
        r == Err(ValueError(ValidateBasicFields(f).value)) && result == old(result)
        && manager.utils.fs.files == old(manager.utils.fs.files) && manager.utils.fs.dirs == old(manager.utils.fs.dirs)
      ensures r.Ok? <==> ValidateBasicFields(f).None?
                         && CanAdd(old(manager.utils.fs.files), old(manager.utils.fs.dirs), manager.utils.ManagerDir(), manager.utils.ConfigPath(),
                                   manager.templates.defaults, GetConnectionOptions(f), envUser)
      ensures r.Ok? ==> result == Some(r.value) && r.value == (Strip(f.name), Strip(f.group))
      ensures r.Err? ==> result == old(result)
      ensures r.Ok? ==> var o := GetConnectionOptions(f);
        manager.utils.ConnectionFile(GroupOf(o), NameOf(o)).Ok? && ConfigText(manager.templates.defaults, o, envUser).Ok?
      ensures r.Ok? ==> var o := GetConnectionOptions(f);
        var file := manager.utils.ConnectionFile(GroupOf(o), NameOf(o)).value;
        && manager.utils.fs.files == Integrate(old(manager.utils.fs.files)[file := ConfigText(manager.templates.defaults, o, envUser).value],
                                               manager.utils.ConfigPath(), manager.utils.ManagerDir())
        && manager.utils.fs.dirs == old(manager.utils.fs.dirs) + Prefixes(Parent(file))
    {
      var invalid := ValidateBasicFields(f);
      if invalid.Some? {
        return Err(ValueError(invalid.value));
      }
      r := AddOptions(f, envUser);
      if r.Ok? {
        result := Some(r.value);
      }
    }

    /** The manager's `add_connection` on the form's options. */
    method AddOptions(f: Form, envUser: string) returns (r: Result<(string, string), Error>)
      requires Valid()
      modifies manager.utils.fs
      ensures Valid()
      ensures r.Ok? <==> CanAdd(old(manager.utils.fs.files), old(manager.utils.fs.dirs), manager.utils.ManagerDir(), manager.utils.ConfigPath(),
                                manager.templates.defaults, GetConnectionOptions(f), envUser)
      ensures r.Ok? ==> r.value == (Strip(f.name), Strip(f.group))
      ensures r.Ok? ==> var o := GetConnectionOptions(f);
        manager.utils.ConnectionFile(GroupOf(o), NameOf(o)).Ok? && ConfigText(manager.templates.defaults, o, envUser).Ok?
      ensures r.Ok? ==> var o := GetConnectionOptions(f);
        var file := manager.utils.ConnectionFile(GroupOf(o), NameOf(o)).value;
        && manager.utils.fs.files == Integrate(old(manager.utils.fs.files)[file := ConfigText(manager.templates.defaults, o, envUser).value],
                                               manager.utils.ConfigPath(), manager.utils.ManagerDir())
        && manager.utils.fs.dirs == old(manager.utils.fs.dirs) + Prefixes(Parent(file))
    {
      r := manager.AddConnection(GetConnectionOptions(f), envUser);
    }

    /** The first step of `test_connection`: the form's options are added
        under the temporary name. */
    method AddTemporary(o: Options, envUser: string) returns (r: Result<(), Error>)
      requires Valid() && "name" in o.text && HasNameAndHost(o)
      modifies manager.utils.fs
      ensures Valid()
      ensures r.Ok? <==> CanAdd(old(manager.utils.fs.files), old(manager.utils.fs.dirs), manager.utils.ManagerDir(), manager.utils.ConfigPath(),
                                manager.templates.defaults, TempOptions(o), envUser)
      ensures r.Ok? ==> manager.Integrated()
      ensures r.Ok? ==> var text := ConfigText(manager.templates.defaults, TempOptions(o), envUser).value;
        && manager.utils.ReadConfigFile(GroupOf(o), TempName(NameOf(o))) == Ok(Some(text))
        && var file := manager.utils.ConnectionFile(GroupOf(o), TempName(NameOf(o))).value;
           && manager.utils.fs.files == Integrate(old(manager.utils.fs.files)[file := text], manager.utils.ConfigPath(), manager.utils.ManagerDir())
           && manager.utils.fs.dirs == old(manager.utils.fs.dirs) + Prefixes(Parent(file))
      ensures (old(manager.utils.ReadConfigFile(GroupOf(o), TempName(NameOf(o)))).Ok?
               && HasText(old(manager.utils.ReadConfigFile(GroupOf(o), TempName(NameOf(o)))).value)) ==>
        r == Err(Duplicate(TempName(NameOf(o)), GroupOf(o)))
        && manager.utils.fs.files == old(manager.utils.fs.files) && manager.utils.fs.dirs == old(manager.utils.fs.dirs)
    {
      var added := manager.AddConnection(TempOptions(o), envUser);
      if added.Err? {
        return Err(added.error);
      }
      return Ok(());
    }

    /** `test_connection` reaches the network: the form passes, the
        temporary copy can be added, and its text names a host. */
    predicate Probes(files: map<Path, string>, dirs: set<Path>, f: Form, envUser: string)
    {
      && ValidateBasicFields(f).None?
      && CanAdd(files, dirs, manager.utils.ManagerDir(), manager.utils.ConfigPath(),
                manager.templates.defaults, TempOptions(GetConnectionOptions(f)), envUser)
      && NamesHost(ConfigText(manager.templates.defaults, TempOptions(GetConnectionOptions(f)), envUser).value)
    }

    /** The steps of `test_connection` after the temporary connection was
        added: it is read back for testing, then removed. The file just
        written is there and ~/.ssh/config holds the Include line, so the
        removal raises nothing. */
    method ProbeAdded(name: string, group: string, ghost text: string) returns (r: TestOutcome)
      requires Valid() && manager.Integrated()
      requires manager.utils.ReadConfigFile(group, name) == Ok(Some(text)) && text != ""
      modifies manager.utils.fs
      ensures Valid()
      ensures r.Probed? <==> NamesHost(text)
      ensures r.Probed? ==> manager.utils.ReadConfigFile(group, name) == Ok(None)
      ensures r.Probed? ==> r.target.host.Some? && r.target.host.value != ""
      ensures !r.Probed? ==> r.Raised? && manager.utils.fs.files == old(manager.utils.fs.files)
                             && manager.utils.fs.dirs == old(manager.utils.fs.dirs)
    {
      var target := manager.ConnectionTarget(name, group);
      if target.Err? {
        return Raised(target.error);
      }
      ConnectionFileIsConf(manager.utils.ManagerDir(), group, name);
      var removed := manager.RemoveConnection(name, group);
      assert removed.Ok?;
      return Probed(target.value);
    }

    /** The temporary name is taken on this tree: its file reads with text. */
    predicate TempTaken(files: map<Path, string>, dirs: set<Path>, f: Form)
    {
      var read := ReadIn(files, dirs, manager.utils.ManagerDir(), Strip(f.group), TempName(Strip(f.name)));
      read.Ok? && HasText(read.value)
    }

    /** `test_connection` up to the network: the form's options are added
        under the temporary name, the connection is read back for testing,
        and the temporary connection is removed. An exception skips the
        remaining steps, so a failure after adding leaves the temporary
        connection in place. */
    method TestConnection(f: Form, envUser: string) returns (r: TestOutcome)
      requires Valid()
      modifies manager.utils.fs
      ensures Valid()
      ensures ValidateBasicFields(f).Some? ==>
        r == Refused(ValidateBasicFields(f).value)
        && manager.utils.fs.files == old(manager.utils.fs.files) && manager.utils.fs.dirs == old(manager.utils.fs.dirs)
      ensures ValidateBasicFields(f).None? && TempTaken(old(manager.utils.fs.files), old(manager.utils.fs.dirs), f) ==>
        r == Raised(Duplicate(TempName(Strip(f.name)), Strip(f.group)))
        && manager.utils.fs.files == old(manager.utils.fs.files) && manager.utils.fs.dirs == old(manager.utils.fs.dirs)
      ensures r.Probed? <==> Probes(old(manager.utils.fs.files), old(manager.utils.fs.dirs), f, envUser)
      ensures r.Probed? ==> manager.utils.ReadConfigFile(Strip(f.group), TempName(Strip(f.name))) == Ok(None)
      ensures r.Probed? ==> r.target.host.Some? && r.target.host.value != ""
    {
      var invalid := ValidateBasicFields(f);
      if invalid.Some? {
        return Refused(invalid.value);
      }
      var o := GetConnectionOptions(f);
      ValidatedFormHasNameAndHost(f);
      var added := AddTemporary(o, envUser);
      if added.Err? {
        return Raised(added.error);
      }
      ghost var text := ConfigText(manager.templates.defaults, TempOptions(o), envUser).value;
      assert text != "" by {
        assert IconLine(Setting(TempOptions(o), "icon", DefaultIcon)) <= text;
      }
      r := ProbeAdded(TempName(NameOf(o)), GroupOf(o), text);
    }
  }
}
