# ssh_manager in Dafny

This project models the logic at the core of ssh_manager, a desktop manager for OpenSSH client connections. It covers the following parts:

- **The connection record and its stanza codec** (`core/connection.py`). A `Connection` is written as one `Host` stanza of an ssh_config(5) file, read back by a line scan and checked by `validate`. These are modules `Connection`, `ConnectionParsing` and `ConnectionRoundTrip`.
- **Two configuration stores over one abstract file tree.**
  - The Qt variant (`core/config_manager.py`, module `ConfigManager`) keeps `<base>/<folder>/<name>.conf` files. It appends an `Include` block to `~/.ssh/config`.
  - The Tk back end (`src/ssh_manager/backend/file_utils.py`, module `FileUtils`) keeps group directories under `~/ssh_manager/config`. It prepends its `Include` line.
  - Both stores work on a `FileSystem.FileSystem` object: a map from path (a sequence of names) to file text, plus a set of directories.
- **The built-in templates and their substitution, and the forward formatters** (`src/ssh_manager/backend/templates.py`). This is module `Templates`.
- **The back-end façade** (`src/ssh_manager/backend/ssh_manager.py`, module `SshManager`). It covers:
  - the checks in `add_connection` and the text it writes;
  - how `list_connections` reads the icon back;
  - `remove_connection` and `update_connection`;
  - the directive scan of `test_connection`;
  - `get_ssh_manager_state`.
- **The rules inside the user interface:**
  - the edit dialog's key/value parser and its save/restore sequence (`EditConnectionDialog`);
  - the add dialog's form validation, options and test sequence (`AddConnectionDialog`);
  - the colour combo and the port-forward list of the Qt dialog (`ConnectionDialog`);
  - the handlers of the Qt main window (`MainWindow`);
  - the folder map, tree rows, filter and selection of the Qt tree (`QtFolderMap`, `QtConnectionTree`);
  - the grouping, group-node reuse, icons and selection of the Tk tree (`TkConnectionTree`).
- **Terminal selection** (`core/terminal_launcher.py`, module `TerminalLauncher`). The executables found on `PATH` are given as a set.

Helper modules:

- `Text` holds the Python string operations used: `strip`, `split`, `join`, `startswith`, `in`, `lower` (on ASCII letters), `int()` (on ASCII digits, with single underscores between digits; other scripts' digits are left out) and `str()` of integers.
- `Sorting` holds `sorted()`.
- `Wrappers` holds `Option`/`Result`.
- `FileSystem` holds the file tree and the exceptions (`ValueError`, `FileNotFoundError`, `OSError`, `IndexError`).

Operations that change state are methods of classes whose fields the source updates:

- the stores over the file tree;
- the dialogs' `result`;
- the list widget's items;
- the tree views' rows, hidden flags and item dictionaries.

Loops are methods with invariants, proved equal to a specification function. The properties the source promises are proved as lemmas about those functions.

Where the code and its documentation disagree, the model follows the code. Two examples:

- `parse_group_path` keeps `//` as an empty segment, although its comment says it is collapsed (`FileUtils.DoubleSlashKept`).
- The Tk tree drops a leading `/` of a group path (`TkConnectionTree.LeadingSlashLost`).

## Model

| member | source | states |
|---|---|---|
| Connection.NewConnection | core/connection.py:15-41 | A new record has port 22, folder "personal", no colour tag, no identity file, no jump host and no forwards |
| Text.GroupedDigits | core/connection.py:137 | `int()` accepts single underscores between digits: "2_2" reads as 22 |
| Text.MisplacedUnderscores | core/connection.py:137 | `int()` rejects a doubled, leading or trailing underscore |
| Connection.JsonEscape | core/connection.py:53-56 | `json.dumps` writes a plain ASCII tag unchanged |
| Connection.ToSshConfig | core/connection.py:43-86 | The line-appending loop produces exactly the stanza text `SshConfigText` |
| Connection.AppendForwardLines | core/connection.py:72-79 | The forward loop appends one forward line per list entry, in list order |
| Connection.StanzaFront | core/connection.py:53-70 | The metadata comment and a blank line come first exactly when the colour tag is non-empty. Then come `Host`, then `HostName`, `User` (even when empty) and `Port`, in that order. `IdentityFile` and `ProxyJump` follow, each only when set |
| Connection.StanzaLayout | core/connection.py:53-86 | The whole stanza is the front, then one `LocalForward` line per local forward in order, then one `RemoteForward` line per remote forward, then the three keep-alive lines |
| Connection.ForwardLinesAt | core/connection.py:72-79 | The i-th forward line is written from the i-th forward |
| Connection.SshConfigTextEnds | core/connection.py:85-86 | The text is the stanza lines joined by newlines, followed by a final newline |
| Connection.FromSshConfig | core/connection.py:88-176 | The scanning loop that reassigns the directive variables computes exactly `ParseConfig` |
| Connection.MetadataMatch | core/connection.py:101-107 | The regular expression's group starts with `{`, ends with `}` and stays within one line |
| Connection.DecodeColor | core/connection.py:101-107 | A decoded colour is a plain tag |
| Connection.Validate | core/connection.py:178-209 | The error-appending method returns exactly the message list `ValidationErrors` |
| Connection.ValidateEmptyIff | core/connection.py:178-209 | `validate` returns [] if and only if every rule holds: a valid name, non-empty hostname and user, a port in 1..65535, and a folder with no `..` and no leading `/` |
| Connection.ValidationNameMessages | core/connection.py:185-190 | The empty-name message appears exactly for an empty name. The bad-characters message appears exactly for a non-empty name the pattern rejects. The two never appear together |
| Connection.ValidationFieldMessages | core/connection.py:192-197 | The hostname message appears exactly for an empty hostname, and the username message exactly for an empty user |
| Connection.ValidationRangeMessages | core/connection.py:199-207 | The port message appears exactly for a port outside 1..65535, and the folder message exactly for a folder with `..` or a leading `/` |
| Connection.MessagesDistinct | core/connection.py:185-207 | The six messages are pairwise different, so each reported message names one rule |
| Connection.DictRoundTrip | core/connection.py:211-240 | `from_dict(to_dict(c)) == c` for every record |
| Connection.EmptyDictDefaults | core/connection.py:227-240 | An empty dictionary gives empty strings, port 22, folder "personal" and no forwards |
| Connection.DisplayName | core/connection.py:242-250 | The display name is the tag's emoji (the computer for any other tag), a space, then the name |
| ConnectionParsing.ScanKeepsName | core/connection.py:111-115 | Once the scan has a name, no later line replaces it |
| ConnectionParsing.ParsedNameAndFolder | core/connection.py:111-129 | A parsed record is in the folder it was loaded from and has a non-empty name. A non-empty name argument beats the `Host` line |
| ConnectionParsing.ParseDefaults | core/connection.py:111-176 | Without any directive, the port is 22, the strings are empty and the forward lists are empty |
| ConnectionParsing.ParseFailsOnlyOnIntegers | core/connection.py:101-163 | Parsing fails only on a `Port` or forward port that `int()` rejects. Malformed forwards, unknown lines and undecodable metadata never raise |
| ConnectionRoundTrip.ParseForwardRoundTrip | core/connection.py:139-163 | A written forward value reads back as the same forward when its host has no `:` or whitespace |
| ConnectionRoundTrip.SplitStanza | core/connection.py:43-100 | Splitting the written text at newlines gives the stanza lines and the empty piece after the final newline |
| ConnectionRoundTrip.ColorOfText | core/connection.py:101-107 | The metadata search on the written text finds the comment `to_ssh_config` wrote and decodes the colour tag from it. Without a tag it finds nothing, because no field holds the marker |
| ConnectionRoundTrip.ScanStanza | core/connection.py:88-176 | Scanning the written lines sets every field from its own line |
| ConnectionRoundTrip.RoundTrip | core/connection.py:43-176 | `from_ssh_config(to_ssh_config(c), c.name, c.folder) == c` holds when the fields meet the format's conditions (`RoundTrips`): no line breaks, no surrounding whitespace, no text of their own keyword, and forward hosts without `:` or whitespace. With a colour tag the tag must be plain; without one, no field may hold the metadata marker `# SSH Manager Metadata: {` that the search would find instead (`MarkerFreeFields`) |
| ConfigManager.ConfigManager.constructor | core/config_manager.py:29-43 | The base defaults to `~/ssh_manager/groups`, and the ssh directory is `~/.ssh` |
| ConfigManager.AppendIncludeSpec | core/config_manager.py:146-165 | The created and the appended config both contain the Include line. The appended config keeps the old text as a prefix |
| ConfigManager.IncludePlanSpec | core/config_manager.py:139-165 | Afterwards the config holds the Include line and keeps its old text in front. It is written exactly when it was missing or lacked the line |
| ConfigManager.IncludeIdempotent | core/config_manager.py:154-158 | A second `add_include_statement` writes nothing |
| ConfigManager.ConfigManager.AddIncludeStatement | core/config_manager.py:139-165 | The new config is the planned text, and the return value is whether it was written. A config that is a directory, or a missing `~/.ssh`, fails and changes nothing |
| ConfigManager.Inspect | core/config_manager.py:108-137 | The report of an existing config says present, and its count equals the number of listed names |
| ConfigManager.IncludeDetected | core/config_manager.py:126-128 | A config holding the Include line is reported as having it |
| ConfigManager.ConfigManager.CheckExistingSshConfig | core/config_manager.py:108-137 | An absent config is reported absent with no connections. A present one is a file. A config that is a directory raises |
| ConfigManager.InitLines | core/config_manager.py:93-104 | There is one non-empty message line per thing done, and none when nothing happened |
| ConfigManager.InitMessageQuiet | core/config_manager.py:93-104 | The message is "SSH Manager already initialized" exactly when nothing was created, backed up or added and no connection was found |
| ConfigManager.ConfigManager.MakeStructure | core/config_manager.py:66-80 | It succeeds exactly when the base is a directory or can be made, no file stands at `work` or `personal`, and `~/.ssh` is a directory or its parent is one afterwards (`CanMakeStructure`). On success `created_dirs` is whether the base was absent, and the new directories are exactly the base with its ancestors (when it was created), its `work` and `personal` folders and `~/.ssh`. No file changes |
| ConfigManager.ConfigManager.BackupOnce | core/config_manager.py:82-90 | It always succeeds. The config is copied to the backup exactly when it exists and no backup exists. Otherwise nothing changes |
| ConfigManager.ConfigManager.Initialize | core/config_manager.py:45-106 | It succeeds exactly when `MakeStructure` does and `~/.ssh/config` is not among the directories there are then. On success: the result reports whether the directories were created and whether the backup was made (keeping an existing backup); `existing_connections` counts the stripped lines starting with "Host " in the config as it was; `added_include` is whether `add_include_statement` wrote, by its plan. The new file tree is exactly the old one plus the backup (when made) with the config replaced by the planned text, which holds the Include line. The new directories are exactly those `MakeStructure` states. The message lists what was done |
| ConfigManager.ConfigManager.SaveConnection | core/config_manager.py:167-189 | An invalid record raises the joined `validate` messages and writes nothing. Saving succeeds exactly when the record is valid, no ancestor of the folder is a file and the `.conf` path is not a directory (`CanSave`). On success `<folder>/<name>.conf` holds the stanza text and nothing else changes. The folder's directories are created whenever the record is valid and no file is in their way |
| ConfigManager.ConfigManager.SavedLoads | core/config_manager.py:167-211 | Loading what `save_connection` wrote gives the record back |
| ConfigManager.ConfigManager.LoadConnection | core/config_manager.py:191-211 | A missing file, and only a missing file, raises FileNotFoundError with the source's message |
| ConfigManager.ConfigManager.ConnectionExists | core/config_manager.py:231-243 | A connection exists exactly when loading it does not raise "not found" |
| ConfigManager.ConfigManager.DeleteConnection | core/config_manager.py:213-229 | A missing file raises FileNotFoundError. Otherwise exactly that one file is removed |
| ConfigManager.Collect | core/config_manager.py:255-279 | The listed records are exactly those of the entries that load. Entries that raise are skipped |
| ConfigManager.CollectedLoads | core/config_manager.py:245-279 | Every listed record comes from a candidate `.conf` entry, and every entry that loads is listed |
| ConfigManager.ConfigManager.ListConnections | core/config_manager.py:245-279 | The listing holds the records of exactly the candidate entries that load |
| ConfigManager.ConfigManager.MoveConnection | core/config_manager.py:281-310 | A missing source or an existing destination fails with no change. Moving succeeds exactly when the source is a file, the destination does not exist, no ancestor of the new folder is a file and the destination's parent is then a directory. On success the file exists only at the destination with its text unchanged, and the record's folder is the new one. No failure changes a file |
| ConfigManager.ConfigManager.CreateFolder | core/config_manager.py:312-320 | The folder and its ancestors become directories unless one of them is a file. No file changes |
| ConfigManager.ConfigManager.DeleteFolder | core/config_manager.py:322-344 | A missing folder raises. A non-empty folder without `recursive` raises and stays intact. `recursive` removes the whole subtree |
| ConfigManager.ConfigManager.ListFolders | core/config_manager.py:346-360 | The result is sorted and lists every directory below the base, relative to it, exactly once |
| ConfigManager.AddAtFinds | core/config_manager.py:378-396 | After adding, the node at the entry's folder exists and holds the stem after what it held |
| ConfigManager.AddAtKeeps | core/config_manager.py:378-396 | Adding never removes a node or a connection elsewhere in the tree |
| ConfigManager.AddEntryListed | core/config_manager.py:378-396 | An added entry is listed, and what was listed stays listed |
| ConfigManager.BuildTree | core/config_manager.py:372-399 | Every `.conf` entry is listed by its stem at the node of its directory |
| ConfigManager.ConfigManager.GetFolderTree | core/config_manager.py:362-399 | Every `.conf` entry below the base is listed by its stem at the node of its directory |
| FileUtils.ParseGroupPath | src/ssh_manager/backend/file_utils.py:24-52 | The empty text raises the non-empty message. A parsed path's depth is its number of segments, at least one |
| FileUtils.ParseGroupPathFails | src/ssh_manager/backend/file_utils.py:30-40 | Parsing fails exactly for a text made only of slashes, with the message for that case |
| FileUtils.ParseGroupPathRebuilds | src/ssh_manager/backend/file_utils.py:34-52 | The segments rejoin to the path without its outer slashes, and none holds a `/`. The name is the last segment. `parent + "/" + name` rebuilds the path, and the parent is absent only at depth 1 |
| FileUtils.DoubleSlashKept | src/ssh_manager/backend/file_utils.py:36-42 | "a//b" parses to segments a, "", b: depth 3, parent "a/" |
| FileUtils.GroupDirIn | src/ssh_manager/backend/file_utils.py:54-57 | A group directory exists exactly for a parsable group and lies below the manager directory |
| FileUtils.ConnectionFileIn | src/ssh_manager/backend/file_utils.py:59-62 | A connection file path exists exactly for a parsable group |
| FileUtils.ReadIn | src/ssh_manager/backend/file_utils.py:96-101 | Reading gives the file's text when the file exists and None when nothing is there. It raises exactly for an unparsable group or a directory in the file's place |
| FileUtils.MakeEach | src/ssh_manager/backend/file_utils.py:75-79 | It succeeds exactly when no file stands on any path or its ancestors. On success the new directories are exactly the paths with their ancestors. No file changes |
| FileUtils.FileUtils.EnsureDirectoryStructure | src/ssh_manager/backend/file_utils.py:64-81 | It succeeds exactly when no file stands on the eight manager paths or their ancestors and `~/.ssh` is not a file. On success the new directories are exactly those paths with their ancestors and `~/.ssh`. No file changes |
| FileUtils.FileUtils.CreateSshConfigBackup | src/ssh_manager/backend/file_utils.py:83-94 | An existing backup is kept and nothing changes. Otherwise the config is copied, or an empty marker is made when there is no config. Without a backup it raises exactly when the config is a directory, or when there is no config and `~/.ssh` is missing, and then nothing changes. On success a backup exists |
| FileUtils.FileUtils.ReadConfigFile | src/ssh_manager/backend/file_utils.py:96-101 | Reading gives the connection file's text, None when there is no such file, and raises exactly for an unparsable group or a directory in its place |
| FileUtils.FileUtils.WriteConfigFile | src/ssh_manager/backend/file_utils.py:103-107 | An unparsable group raises with no change. It succeeds exactly when the group parses, no ancestor of the file's folder is a file and the file is not a directory (`CanWriteFile`). On success the file holds the content, its directories exist, and reading it gives the content back. A failure writes no file, but keeps the folders `mkdir` made before the write failed (`DirsAfterWrite`) |
| FileUtils.FileUtils.DeleteConfigFile | src/ssh_manager/backend/file_utils.py:109-113 | A missing file is silently accepted. Afterwards reading the file gives None, and nothing else changes |
| FileUtils.FileUtils.ListGroups | src/ssh_manager/backend/file_utils.py:115-127 | The result is sorted and holds every directory below the config directory, relative to it, once. It is [] when the config directory is missing |
| FileUtils.StemsListing | src/ssh_manager/backend/file_utils.py:134-140 | The result is sorted, has one stem per `.conf` entry of the directory, and holds exactly their stems |
| FileUtils.CollectStems | src/ssh_manager/backend/file_utils.py:136-139 | The loop yields one stem per entry |
| FileUtils.ConnectionsIn | src/ssh_manager/backend/file_utils.py:129-140 | An unparsable group raises its error. Otherwise the result is the group's sorted listing, one stem per `.conf` entry, [] for a missing directory |
| FileUtils.FileUtils.ListConnectionsInGroup | src/ssh_manager/backend/file_utils.py:129-140 | An unparsable group raises its error. Otherwise the result is the group's sorted listing, one stem per `.conf` entry |
| FileUtils.PlaceGroupFinds | src/ssh_manager/backend/file_utils.py:151-165 | After placing, the node reached by the group's segments exists and holds its connections |
| FileUtils.GroupAtPrefix | src/ssh_manager/backend/file_utils.py:151-162 | Every prefix of a placed group's segments has its node |
| FileUtils.PlaceGroupKeeps | src/ssh_manager/backend/file_utils.py:151-165 | Placing a group leaves every other node and its connections alone |
| FileUtils.PlaceGroupOnly | src/ssh_manager/backend/file_utils.py:153-165 | Placing a group adds nodes only along its path. A new node other than the group's own holds no connections |
| FileUtils.PlaceSpanned | src/ssh_manager/backend/file_utils.py:149-165 | Placing one more group keeps every node on the path of a group seen so far |
| FileUtils.GroupsTreeOf | src/ssh_manager/backend/file_utils.py:142-167 | The loop fails exactly when some group does not parse. Otherwise every group has a node holding a listing of a group with the same segments. Every node lies on the path of a group, and a node holding connections is a group's own node (`Spanned`) |
| FileUtils.FileUtils.GetGroupsTree | src/ssh_manager/backend/file_utils.py:142-167 | The tree fails exactly when a listed group does not parse. Otherwise every listed group has a node holding the connections of a group with its segments, and there is no node off the path of a listed group and no connections outside a group's own node |
| FileUtils.PrependIdempotent | src/ssh_manager/backend/file_utils.py:171-184 | The written config starts with the Include line and ends with the old text. A second update writes nothing |
| FileUtils.IntegrateAgain | src/ssh_manager/backend/file_utils.py:169-184 | Once the Include line is in, writing another file and updating again leaves the config as it is |
| FileUtils.FileUtils.UpdateMainSshConfig | src/ssh_manager/backend/file_utils.py:169-184 | It succeeds exactly when the config is not a directory and is a file or `~/.ssh` is a directory (`CanIntegrate`). On success the config is unchanged when it names the manager directory; otherwise the Include line is prepended, with an absent config treated as "". Afterwards the config names the directory |
| FileUtils.FileUtils.RevertTarget | src/ssh_manager/backend/file_utils.py:189-190 | Where `copy2` puts the backup: the config itself, or a file inside it when the config is a directory. Either way it lies directly in the config or in `~/.ssh` |
| FileUtils.FileUtils.RevertToOriginalConfig | src/ssh_manager/backend/file_utils.py:186-195 | A missing backup raises with no change. A non-empty backup is copied over the config, or into it under the backup's name when the config is a directory; this fails exactly when that target is a directory. An empty backup deletes the config, and fails exactly when the config is a directory |
| Templates.FormatText | src/ssh_manager/backend/templates.py:139-148 | `str.format` of a template's text equals filling its pieces |
| Templates.RenderOk | src/ssh_manager/backend/templates.py:139-148 | Filling fails exactly when a referenced key has no value, and the error names such a key |
| Templates.RenderIgnoresExtra | src/ssh_manager/backend/templates.py:139-148 | Variables the template does not mention make no difference |
| Templates.DefaultTemplateIds | src/ssh_manager/backend/templates.py:13-123 | The built-in ids are exactly basic-server, aws-ec2, jump-host and developer, each once |
| Templates.GetTemplateIn | src/ssh_manager/backend/templates.py:133-137 | A known id gives its template. Any other id gives the "not found" message |
| Templates.CreateFromTemplateSpec | src/ssh_manager/backend/templates.py:139-148 | An unknown id raises "not found". A known one fills in exactly when every key it mentions has a value, otherwise it raises "Missing template variable" for a missing key |
| Templates.Templates.constructor | src/ssh_manager/backend/templates.py:11-123 | The table is the four built-ins, listed in their order |
| Templates.Templates.GetTemplateNames | src/ssh_manager/backend/templates.py:129-131 | The listed names are exactly the ids `get_template` accepts |
| Templates.Templates.GetTemplate | src/ssh_manager/backend/templates.py:133-137 | Only the table's ids succeed. Others raise with the id in the message |
| Templates.Templates.CreateFromTemplate | src/ssh_manager/backend/templates.py:139-148 | An unknown id raises. A known one succeeds exactly when its keys all have values |
| Templates.ForwardLinesAppend | src/ssh_manager/backend/templates.py:155-161 | Formatting distributes over concatenation of the entry list, so lines keep input order |
| Templates.ForwardLinesSingle | src/ssh_manager/backend/templates.py:155-161 | One entry yields its one line exactly when both ports are set |
| Templates.ForwardLinesEmpty | src/ssh_manager/backend/templates.py:152-163 | There is no line at all exactly when no entry has both ports |
| Templates.FormatForwards | src/ssh_manager/backend/templates.py:150-178 | The shared loop joins the qualifying entries' lines with newlines |
| Templates.FormatPortForwards | src/ssh_manager/backend/templates.py:150-163 | The result is the `LocalForward` lines joined by newlines |
| Templates.FormatRemoteForwards | src/ssh_manager/backend/templates.py:165-177 | The result is the `RemoteForward` lines joined by newlines |
| Templates.FormattedForwards | src/ssh_manager/backend/templates.py:150-163 | The text is "" exactly when no entry qualifies. Otherwise splitting it at newlines gives back one line per qualifying entry |
| Templates.LinesLackNewline | src/ssh_manager/backend/templates.py:155-161 | Every formatted line is non-empty and holds no newline |
| TerminalLauncher.TerminalCommand | core/terminal_launcher.py:66-80 | An unknown terminal gives []. A known one gives a vector starting with its own name and ending with the connection or `ssh <conn>` |
| TerminalLauncher.SshCommand | core/terminal_launcher.py:124-134 | The command is "ssh " followed by the connection name |
| TerminalLauncher.AvailableIn | core/terminal_launcher.py:150-161 | A terminal is listed exactly when it is in the priority list and available |
| TerminalLauncher.AvailableAppend | core/terminal_launcher.py:157-160 | Filtering a list extended by one terminal extends the filtered list by that terminal exactly when it is available |
| TerminalLauncher.AvailableSubsequence | core/terminal_launcher.py:150-161 | The listing keeps the priority order |
| TerminalLauncher.FirstIsHeadOfAvailable | core/terminal_launcher.py:53-63 | Detection yields the head of the available listing |
| TerminalLauncher.DetectTerminal | core/terminal_launcher.py:53-63 | The result is available and preceded by no available terminal. It is None exactly when none is available |
| TerminalLauncher.ListAvailableTerminals | core/terminal_launcher.py:150-161 | The loop appends the available terminals in priority order; the result equals `AvailableIn` and is a subsequence of the priority list |
| TerminalLauncher.LaunchSsh | core/terminal_launcher.py:83-108 | Nothing is spawned when no terminal is given or detected, or it is unknown. Otherwise its command for the connection is spawned, and the launch succeeds exactly when the spawn does |
| SshManager.Variables | src/ssh_manager/backend/ssh_manager.py:87-109 | The template variables are exactly the supplied names |
| SshManager.VariableLines | src/ssh_manager/backend/ssh_manager.py:87-109 | `user_line` is `    User <user>` for a non-empty user and "" otherwise. The forward variables are empty exactly when no entry qualifies. The dynamic forward line is empty exactly when the option is |
| SshManager.BuiltinKeys | src/ssh_manager/backend/templates.py:13-123 | Each built-in template mentions only variables `add_connection` supplies |
| SshManager.DefaultsFillable | src/ssh_manager/backend/ssh_manager.py:87-117 | Every built-in template can be filled from the variables of `add_connection` |
| SshManager.VariablesFillTemplates | src/ssh_manager/backend/ssh_manager.py:87-117 | With those variables, filling fails only for an unknown template name |
| SshManager.ConfigText | src/ssh_manager/backend/ssh_manager.py:111-117 | The written text starts with the icon line. It exists exactly when the template name is known |
| SshManager.IconOf | src/ssh_manager/backend/ssh_manager.py:134-145 | Missing content, or a first line not starting with the icon comment, gives the computer icon. Only a text starting with the comment can raise |
| SshManager.IconReadBack | src/ssh_manager/backend/ssh_manager.py:111-145 | An icon without a newline or marker text is read back from any text whose first line `add_connection` wrote |
| SshManager.WrittenIconReadBack | src/ssh_manager/backend/ssh_manager.py:111-145 | `list_connections` reports the icon `add_connection` was given |
| SshManager.IconWithoutSpace | src/ssh_manager/backend/ssh_manager.py:138-140 | A first line with the comment but without the marker's space makes the lookup raise IndexError |
| SshManager.EntryIn | src/ssh_manager/backend/ssh_manager.py:134-145 | An entry carries its name and group, the content read and the icon read back from it |
| SshManager.EntriesOf | src/ssh_manager/backend/ssh_manager.py:132-146 | There is one entry per listed name, in order. A failure is the failure of one of them |
| SshManager.ListIn | src/ssh_manager/backend/ssh_manager.py:124-147 | Every entry is reportable and from a scanned group. Every connection of a scanned group is covered. On success there are exactly as many entries as `.conf` entries in the scanned groups' directories, counted once per scan (`TotalListed`). The loop succeeds exactly when every group parses and each of its connections reads with a readable icon line (`Listable`). Otherwise the error is one of those groups' errors |
| SshManager.SshManager.ListConnections | src/ssh_manager/backend/ssh_manager.py:124-147 | The groups scanned are the filter alone, or the sorted groups `list_groups` gives when there is no filter. Each connection of a scanned group is covered, and on success there is one entry per `.conf` entry of each scanned group (`TotalListed`). The listing succeeds exactly when every scanned group is `Listable`, and an unparsable filter raises |
| SshManager.SshManager.AddConnection | src/ssh_manager/backend/ssh_manager.py:46-122 | It succeeds exactly when name and host are given, the file reads and holds no text, the template fills, and the file can be written and the config updated (`CanAdd`). A missing name or host raises before any file is touched. An existing non-empty file raises "already exists" and writes nothing. On success the file holds the icon line and the filled template, and the config includes the manager directory. Past the checks, a failure leaves what was done before it: the folders made, and the written file when only the config update failed (`AfterWriteAndIntegrate`) |
| SshManager.SshManager.WriteAndIntegrate | src/ssh_manager/backend/ssh_manager.py:111-120 | It succeeds exactly when the group parses, the file can be written, and the config can then be updated (`CanWriteAndIntegrate`). On success the file reads back as the text, and the config includes the manager directory. The new file tree is exactly the old one with that file written and the config updated by `update_main_ssh_config`. The only new directories are the file's folder and its ancestors. A failed config update leaves the file written, and a failed write leaves the folders `mkdir` made (`AfterWriteAndIntegrate`) |
| SshManager.SshManager.RemoveConnection | src/ssh_manager/backend/ssh_manager.py:149-152 | An unparsable group raises with no change. It succeeds exactly when the group parses, the file is not a directory and the config can be updated afterwards (`CanRemove`). On success the file reads as absent and the config includes the manager directory. The new file tree is exactly the old one without that file, with the config updated. No directory changes |
| SshManager.Merged | src/ssh_manager/backend/ssh_manager.py:163-168 | The options are name and group, overridden key by key by the updates. The forward lists come from the updates |
| SshManager.StateIn | src/ssh_manager/backend/ssh_manager.py:308-322 | The state is integrated exactly when the config is a file naming the manager directory. The backup path is reported exactly when the backup exists. A config that is a directory raises |
| SshManager.SshManager.State | src/ssh_manager/backend/ssh_manager.py:308-322 | `get_ssh_manager_state` on the manager's files: integrated exactly when `~/.ssh/config` names the manager directory, backup reported exactly when it exists |
| SshManager.SshManager.UpdateConnection | src/ssh_manager/backend/ssh_manager.py:154-169 | A connection that is missing or empty raises "not found" and nothing changes. It succeeds exactly when the connection has text, its removal succeeds, and adding the merged options then succeeds on the tree the removal leaves. On success the new file tree is exactly the old one without the original file, with the config updated and the merged options' file holding their text. So the original file is gone when the name or group changed |
| SshManager.Scan | src/ssh_manager/backend/ssh_manager.py:178-192 | The loop over the content's lines computes the directive scan `ProbeLines` |
| SshManager.ScanLines | src/ssh_manager/backend/ssh_manager.py:178-192 | The loop computes the directive scan over the given lines |
| SshManager.HostNameLastWins | src/ssh_manager/backend/ssh_manager.py:180-183 | The last `HostName` line decides the host |
| SshManager.PortDefault | src/ssh_manager/backend/ssh_manager.py:176-187 | Without a `Port` line the scan cannot fail, and the port keeps its default |
| SshManager.ProbeFailureSticks | src/ssh_manager/backend/ssh_manager.py:178-192 | Once a prefix of the lines fails, the whole scan fails with the same error |
| SshManager.SshManager.ConnectionTarget | src/ssh_manager/backend/ssh_manager.py:171-195 | An absent or empty config raises "not found". It succeeds exactly when the file has text whose scan succeeds with a non-empty host (`NamesHost`), and then returns the scan's result. A missing or empty host raises "Could not parse hostname" |
| EditConnectionDialog.LineEntry | src/ssh_manager/gui/dialogs/edit_connection.py:103-120 | A line contributes nothing exactly when, stripped, it is blank, a comment, a `Host ` line or has no space. Otherwise it contributes a key and a stripped value |
| EditConnectionDialog.ParseSshConfig | src/ssh_manager/gui/dialogs/edit_connection.py:99-122 | The loop computes the dictionary of the text's lines |
| EditConnectionDialog.ParsedKeys | src/ssh_manager/gui/dialogs/edit_connection.py:103-120 | A key is present exactly when some line contributes it |
| EditConnectionDialog.LastWins | src/ssh_manager/gui/dialogs/edit_connection.py:120 | A later line with the same key overwrites an earlier one |
| EditConnectionDialog.DirectiveEntry | src/ssh_manager/gui/dialogs/edit_connection.py:115-120 | An indented `Keyword value` line yields the keyword in lower case with the value |
| EditConnectionDialog.Get | src/ssh_manager/gui/dialogs/edit_connection.py:79-97 | A present key gives its value, an absent one the default |
| EditConnectionDialog.PopulateForm | src/ssh_manager/gui/dialogs/edit_connection.py:65-97 | Name, group and icon come from the entry. Host and port come from the dictionary with defaults "" and "22". X11 and agent forwarding are on exactly when the value lower-cased is "yes". An entry without text fails |
| EditConnectionDialog.PopulatedHost | src/ssh_manager/gui/dialogs/edit_connection.py:79-120 | The host field shows the value of the last `HostName` line |
| EditConnectionDialog.EditConnectionDialog.constructor | src/ssh_manager/gui/dialogs/edit_connection.py:12-18 | The dialog starts with no result |
| EditConnectionDialog.EditConnectionDialog.Replace | src/ssh_manager/gui/dialogs/edit_connection.py:166-175 | The original is removed and the form's options are added. It succeeds exactly when the removal can succeed and the add can then succeed on the tree it leaves (`CanReplace`). On success the new file tree is exactly the old one without the original file, with the config updated and the new file holding the options' text. It returns the stripped name and group, and the config includes the manager directory |
| EditConnectionDialog.EditConnectionDialog.Restore | src/ssh_manager/gui/dialogs/edit_connection.py:180-188 | The restore succeeds exactly when there is an original text and it can be written with the config updated. On success the file holds that text, the config is updated, and nothing else changes. A swallowed failure leaves what the write had done (`AfterWriteAndIntegrate`). Without an original text, nothing changes |
| EditConnectionDialog.EditConnectionDialog.SaveChanges | src/ssh_manager/gui/dialogs/edit_connection.py:161-188 | A refused form changes nothing. It saves exactly when the form passes and `Replace` can succeed. Success records the stripped name and group as the result, and the file tree is as `Replace` states. On failure the result is unchanged, and a restore puts back the original text |
| AddConnectionDialog.InitialForm | src/ssh_manager/gui/dialogs/add_connection.py:12-31 | The dialog opens with empty name and host, and the user from the environment |
| AddConnectionDialog.ValidateBasicFields | src/ssh_manager/gui/dialogs/add_connection.py:303-321 | The form passes exactly when the stripped name and host are non-empty and the port parses in 1..65535. Otherwise the first failing check's message is reported |
| AddConnectionDialog.InitialFormRefused | src/ssh_manager/gui/dialogs/add_connection.py:303-307 | An untouched form is refused for its missing name |
| AddConnectionDialog.FilledInitialFormPasses | src/ssh_manager/gui/dialogs/add_connection.py:303-321 | With a name and a host typed in, the default port lets the form through |
| AddConnectionDialog.GetConnectionOptions | src/ssh_manager/gui/dialogs/add_connection.py:323-343 | Every option key is present, and name, group and host are the stripped fields. X11 and agent forwarding map to "yes" exactly when set |
| AddConnectionDialog.OptionsStripped | src/ssh_manager/gui/dialogs/add_connection.py:323-343 | Every option value is free of surrounding whitespace |
| AddConnectionDialog.ValidatedFormHasNameAndHost | src/ssh_manager/gui/dialogs/add_connection.py:303-345 | A validated form passes the name/host check of `add_connection` |
| AddConnectionDialog.GroupChoices | src/ssh_manager/gui/dialogs/add_connection.py:245-254 | The loaded groups, or personal, work and projects when loading failed or found none |
| AddConnectionDialog.TempName | src/ssh_manager/gui/dialogs/add_connection.py:284 | The temporary name differs from the name and ends with it |
| AddConnectionDialog.TempOptions | src/ssh_manager/gui/dialogs/add_connection.py:282-284 | Only the name changes, to the temporary one |
| AddConnectionDialog.AddConnectionDialog.constructor | src/ssh_manager/gui/dialogs/add_connection.py:12-31 | The dialog starts with no result |
| AddConnectionDialog.AddConnectionDialog.Submit | src/ssh_manager/gui/dialogs/add_connection.py:345-358 | A refused form raises its message with no change. It succeeds exactly when the form passes and the add can succeed. Success stores the stripped name and group as the result. The new file tree is then exactly the old one with the options' file written and the config updated |
| AddConnectionDialog.AddConnectionDialog.AddOptions | src/ssh_manager/gui/dialogs/add_connection.py:345-352 | It succeeds exactly when the manager's add can succeed on the form's options. Success returns the stripped name and group. The new file tree is exactly the old one with the options' file written and the config updated |
| AddConnectionDialog.AddConnectionDialog.AddTemporary | src/ssh_manager/gui/dialogs/add_connection.py:286-287 | It succeeds exactly when the add can succeed on the options under the temporary name. An existing temporary connection makes the add raise "already exists" with no change. On success the temporary file reads back as its text, and the file tree is exactly the old one with it written and the config updated |
| AddConnectionDialog.AddConnectionDialog.ProbeAdded | src/ssh_manager/gui/dialogs/add_connection.py:289-293 | Right after the add, the test reaches the network exactly when the temporary text names a host, and the removal then always succeeds, leaving the file absent. Otherwise the error is raised with no change |
| AddConnectionDialog.AddConnectionDialog.TestConnection | src/ssh_manager/gui/dialogs/add_connection.py:276-301 | A refused form changes nothing. An existing temporary name raises with no change. The test reaches the network exactly when the form passes, the temporary copy can be added, and its text names a host. After a test the temporary connection is gone, and the target has a host |
| ConnectionDialog.ColorIndex | ui/connection_dialog.py:225-231 | production, staging and development give 1, 2 and 3. Anything else gives 0 |
| ConnectionDialog.ColorTag | ui/connection_dialog.py:287-289 | Each index maps to one of "", production, staging and development |
| ConnectionDialog.TagIndexTag | ui/connection_dialog.py:225-289 | Tag to index to tag is the identity on the four tags |
| ConnectionDialog.IndexTagIndex | ui/connection_dialog.py:225-289 | Index to tag to index is the identity on the four indices |
| ConnectionDialog.UnknownTagCleared | ui/connection_dialog.py:225-289 | Any other tag is saved back as "" |
| ConnectionDialog.ItemForwards | ui/connection_dialog.py:40-46 | One forward per item, in list order |
| ConnectionDialog.PortForwardWidget.constructor | ui/connection_dialog.py:25-27 | The list starts empty, with its direction |
| ConnectionDialog.PortForwardWidget.AddForward | ui/connection_dialog.py:29-38 | Exactly one item holding the forward is appended |
| ConnectionDialog.PortForwardWidget.GetForwards | ui/connection_dialog.py:40-46 | The forwards of the items, in insertion order |
| ConnectionDialog.PortForwardWidget.RemoveSelected | ui/connection_dialog.py:48-52 | The current row is removed when it is at least 0. Otherwise nothing changes |
| ConnectionDialog.RemovedForward | ui/connection_dialog.py:48-52 | Removing a row drops exactly that forward, and the others keep their order |
| ConnectionDialog.GetForward | ui/connection_dialog.py:392-397 | Both ports are those of the spin boxes, in 1..65535, and the host is stripped |
| ConnectionDialog.ForwardDefaults | ui/connection_dialog.py:350-390 | The forward dialog opens with two valid ports and host localhost |
| ConnectionDialog.SpinValue | ui/connection_dialog.py:350-390 | A spin box holds a value in 1..65535 and keeps one already in range |
| ConnectionDialog.LoadFields | ui/connection_dialog.py:208-231 | Name, hostname and folder are loaded unchanged, and the port and colour index are in range |
| ConnectionDialog.BuildConnection | ui/connection_dialog.py:291-313 | Every text field is stripped, the lists are the widgets' forwards, and the tag is the combo's |
| ConnectionDialog.SaveConnection | ui/connection_dialog.py:275-321 | A record is emitted exactly when the built record passes `validate`, and it is that record |
| ConnectionDialog.LoadSaveRoundTrip | ui/connection_dialog.py:208-321 | Editing and saving a valid, stripped connection with a known tag without changes emits it again |
| MainWindow.CopyTail | ui/main_window.py:320-326 | The suffix is "-copy" for the first try and starts with "-" without "/" |
| MainWindow.CopyNames | ui/main_window.py:320-326 | The names tried are "<name>-copy", "<name>-copy1", ... in order |
| MainWindow.CopyTailsDistinct | ui/main_window.py:320-326 | Two tries never give the same file name |
| MainWindow.CopyFilesDistinct | ui/main_window.py:320-326 | Two tries never name the same file, whatever the folder and name hold |
| MainWindow.CopyFileFresh | ui/main_window.py:320-326 | Each try names a file no earlier try named, so the loop ends |
| MainWindow.CopyValid | ui/main_window.py:329-340 | A copy of a valid connection with a plain name is valid |
| MainWindow.OnSearchChanged | ui/main_window.py:451-456 | A non-blank text filters by its stripped form, and a blank one clears the filter |
| MainWindow.SearchIgnoresPadding | ui/main_window.py:451-456 | Surrounding whitespace never changes what the search does |
| MainWindow.SelectedTarget | ui/main_window.py:350-360 | A selected connection wins over a selected folder, and an empty folder counts as none |
| MainWindow.MainWindow.constructor | ui/main_window.py:39-60 | Nothing is selected at start |
| MainWindow.MainWindow.OnConnectionSelected | ui/main_window.py:266-269 | The connection is remembered and the folder selection dropped |
| MainWindow.MainWindow.SaveNewConnection | ui/main_window.py:243-264 | An existing folder/name saves nothing. An invalid record raises with no change. It saves exactly when the connection does not exist and `save_connection` can succeed. On success exactly its new file is added with the stanza text |
| MainWindow.MainWindow.SaveEditedConnection | ui/main_window.py:289-305 | The old file goes only when the name or folder changed. It succeeds exactly when that old file exists (if it must go) and the new record can then be saved. On success the new record's file holds its stanza text |
| MainWindow.MainWindow.FreeCopyName | ui/main_window.py:320-326 | The name is the first copy name that does not exist in the folder. Every earlier one exists |
| MainWindow.MainWindow.DuplicateConnection | ui/main_window.py:317-348 | The copy equals the original except for its name, the first free copy name. Saving succeeds exactly when the copy can be saved, and then adds one file and changes no existing file |
| MainWindow.MainWindow.DeleteSelected | ui/main_window.py:350-378 | Without confirmation or a selection, nothing changes. A connection's file goes. A folder goes with everything below it |
| MainWindow.MainWindow.CreateFolder | ui/main_window.py:380-401 | A cancelled or empty prompt creates nothing. Otherwise it succeeds exactly when no ancestor of "<parent>/<name>" (or "<name>" at the top) is a file; on success that folder is created with its ancestors. No file changes |
| QtFolderMap.FolderParts | ui/connection_tree.py:106 | A folder path has at least one part, "" giving [""] |
| QtFolderMap.PrefixPath | ui/connection_tree.py:110-117 | The path at each level is the parts so far joined by `/` |
| QtFolderMap.PlaceLookup | ui/connection_tree.py:108-129 | Placing one connection adds nodes along its parts only, with the path of their prefix. Existing nodes keep their path |
| QtFolderMap.PlaceConnections | ui/connection_tree.py:108-129 | Placing one connection appends it at its own node only; every other node keeps its connections |
| QtFolderMap.FolderMapShape | ui/connection_tree.py:90-129 | The map has a node for exactly the prefixes of the connections' folder parts, each with its prefix as path. Each holds exactly its folder's connections in list order |
| QtFolderMap.FolderMapHolds | ui/connection_tree.py:125-129 | Every connection is stored at its own folder |
| QtFolderMap.BuildFolderMap | ui/connection_tree.py:90-129 | The loop places each connection in turn |
| QtFolderMap.SortedKeys | ui/connection_tree.py:145 | The names come in strictly increasing order, each once |
| QtFolderMap.WithoutEmptyStrict | ui/connection_tree.py:145-150 | Leaving out "" keeps the names strictly sorted |
| QtFolderMap.BuildItemsNames | ui/connection_tree.py:145-150 | The folder items are named by the keys other than "", in order |
| QtFolderMap.FolderItemLayout | ui/connection_tree.py:137-164 | A folder's children are its connections sorted by name (a permutation of them), then one item per subfolder other than "", in strictly increasing name order |
| QtFolderMap.TopLevelLayout | ui/connection_tree.py:131-150 | The top level is one folder item per name other than "", in strictly increasing order |
| QtFolderMap.Shown | ui/connection_tree.py:90-164 | A connection is shown exactly when it was loaded and no part of its folder path is "" |
| QtFolderMap.FlattenConnections | ui/connection_tree.py:137-164 | The rows carry the items' connections in the same order |
| QtFolderMap.TreeRows | ui/connection_tree.py:90-164 | Every parent row comes before its child and is a folder row, and the rows carry the tree's connections |
| QtConnectionTree.ConnectionTreeView.constructor | ui/connection_tree.py:71-75 | The tree starts empty |
| QtConnectionTree.ConnectionTreeView.LoadConnections | ui/connection_tree.py:90-135 | The rows are those of the folder map of the connections, all shown |
| QtConnectionTree.ConnectionTreeView.ShowAncestors | ui/connection_tree.py:272-279 | Every ancestor of the row is shown. Nothing else changes |
| QtConnectionTree.ConnectionTreeView.ShowMatches | ui/connection_tree.py:262-279 | A connection row is hidden exactly when it does not match. A folder row with a matching connection below it is shown, and the others keep their flag |
| QtConnectionTree.ConnectionTreeView.HasVisibleChildRow | ui/connection_tree.py:287-296 | The result is whether some child of the folder is shown |
| QtConnectionTree.ConnectionTreeView.HideEmptyFoldersAsWritten | ui/connection_tree.py:281-309 | The second pass as written, parents first: each folder sees its subfolders' first-pass flags |
| QtConnectionTree.ConnectionTreeView.HideEmptyFolders | ui/connection_tree.py:281-309 | A folder is hidden when it was, or (for a non-empty search) when no child is visible. Nothing else changes |
| QtConnectionTree.EmptyFoldersMeansNoMatch | ui/connection_tree.py:255-309 | After both passes with a non-empty search, a folder is hidden exactly when no matching connection lies below it |
| QtConnectionTree.ConnectionTreeView.FilterConnections | ui/connection_tree.py:255-309 | A connection is hidden exactly when it does not match the lower-cased text. For a non-empty search a folder is hidden exactly when no match lies below it |
| QtConnectionTree.ConnectionTreeView.ClearFilter | ui/connection_tree.py:311-316 | Every row is shown |
| QtConnectionTree.ConnectionTreeView.SelectedConnection | ui/connection_tree.py:166-178 | A connection is returned exactly for a current connection row |
| QtConnectionTree.ConnectionTreeView.SelectedFolder | ui/connection_tree.py:180-192 | A folder path is returned exactly for a current folder row |
| QtConnectionTree.SelectionExclusive | ui/connection_tree.py:166-192 | A connection and a folder are never selected at once, and a current row gives one of them |
| QtConnectionTree.LoadedConnections | ui/connection_tree.py:90-164 | The loaded rows carry exactly the listed connections whose folder path has no empty part |
| QtConnectionTree.SampleFirstPass | ui/connection_tree.py:262-279 | On rows a, a/b and a connection "web", searching "zzzz" hides the connection and leaves both folders shown |
| QtConnectionTree.ParentFolderLeftShown | ui/connection_tree.py:281-309 | On those rows the second pass as written hides a/b but leaves a shown with no visible child |
| TkConnectionTree.GetGroupIcon | src/ssh_manager/gui/connection_tree.py:136-157 | The icon is the table's entry for the lower-cased name, and the open folder exactly for unknown names |
| TkConnectionTree.GroupIconIgnoresCase | src/ssh_manager/gui/connection_tree.py:136-157 | The icon does not depend on the case of the name |
| TkConnectionTree.PathAfterJoin | src/ssh_manager/gui/connection_tree.py:80-90 | With no empty part, the path is the parts joined by `/` |
| TkConnectionTree.DeepestPath | src/ssh_manager/gui/connection_tree.py:74-107 | A group path with non-empty segments gets a deepest item whose path is the group path |
| TkConnectionTree.LeadingSlashLost | src/ssh_manager/gui/connection_tree.py:80-90 | "/x" ends at the item of "x" |
| TkConnectionTree.GroupsOf | src/ssh_manager/gui/connection_tree.py:53-58 | Each group holds connections of its own path |
| TkConnectionTree.GroupKeys | src/ssh_manager/gui/connection_tree.py:53-58 | The keys are exactly the groups, each once |
| TkConnectionTree.GroupsBag | src/ssh_manager/gui/connection_tree.py:53-58 | Grouping loses and adds nothing |
| TkConnectionTree.ExpectedPermutation | src/ssh_manager/gui/connection_tree.py:47-69 | Every connection is shown exactly as often as it is listed |
| TkConnectionTree.ConnectionTreeView.FindGroupItem | src/ssh_manager/gui/connection_tree.py:111-116 | A group item with that path is found, or there is none |
| TkConnectionTree.ConnectionTreeView.AddGroupToTree | src/ssh_manager/gui/connection_tree.py:74-109 | The deepest item is a group whose path is the path after the group's parts. Only group items are added, and at most one per path |
| TkConnectionTree.ConnectionTreeView.AddConnectionToTree | src/ssh_manager/gui/connection_tree.py:118-134 | One connection item with the icon and name is added under the group |
| TkConnectionTree.ConnectionTreeView.AddConnections | src/ssh_manager/gui/connection_tree.py:64-69 | The group's connections are added in order under its item |
| TkConnectionTree.ConnectionTreeView.LoadConnections | src/ssh_manager/gui/connection_tree.py:47-72 | The tree is rebuilt. Its connection items show the connections group by group, in sorted group order and sorted by name within a group, each under its group's item |
| TkConnectionTree.ConnectionTreeView.SelectedConnection | src/ssh_manager/gui/connection_tree.py:216-227 | The data is returned only when the first selected item is a connection |

## Left out

- Network and processes: the SSH connection of `test_connection`, `connect_to_server`, and the terminal spawn. The spawn's outcome is a parameter of `TerminalLauncher.LaunchSsh`, and the executables on `PATH` are a set.
- `create_backup` (a zip archive), `export_connections`, `get_stats` and `_count_connections_by_folder`. They are copying and counting plumbing with no rule of their own.
- `Connection.__str__`, `test_terminal` and `connect_to_server` are not modelled.
- Widget construction, layout, menus, message boxes, the dialogs' tab and browse handlers, the icon drawing under `assets/`, the command line and the packaging scripts.
- File system details: permissions, `copy2` metadata, encodings and symbolic links. `shutil.move`, `rmtree` and `mkdir` fail only in the ways the tree can express: a missing parent, or a file in the way.
- ConfigManager.ConfigManager.ListConnections: the order of the directory walk is not modelled. The listing is stated as the set of records that load, with duplicates allowed for equal records.
- ConfigManager.ConfigManager.GetFolderTree: it states that every entry is listed where it belongs. It does not state that nothing else is listed, or the order. The model keeps root-level connections apart from the folders. In the source, a top-level folder named `_connections` shares the key `tree['_connections']` with them, so a root-level `.conf` next to such a folder raises AttributeError or TypeError, depending on which is met first. The model lists both instead.
- SshManager.SshManager.ListConnections: the order of the groups and of the entries within a group is not stated.
- SshManager.SshManager.UpdateConnection: when re-adding fails after the removal, the contract does not describe the state further. The source does not undo the removal either.
- EditConnectionDialog.EditConnectionDialog.Replace: a failure's state is not described further. It is whatever the remove and add calls left.
- ConfigManager.ConfigManager.MoveConnection: a directory named `<name>.conf` passes `exists()` and `shutil.move` renames it. The model moves only files, so it refuses that case.
- Connection.DecodeColor: `json.loads` is modelled only for the exact `{"color": "<tag>"}` layout `json.dumps` writes for a plain ASCII tag. Any other JSON reads as no colour.
- Templates.FormatText: `str.format` is modelled for plain `{name}` fields and doubled braces. Format specifications, conversions and attribute or index fields are not modelled; the templates use none.
- QtConnectionTree.ConnectionTreeView.FilterConnections: `filter_connections` uses `QTreeWidgetItemIterator` without importing it, so as written it raises NameError. The model gives the rule the code evidently intends, with the second pass visiting children before parents (see Findings).
- QtConnectionTree.ConnectionTreeView.ClearFilter: `clear_filter` also uses the unimported `QTreeWidgetItemIterator`, so as written it raises NameError. The model shows every row, as the code evidently intends.
- Text.ParseInt: `int()` also reads decimal digits of other scripts (fullwidth `２２` reads as 22). The model reads only ASCII digits and refuses the others.
- Connection.FromSshConfig: a `Port` or forward port written in non-ASCII digits fails here, where `int()` reads it (see `Text.ParseInt`).
- ConnectionParsing.ParseFailsOnlyOnIntegers: "rejected by `int()`" means rejected by `Text.ParseInt`. The two differ only on non-ASCII digits.
- SshManager.SshManager.ConnectionTarget: a `Port` in non-ASCII digits raises here, where `int()` reads it (see `Text.ParseInt`).
- AddConnectionDialog.ValidateBasicFields: a port in non-ASCII digits is refused here, where `int()` accepts it (see `Text.ParseInt`).
- Text.Lower: `str.lower` is modelled on ASCII letters only. Python also lowers other letters, for example `"WOR\u212A".lower() == "work"` through the Kelvin sign. Other characters are kept as they are.
- TkConnectionTree.GetGroupIcon: a name that lowers to a table key only through a non-ASCII letter gets the open folder here, where the source finds its icon (see `Text.Lower`).
- QtConnectionTree.ConnectionTreeView.FilterConnections: the case-insensitive match lowers only ASCII letters (see `Text.Lower`).
- EditConnectionDialog.LineEntry: keys are lowered on ASCII letters only (see `Text.Lower`). The same holds for `EditConnectionDialog.ParseSshConfig` and `EditConnectionDialog.PopulateForm`, which use it.
- Integers are unbounded. Ports and counters in the source are Python integers, so no wrap-around exists to model.

## Findings

| source | as written | input that shows it | evidently intended | confidence | as-written member | corrected member |
|---|---|---|---|---|---|---|
| ui/connection_tree.py:281-309 | The second pass hides a folder with no visible child while walking parents before children, so a folder looks at its subfolders before they are hidden. | Folders `a` and `a/b` with one connection "web" in `a/b`, search "zzzz": `a/b` is hidden but `a` stays shown with no visible child. | A folder is hidden exactly when no matching connection lies below it (visit children first). | not executed | QtConnectionTree.ParentFolderLeftShown | QtConnectionTree.EmptyFoldersMeansNoMatch |
