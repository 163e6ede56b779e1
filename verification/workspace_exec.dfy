/**
 Running a program in a workspace's directory (`workspace_exec` and
 `change_dir_from_mapping`): the names of the focused workspaces form the
 key, the key is looked up under "mapping" in the first YAML document of
 the mapping file, and the working directory is changed before the program
 is started. The file system, the YAML parser and the home directory are
 inputs.
 */
module WorkspaceExec {
  import opened Wrappers
  import opened SwayTree
  import Listings

  /**
   Tilde expansion of a path: "~" alone or a leading "~/" is replaced by the
   home directory when one is known; anything else is left as it is.
   */
  function Tilde(s: string, home: Option<string>): (r: string)
    ensures home.None? ==> r == s
    ensures (|s| == 0 || s[0] != '~') ==> r == s
    ensures |s| >= 2 && s[0] == '~' && s[1] != '/' ==> r == s
    ensures home.Some? && s == "~" ==> r == home.value
    ensures home.Some? && |s| >= 2 && s[..2] == "~/" ==> r == home.value + s[1..]
  {
    if home.Some? && |s| > 0 && s[0] == '~' && (|s| == 1 || s[1] == '/') then home.value + s[1..]
    else s
  }

  const DefaultConfigPath: string := "~/.config/sway-action/mapping.yaml"

  /** The mapping file's location: the default path, expanded (no option ever overrides it). */
  function ConfigPath(home: Option<string>): (path: string)
    ensures home.Some? ==> path == home.value + "/.config/sway-action/mapping.yaml"
    ensures home.None? ==> path == DefaultConfigPath
  {
    Tilde(DefaultConfigPath, home)
  }

  /** A parsed YAML value, reduced to what the lookup distinguishes. */
  datatype Yaml = YString(s: string) | YHash(entries: map<string, Yaml>) | YOther

  /** `y[key]`: the entry of a hash, or the bad value for a missing key or a non-hash. */
  function Index(y: Yaml, key: string): Yaml {
    if y.YHash? && key in y.entries then y.entries[key] else YOther
  }

  /** `into_string`: the text of a string value, nothing for any other value. */
  function IntoString(y: Yaml): Option<string> {
    if y.YString? then Some(y.s) else None
  }

  /** The outcome of opening, reading and parsing the mapping file. */
  datatype Config = Unreadable | Loaded(documents: seq<Yaml>)

  /** `doc` holds a hash under "mapping" whose entry for `key` is the string `v`. */
  ghost predicate MappedTo(doc: Yaml, key: string, v: string) {
    && doc.YHash? && "mapping" in doc.entries
    && var mapping := doc.entries["mapping"];
    && mapping.YHash? && key in mapping.entries
    && mapping.entries[key] == YString(v)
  }

  /** The directory for `key`: the mapped string expanded, or the expanded "~" when there is none. */
  function ChooseDir(doc: Yaml, key: string, home: Option<string>): (dir: string)
    ensures forall v :: MappedTo(doc, key, v) ==> dir == Tilde(v, home)
    ensures (forall v :: !MappedTo(doc, key, v)) ==> dir == Tilde("~", home)
  {
    match IntoString(Index(Index(doc, "mapping"), key))
    case Some(s) =>
      assert MappedTo(doc, key, s);
      Tilde(s, home)
    case None => Tilde("~", home)
  }

  /** How `change_dir_from_mapping` ends. */
  datatype ChangeDirOutcome =
    | QueryFailed              // the workspace query failed: the error is returned
    | ConfigFailed             // the mapping file could not be opened, read or parsed: returns false
    | NoDocument               // the file holds no YAML document: indexing the first one panics
    | Changed(dir: string)     // the working directory is now `dir`: returns true
    | ExitedOnChdir(dir: string) // entering `dir` failed: the process exits with status 1

  /**
   The directory decision. `workspaces` is the reply of the workspace query
   (None when it failed), `canEnter` says whether the operating system lets
   the process enter a directory.
   */
  function ChangeDirFromMapping(workspaces: Option<seq<WorkspaceInfo>>, config: Config,
                                home: Option<string>, canEnter: string -> bool): (o: ChangeDirOutcome)
    ensures workspaces.None? <==> o == QueryFailed
    ensures workspaces.Some? && config.Unreadable? <==> o == ConfigFailed
    ensures workspaces.Some? && config.Loaded? && config.documents == [] <==> o == NoDocument
    ensures o.Changed? ==> canEnter(o.dir)
    ensures o.ExitedOnChdir? ==> !canEnter(o.dir)
    ensures (o.Changed? || o.ExitedOnChdir?) ==>
      var key := Listings.GetActiveWorkspace(workspaces.value);
      && (forall v :: MappedTo(config.documents[0], key, v) ==> o.dir == Tilde(v, home))
      && ((forall v :: !MappedTo(config.documents[0], key, v)) ==> o.dir == Tilde("~", home))
  {
    match workspaces
    case None => QueryFailed
    case Some(ws) =>
      var key := Listings.GetActiveWorkspace(ws);
      match config
      case Unreadable => ConfigFailed
      case Loaded(documents) =>
        if documents == [] then NoDocument
        else
          var dir := ChooseDir(documents[0], key, home);
          if canEnter(dir) then Changed(dir) else ExitedOnChdir(dir)
  }

  /** How `workspace_exec` ends. */
  datatype ExecOutcome =
    | Aborted(cause: ChangeDirOutcome)      // the directory step failed, panicked or exited
    | NoArguments                           // no program was given: error, exit status 1
    | Launch(program: string, args: seq<string>) // the program is started in the current directory

  /**
   Runs the directory step first and only then looks at the arguments; the
   first argument is the program, the rest are its arguments.
   */
  function WorkspaceExec(args: seq<string>, dirStep: ChangeDirOutcome): (e: ExecOutcome)
    ensures e.Aborted? <==> !(dirStep.ConfigFailed? || dirStep.Changed?)
    ensures e.NoArguments? <==> (dirStep.ConfigFailed? || dirStep.Changed?) && args == []
    ensures e.Launch? ==> [e.program] + e.args == args
  {
    if !(dirStep.ConfigFailed? || dirStep.Changed?) then Aborted(dirStep)
    else if args == [] then NoArguments
    else Launch(args[0], args[1..])
  }

  /**
   With exactly one focused workspace "ws1", mapped to "~/proj", the process
   enters the "proj" directory under home; a workspace without an entry
   enters home itself.
   */
  lemma {:induction false} MappingScenario(home: string, canEnter: string -> bool)
    requires canEnter(home + "/proj") && canEnter(home)
    ensures var doc := YHash(map["mapping" := YHash(map["ws1" := YString("~/proj")])]);
      && ChangeDirFromMapping(Some([WorkspaceInfo("ws0", false), WorkspaceInfo("ws1", true)]),
                              Loaded([doc]), Some(home), canEnter) == Changed(home + "/proj")
      && ChangeDirFromMapping(Some([WorkspaceInfo("unknown", true)]),
                              Loaded([doc]), Some(home), canEnter) == Changed(home)
  {
    var ws := [WorkspaceInfo("ws0", false), WorkspaceInfo("ws1", true)];
    Listings.OneFocusedWorkspace(ws, 1);
    Listings.OneFocusedWorkspace([WorkspaceInfo("unknown", true)], 0);
    assert "~/proj"[1..] == "/proj";
  }
}
