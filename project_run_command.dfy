/**
  The `project_run` command: list the workspace's launch configurations, or
  resolve one selector against them and launch the configuration it selects in
  run or debug mode. Each operation of the command is a method proved against
  the reference definitions `Listing` and `Resolve`.
 */
module ProjectRunCommand {
  import opened Wrappers
  import opened JavaText
  import opened SelectorResolution
  import opened ConfigurationListing

  /** The text `FORMAT_STARTED` (`"%s Started"`) puts after the name. */
  const StartedSuffix := " Started"

  const ErrorPrefix := "Error: "
  const ErrorInvalidArgs := ErrorPrefix + "Invalid Args"
  const ErrorNotInRange := ErrorPrefix + "Index Out of Range"
  const ErrorMultipleVal := ErrorPrefix + "Multiple Launch Configurations Found"
  const ErrorNotFound := ErrorPrefix + "Configuration Not Found"

  /** The launch mode: that of the debug launch group with `-d`, of the run launch group without. */
  datatype Mode = Run | Debug

  /** One call of `DebugUITools.launch`. */
  datatype LaunchRecord = LaunchRecord(config: Config, mode: Mode)

  /**
    The parsed command line: the flags `-l`, `-i`, `-d`, the value of `-p` and
    the arguments no option claimed.
   */
  datatype CommandLine = CommandLine(
    list: bool,
    indices: bool,
    debug: bool,
    project: Option<string>,
    unrecognizedArgs: seq<string>)

  /**
    What the command reads from the IDE: the names for which the project lookup
    succeeds, and the launch manager's configurations in its order.
   */
  datatype Workspace = Workspace(projects: set<string>, launchConfigurations: seq<Config>)

  /** How `execute` ends: it returns a text, or the project lookup throws. */
  datatype Outcome = Returned(text: string) | ProjectNotFound(project: string)

  /**
    The IDE's launcher. Launching is fire-and-forget: the command only starts it,
    so all the model keeps is the log of the launches requested.
   */
  class DebugUI {
    ghost var launched: seq<LaunchRecord>

    constructor ()
      ensures launched == []
    {
      launched := [];
    }

    method Launch(config: Config, mode: Mode)
      modifies this
      ensures launched == old(launched) + [LaunchRecord(config, mode)]
    {
      launched := launched + [LaunchRecord(config, mode)];
    }
  }

  predicate EndsWith(s: string, suffix: string) {
    |suffix| <= |s| && s[|s| - |suffix|..] == suffix
  }

  /** The text `launchConfiguration` returns for each outcome of the resolution. */
  function Reply(s: Selection): (r: string)
    ensures s.Selected? ==> StartsWith(r, s.config.name) && EndsWith(r, StartedSuffix)
    ensures !s.Selected? ==> StartsWith(r, ErrorPrefix)
  {
    match s
    case Selected(c) => c.name + StartedSuffix
    case IndexOutOfRange => ErrorNotInRange
    case MultipleFound => ErrorMultipleVal
    case NotFound => ErrorNotFound
  }

  /** The launches `launchConfiguration` requests for each outcome: one for a selection, none for an error. */
  function LaunchesFor(s: Selection, mode: Mode): (r: seq<LaunchRecord>)
    ensures |r| == 1 <==> s.Selected?
    ensures |r| <= 1
    ensures s.Selected? ==> r[0] == LaunchRecord(s.config, mode)
  {
    if s.Selected? then [LaunchRecord(s.config, mode)] else []
  }

  /** `getMode`: the debug launch group's mode with `-d`, the run launch group's without. */
  function GetMode(cmd: CommandLine): (m: Mode)
    ensures m == Debug <==> cmd.debug
  {
    if cmd.debug then Debug else Run
  }

  /** `getProject`: no project without `-p`; with it, the named project, or a failure that `execute` does not catch. */
  function GetProject(cmd: CommandLine, ws: Workspace): (r: Result<Option<string>, string>)
    ensures r.Failure? <==> cmd.project.Some? && cmd.project.value !in ws.projects
    ensures r.Failure? ==> r.error == cmd.project.value
    ensures r.Success? ==> r.value == cmd.project
  {
    match cmd.project
    case None => Success(None)
    case Some(name) => if name in ws.projects then Success(Some(name)) else Failure(name)
  }

  /** The four error texts are different from one another, so each names its error. */
  lemma ErrorsDistinct()
    ensures |{ErrorInvalidArgs, ErrorNotInRange, ErrorMultipleVal, ErrorNotFound}| == 4
  {
    assert |ErrorInvalidArgs| == 19 && |ErrorNotInRange| == 25;
    assert |ErrorMultipleVal| == 43 && |ErrorNotFound| == 30;
  }

  /**
    A reply ends with " Started" exactly when the selector selected a
    configuration; every other reply is one of the error texts.
   */
  lemma StartedIffSelected(s: Selection)
    ensures EndsWith(Reply(s), StartedSuffix) <==> s.Selected?
    ensures !s.Selected? ==> StartsWith(Reply(s), ErrorPrefix)
  {
    match s
    case Selected(c) =>
      assert Reply(s)[|Reply(s)| - |StartedSuffix|..] == StartedSuffix;
    case IndexOutOfRange =>
      assert Reply(s)[|Reply(s)| - 2] == 'g' != StartedSuffix[|StartedSuffix| - 2];
    case MultipleFound =>
      assert Reply(s)[|Reply(s)| - 2] == 'n' != StartedSuffix[|StartedSuffix| - 2];
    case NotFound =>
      assert Reply(s)[|Reply(s)| - 2] == 'n' != StartedSuffix[|StartedSuffix| - 2];
  }

  /** A listing never reads as a launch: it is empty or ends with a line break. */
  lemma ListingIsNotStarted(configs: seq<Config>, showIndices: bool)
    ensures !EndsWith(Listing(configs, showIndices), StartedSuffix)
  {
    ListingEnds(configs, 0, showIndices);
  }

  /**
    `filterByProject`: despite its name and its doc comment, it copies the
    configurations into a new list, in order, whatever the project.
   */
  method FilterByProject(project: Option<string>, configs: seq<Config>) returns (list: seq<Config>)
    ensures list == configs
  {
    list := [];
    for i := 0 to |configs|
      invariant list == configs[..i]
    {
      list := list + [configs[i]];
    }
  }

  /** `listConfigurations`: builds the listing line by line. */
  method ListConfigurations(configs: seq<Config>, showIndices: bool) returns (text: string)
    ensures text == Listing(configs, showIndices)
  {
    var builder := "";
    var index := 0;
    for i := 0 to |configs|
      invariant builder == Listing(configs[..i], showIndices)
      invariant showIndices ==> index == i
    {
      ListingPrefixStep(configs, i, showIndices);
      if showIndices {
        builder := builder + IndexedLine(index, configs[i].name);
        index := index + 1;
      } else {
        builder := builder + PlainLine(configs[i].name);
      }
    }
    assert configs[..|configs|] == configs;
    text := builder;
  }

  /**
    The resolving half of `launchConfiguration`: an `int` selector is an index;
    any other selector is matched as a name prefix by a scan that stops at the
    second match. The result is the counting definition `Resolve`.
   */
  method Select(name: string, configs: seq<Config>) returns (r: Selection)
    ensures r == Resolve(name, configs)
  {
    var index := ParseInt(name);
    if index.Some? {
      if index.value < 0 || index.value >= |configs| {
        return IndexOutOfRange;
      }
      return Selected(configs[index.value]);
    }
    var found: Option<Config> := None;
    for i := 0 to |configs|
      invariant |PrefixMatches(configs[..i], name)| <= 1
      invariant found == if PrefixMatches(configs[..i], name) == [] then None
                         else Some(PrefixMatches(configs[..i], name)[0])
    {
      assert configs[..i + 1] == configs[..i] + [configs[i]];
      PrefixMatchesAppend(configs[..i], [configs[i]], name);
      if StartsWith(configs[i].name, name) {
        if found.Some? {
          assert configs == configs[..i + 1] + configs[i + 1..];
          PrefixMatchesAppend(configs[..i + 1], configs[i + 1..], name);
          return MultipleFound;
        }
        found := Some(configs[i]);
      }
    }
    assert configs[..|configs|] == configs;
    if found.None? {
      return NotFound;
    }
    return Selected(found.value);
  }

  /**
    `launchConfiguration`: resolves the selector; on a selection, launches that
    configuration once in `mode` and reports it started, otherwise reports the
    error and launches nothing.
   */
  method LaunchConfiguration(name: string, configs: seq<Config>, mode: Mode, ui: DebugUI) returns (text: string)
    modifies ui
    ensures text == Reply(Resolve(name, configs))
    ensures ui.launched == old(ui.launched) + LaunchesFor(Resolve(name, configs), mode)
  {
    var found := Select(name, configs);
    match found
    case Selected(config) =>
      ui.Launch(config, mode);
      text := config.name + StartedSuffix;
    case IndexOutOfRange =>
      text := ErrorNotInRange;
    case MultipleFound =>
      text := ErrorMultipleVal;
    case NotFound =>
      text := ErrorNotFound;
  }

  /**
    `execute`: a failed project lookup ends the command before anything else;
    `-l` lists and ignores every other argument; otherwise exactly one
    unclaimed argument is the selector, and any other count is an error.
    At most one launch happens, and one happens exactly when the reply ends
    with " Started".
   */
  method Execute(cmd: CommandLine, ws: Workspace, ui: DebugUI) returns (out: Outcome)
    modifies ui
    ensures GetProject(cmd, ws).Failure? ==>
              out == ProjectNotFound(cmd.project.value) && ui.launched == old(ui.launched)
    ensures GetProject(cmd, ws).Success? && cmd.list ==>
              out == Returned(Listing(ws.launchConfigurations, cmd.indices)) && ui.launched == old(ui.launched)
    ensures GetProject(cmd, ws).Success? && !cmd.list && |cmd.unrecognizedArgs| != 1 ==>
              out == Returned(ErrorInvalidArgs) && ui.launched == old(ui.launched)
    ensures GetProject(cmd, ws).Success? && !cmd.list && |cmd.unrecognizedArgs| == 1 ==>
              var s := Resolve(cmd.unrecognizedArgs[0], ws.launchConfigurations);
              out == Returned(Reply(s)) && ui.launched == old(ui.launched) + LaunchesFor(s, GetMode(cmd))
    ensures |ui.launched| <= |old(ui.launched)| + 1
    ensures |ui.launched| == |old(ui.launched)| + 1 <==> out.Returned? && EndsWith(out.text, StartedSuffix)
  {
    var project := GetProject(cmd, ws);
    if project.Failure? {
      return ProjectNotFound(project.error);
    }
    var configs := FilterByProject(project.value, ws.launchConfigurations);
    var mode := GetMode(cmd);

    if cmd.list {
      var text := ListConfigurations(configs, cmd.indices);
      ListingIsNotStarted(configs, cmd.indices);
      return Returned(text);
    }

    var launchNames := cmd.unrecognizedArgs;
    if |launchNames| == 1 {
      var text := LaunchConfiguration(launchNames[0], configs, mode, ui);
      StartedIffSelected(Resolve(launchNames[0], configs));
      return Returned(text);
    } else {
      assert !EndsWith(ErrorInvalidArgs, StartedSuffix) by {
        assert ErrorInvalidArgs[|ErrorInvalidArgs| - 2] == 'g' != StartedSuffix[|StartedSuffix| - 2];
      }
      return Returned(ErrorInvalidArgs);
    }
  }
}
