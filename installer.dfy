/** Running the package manager in one folder: `install`. */
module Installer {
  import opened Paths
  import opened Effects

  /**
   * The options object `install` receives. A key absent from the object is `None`;
   * `installCommand` is the text of the input, empty when it was not given.
   */
  datatype InstallOptions = InstallOptions(
    useYarn: Option<bool>,
    usePackageLock: Option<bool>,
    workingDirectory: Option<Path>,
    npmCacheFolder: Option<Path>,
    installCommand: string)

  /** The first required option missing from `opts`, checked in the order `install` checks them. */
  function MissingRequired(opts: InstallOptions): (name: Option<string>)
    ensures name.None? <==> opts.useYarn.Some? && opts.usePackageLock.Some? && opts.workingDirectory.Some?
    ensures opts.useYarn.None? ==> name == Some("useYarn")
    ensures opts.useYarn.Some? && opts.usePackageLock.None? ==> name == Some("usePackageLock")
    ensures opts.useYarn.Some? && opts.usePackageLock.Some? && opts.workingDirectory.None? ==> name == Some("workingDirectory")
  {
    if opts.useYarn.None? then Some("useYarn")
    else if opts.usePackageLock.None? then Some("usePackageLock")
    else if opts.workingDirectory.None? then Some("workingDirectory")
    else None
  }

  /** The tool looked up on the `PATH`. */
  function ManagerTool(useYarn: bool): string {
    if useYarn then "yarn" else "npm"
  }

  /** The arguments the package manager is run with. */
  function ManagerArgs(useYarn: bool, usePackageLock: bool): (args: seq<string>)
    ensures |args| <= 1
    ensures args == [] <==> useYarn && !usePackageLock
  {
    if useYarn then (if usePackageLock then ["--frozen-lockfile"] else [])
    else if usePackageLock then ["ci"] else ["install"]
  }

  /** `exec.exec(command, args, { cwd })`: one command run, which fails the step when it fails. */
  function ExecRun(shell: Shell, command: string, args: seq<string>, cwd: Path): (r: Run)
    ensures r.events == [CommandRun(command, args, cwd)]
    ensures r.outcome == Done <==> shell.exec(command, args, cwd)
  {
    Run([CommandRun(command, args, cwd)],
        if shell.exec(command, args, cwd) then Done else Thrown(CommandFailed(command)))
  }

  /** `install(opts)`: the calls it makes and how it ends. */
  function InstallRun(shell: Shell, opts: InstallOptions): Run
  {
    match MissingRequired(opts)
    case Some(name) => Run([], Thrown(MissingOption(name)))
    case None =>
      var cwd := shell.resolve(opts.workingDirectory.value);
      if opts.installCommand != "" then ExecRun(shell, opts.installCommand, [], cwd)
      else
        var tool := ManagerTool(opts.useYarn.value);
        match shell.which(tool)
        case None => Run([ToolLookup(tool)], Thrown(ToolNotFound(tool)))
        case Some(toolPath) =>
          var exec := ExecRun(shell, shell.quote(toolPath), ManagerArgs(opts.useYarn.value, opts.usePackageLock.value), cwd);
          Run([ToolLookup(tool)] + exec.events, exec.outcome)
  }

  /** `install` calls nothing at all exactly when a required option is missing, and then it throws naming it. */
  lemma MissingOptionThrowsFirst(shell: Shell, opts: InstallOptions)
    ensures InstallRun(shell, opts).events == [] <==> MissingRequired(opts).Some?
    ensures MissingRequired(opts).Some? ==> InstallRun(shell, opts).outcome == Thrown(MissingOption(MissingRequired(opts).value))
  {
  }

  /** A non-empty custom command runs with no arguments, whatever yarn and lock-file settings are given. */
  lemma CustomCommandOverrides(shell: Shell, opts: InstallOptions, useYarn: bool, usePackageLock: bool)
    requires MissingRequired(opts).None? && opts.installCommand != ""
    ensures InstallRun(shell, opts).events
            == [CommandRun(opts.installCommand, [], shell.resolve(opts.workingDirectory.value))]
    ensures InstallRun(shell, opts)
            == InstallRun(shell, opts.(useYarn := Some(useYarn), usePackageLock := Some(usePackageLock)))
  {
  }

  /**
   * Without a custom command, the package manager is looked up and, when found, run quoted,
   * with `--frozen-lockfile` (yarn) or `ci` (npm) when lock files are used and
   * with nothing (yarn) or `install` (npm) otherwise.
   */
  lemma ManagerCommand(shell: Shell, opts: InstallOptions, toolPath: Path)
    requires MissingRequired(opts).None? && opts.installCommand == ""
    requires shell.which(ManagerTool(opts.useYarn.value)) == Some(toolPath)
    ensures InstallRun(shell, opts).events
            == [ToolLookup(ManagerTool(opts.useYarn.value)),
                CommandRun(shell.quote(toolPath), ManagerArgs(opts.useYarn.value, opts.usePackageLock.value),
                           shell.resolve(opts.workingDirectory.value))]
    ensures InstallRun(shell, opts).outcome == Done
            <==> shell.exec(shell.quote(toolPath), ManagerArgs(opts.useYarn.value, opts.usePackageLock.value),
                            shell.resolve(opts.workingDirectory.value))
    ensures ManagerArgs(opts.useYarn.value, opts.usePackageLock.value)
            == if opts.useYarn.value then (if opts.usePackageLock.value then ["--frozen-lockfile"] else [])
               else (if opts.usePackageLock.value then ["ci"] else ["install"])
  {
  }

  /** Without a custom command, a package manager that is not on the `PATH` fails `install` after the lookup, and no command runs. */
  lemma ToolNotFoundThrows(shell: Shell, opts: InstallOptions)
    requires MissingRequired(opts).None? && opts.installCommand == ""
    requires shell.which(ManagerTool(opts.useYarn.value)).None?
    ensures InstallRun(shell, opts).events == [ToolLookup(ManagerTool(opts.useYarn.value))]
    ensures InstallRun(shell, opts).outcome == Thrown(ToolNotFound(ManagerTool(opts.useYarn.value)))
  {
  }

  /** Every command `install` runs, runs in the resolved working directory. */
  lemma CommandsRunInResolvedDirectory(shell: Shell, opts: InstallOptions)
    ensures forall i :: 0 <= i < |InstallRun(shell, opts).events| && InstallRun(shell, opts).events[i].CommandRun? ==>
              InstallRun(shell, opts).events[i].cwd == shell.resolve(opts.workingDirectory.value)
  {
  }

  /** The calls of a run that found its tool: the lookup, then the command. */
  lemma {:induction false} LookupThenCommand(tool: string, command: Event)
    requires command.CommandRun?
    ensures Count([ToolLookup(tool), command], Executing) == 1
    ensures forall k :: k != Executing && k != Locating ==> Count([ToolLookup(tool), command], k) == 0
  {
    var t := [ToolLookup(tool), command];
    assert t[1..] == [command];
    assert t[1..][1..] == [];
  }

  /** `install` touches neither the hasher nor the cache. */
  lemma InstallTouchesNoCache(shell: Shell, opts: InstallOptions)
    ensures var r := InstallRun(shell, opts);
            Count(r.events, Hashing) == 0 && Count(r.events, Restoring) == 0 && Count(r.events, Saving) == 0
  {
    var r := InstallRun(shell, opts);
    if MissingRequired(opts).None? && opts.installCommand == "" {
      var tool := ManagerTool(opts.useYarn.value);
      if shell.which(tool).Some? {
        LookupThenCommand(tool, r.events[1]);
      }
    }
  }

  /** `install` runs at most one command, and it succeeds only when it ran one. */
  lemma InstallRunsOneCommand(shell: Shell, opts: InstallOptions)
    ensures var r := InstallRun(shell, opts);
            Count(r.events, Executing) <= 1 && (r.outcome == Done ==> Count(r.events, Executing) == 1)
  {
    var r := InstallRun(shell, opts);
    if MissingRequired(opts).None? && opts.installCommand == "" {
      var tool := ManagerTool(opts.useYarn.value);
      if shell.which(tool).Some? {
        LookupThenCommand(tool, r.events[1]);
      }
    }
  }
}
