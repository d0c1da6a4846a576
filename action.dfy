/**
 * The action's own functions as they run: each call into a collaborator is
 * appended to `trace`, and each method is proved to make exactly the calls,
 * and to end exactly as, the functions of `Orchestrator` and `Installer` say.
 */
module Action {
  import opened Paths
  import opened Effects
  import opened Inputs
  import opened LockFile
  import opened CacheKey
  import opened Installer
  import opened Orchestrator

  lemma AppendAssoc(a: seq<Event>, b: seq<Event>, c: seq<Event>)
    ensures a + (b + c) == (a + b) + c
  {
  }

  /** `api.utils` and `npmInstallAction`, run against one set of collaborators. */
  class Api {
    const env: Env
    var trace: seq<Event>

    constructor(env: Env)
      ensures this.env == env && trace == []
    {
      this.env := env;
      trace := [];
    }

    /** `restoreCachedNpm(primaryKey, inputPath)`: a rejected restore is reported as `undefined`. */
    method RestoreCachedNpm(primaryKey: string, inputPath: Path) returns (hit: JsValue)
      modifies this
      ensures trace == old(trace) + [CacheRestore([inputPath], primaryKey)]
      ensures hit == RestoreValue(env.store.restoreCache([inputPath], primaryKey))
    {
      trace := trace + [CacheRestore([inputPath], primaryKey)];
      var reply := env.store.restoreCache([inputPath], primaryKey);
      match reply {
        case Resolved(value) =>
          hit := value;
        case Rejected(_) =>
          hit := Undefined;
      }
    }

    /** `saveCachedNpm(primaryKey, inputPath)`: a rejected save is reported as `-1` or `undefined`, never thrown. */
    method SaveCachedNpm(primaryKey: string, inputPath: Path) returns (saved: JsValue)
      modifies this
      ensures trace == old(trace) + [CacheSave([inputPath], primaryKey)]
      ensures saved == SaveValue(env.store.saveCache([inputPath], primaryKey))
    {
      trace := trace + [CacheSave([inputPath], primaryKey)];
      var reply := env.store.saveCache([inputPath], primaryKey);
      match reply {
        case Resolved(value) =>
          saved := value;
        case Rejected(err) =>
          if err.ReserveCacheError? {
            saved := Num(-1);
          } else {
            saved := Undefined;
          }
      }
    }

    /** `exec.exec(command, args, { cwd })`. */
    method Exec(command: string, args: seq<string>, cwd: Path) returns (outcome: Outcome)
      modifies this
      ensures trace == old(trace) + ExecRun(env.shell, command, args, cwd).events
      ensures outcome == ExecRun(env.shell, command, args, cwd).outcome
    {
      trace := trace + [CommandRun(command, args, cwd)];
      if env.shell.exec(command, args, cwd) {
        outcome := Done;
      } else {
        outcome := Thrown(CommandFailed(command));
      }
    }

    /** `install(opts)`. */
    method Install(opts: InstallOptions) returns (outcome: Outcome)
      modifies this
      ensures trace == old(trace) + InstallRun(env.shell, opts).events
      ensures outcome == InstallRun(env.shell, opts).outcome
    {
      if opts.useYarn.None? {
        return Thrown(MissingOption("useYarn"));
      }
      if opts.usePackageLock.None? {
        return Thrown(MissingOption("usePackageLock"));
      }
      if opts.workingDirectory.None? {
        return Thrown(MissingOption("workingDirectory"));
      }
      var shouldUseYarn := opts.useYarn.value;
      var shouldUsePackageLock := opts.usePackageLock.value;
      var cwd := env.shell.resolve(opts.workingDirectory.value);

      if opts.installCommand != "" {
        outcome := Exec(opts.installCommand, [], cwd);
        return;
      }

      var tool := if shouldUseYarn then "yarn" else "npm";
      trace := trace + [ToolLookup(tool)];
      var toolPath := env.shell.which(tool);
      if toolPath.None? {
        return Thrown(ToolNotFound(tool));
      }
      var args: seq<string>;
      if shouldUseYarn {
        args := if shouldUsePackageLock then ["--frozen-lockfile"] else [];
      } else {
        args := if shouldUsePackageLock then ["ci"] else ["install"];
      }
      outcome := Exec(env.shell.quote(toolPath.value), args, cwd);
    }

    /** `installInOneFolder(o)`. */
    method InstallInOneFolder(o: FolderOptions) returns (outcome: Outcome)
      modifies this
      ensures trace == old(trace) + FolderRun(env, o).events
      ensures outcome == FolderRun(env, o).outcome
    {
      var lockInfo := GetLockFilename(o.usePackageLock, o.workingDirectory, env.files.fileExists);
      trace := trace + [HashRead(lockInfo.lockFilename)];
      var hashed := env.files.hashFile(lockInfo.lockFilename);
      if hashed.Unreadable? {
        return Thrown(HashUnavailable(lockInfo.lockFilename));
      }
      var lockHash := hashed.hex;
      if lockHash == "" {
        return Thrown(EmptyHash(lockInfo.lockFilename));
      }

      var npmCacheFolder := PathJoin(o.workingDirectory, "node_modules");
      var primaryKey := PrimaryKey(lockInfo.useYarn, o.useRollingCache, lockHash, env.platformArch, env.now);
      var opts := InstallOptions(Some(lockInfo.useYarn), Some(o.usePackageLock), Some(o.workingDirectory),
                                 Some(npmCacheFolder), o.installCommand);

      var npmCacheHit := RestoreCachedNpm(primaryKey, npmCacheFolder);
      if Truthy(npmCacheHit) {
        return Done;
      }
      outcome := Install(opts);
      if outcome.Thrown? {
        return;
      }
      var saved := SaveCachedNpm(primaryKey, npmCacheFolder);
      outcome := Done;
    }

    /** `npmInstallAction()`: read the settings and the folder list, then work through the folders. */
    method NpmInstallAction() returns (outcome: Outcome)
      modifies this
      ensures trace == old(trace) + ActionRun(env).events
      ensures outcome == ActionRun(env).outcome
    {
      var usePackageLock := GetInputBool(env.input("useLockFile"), true);
      var useRollingCache := GetInputBool(env.input("useRollingCache"), false);
      var wds := DirectoryListText(env.input("working-directory"), env.cwd);
      var workingDirectories := WorkingDirectories(wds);
      var installCommand := env.input("install-command");
      outcome := InstallEachFolder(Config(usePackageLock, useRollingCache, installCommand), workingDirectories);
    }

    /** The `for … of` loop of `npmInstallAction`: one folder after the other, awaiting each, until one throws. */
    method InstallEachFolder(cfg: Config, workingDirectories: seq<Path>) returns (outcome: Outcome)
      modifies this
      ensures trace == old(trace) + FoldersRun(FolderStep(env, cfg), workingDirectories).events
      ensures outcome == FoldersRun(FolderStep(env, cfg), workingDirectories).outcome
    {
      ghost var step := FolderStep(env, cfg);
      var i := 0;
      assert workingDirectories[i..] == workingDirectories;
      while i < |workingDirectories|
        invariant 0 <= i <= |workingDirectories|
        invariant trace + FoldersRun(step, workingDirectories[i..]).events
                  == old(trace) + FoldersRun(step, workingDirectories).events
        invariant FoldersRun(step, workingDirectories[i..]).outcome == FoldersRun(step, workingDirectories).outcome
      {
        var workingDirectory := workingDirectories[i];
        FoldersRunStep(step, workingDirectories, i);
        ghost var before := trace;
        ghost var restEvents := FoldersRun(step, workingDirectories[i + 1..]).events;
        var o := FolderOptions(cfg.usePackageLock, workingDirectory, cfg.useRollingCache, cfg.installCommand);
        assert step(workingDirectory) == FolderRun(env, o);
        outcome := InstallInOneFolder(o);
        if outcome.Thrown? {
          return;
        }
        AppendAssoc(before, FolderRun(env, o).events, restEvents);
        i := i + 1;
      }
      assert workingDirectories[i..] == [];
      outcome := Done;
    }
  }
}
