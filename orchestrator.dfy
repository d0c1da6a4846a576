/**
 * What the action does, as the calls it makes: one folder (`installInOneFolder`)
 * and the whole list of folders (`npmInstallAction`).
 */
module Orchestrator {
  import opened Text
  import opened Paths
  import opened Effects
  import opened Inputs
  import opened LockFile
  import opened CacheKey
  import opened Installer

  /** What `restoreCachedNpm` resolves to: the store's value, or `undefined` when the store rejects. */
  function RestoreValue(reply: StoreReply): (v: JsValue)
    ensures reply.Rejected? ==> v == Undefined && !Truthy(v)
    ensures reply.Resolved? ==> v == reply.value
  {
    match reply
    case Resolved(value) => value
    case Rejected(_) => Undefined
  }

  /** What `saveCachedNpm` resolves to: the store's value, `-1` for a reservation clash, `undefined` for any other error. */
  function SaveValue(reply: StoreReply): (v: JsValue)
    ensures reply.Resolved? ==> v == reply.value
    ensures reply.Rejected? ==> (v == Num(-1) <==> reply.error.ReserveCacheError?)
    ensures reply.Rejected? ==> (v == Undefined <==> reply.error.OtherStoreError?)
  {
    match reply
    case Resolved(value) => value
    case Rejected(ReserveCacheError(_)) => Num(-1)
    case Rejected(OtherStoreError(_)) => Undefined
  }

  /** The options `installInOneFolder` receives. */
  datatype FolderOptions = FolderOptions(
    usePackageLock: bool,
    workingDirectory: Path,
    useRollingCache: bool,
    installCommand: string)

  /** `NPM_CACHE_FOLDER`: the folder that is restored and saved. */
  function CacheFolder(wd: Path): Path
  {
    PathJoin(wd, "node_modules")
  }

  function LockOf(env: Env, o: FolderOptions): LockInfo {
    GetLockFilename(o.usePackageLock, o.workingDirectory, env.files.fileExists)
  }

  function KeyOf(env: Env, o: FolderOptions, lockHash: string): string {
    PrimaryKey(LockOf(env, o).useYarn, o.useRollingCache, lockHash, env.platformArch, env.now)
  }

  /** The options object `installInOneFolder` passes to `install`: every key present. */
  function InstallOptionsOf(env: Env, o: FolderOptions): (opts: InstallOptions)
    ensures MissingRequired(opts).None?
  {
    InstallOptions(Some(LockOf(env, o).useYarn), Some(o.usePackageLock), Some(o.workingDirectory),
                   Some(CacheFolder(o.workingDirectory)), o.installCommand)
  }

  /** The hash `installInOneFolder` goes on with, when the lock file could be hashed to a non-empty digest. */
  predicate HashUsable(h: HashOutcome) {
    h.Digest? && h.hex != ""
  }

  /** `installInOneFolder(o)`: the calls it makes and how it ends. */
  function FolderRun(env: Env, o: FolderOptions): Run
  {
    var lockFilename := LockOf(env, o).lockFilename;
    var read := [HashRead(lockFilename)];
    match env.files.hashFile(lockFilename)
    case Unreadable => Run(read, Thrown(HashUnavailable(lockFilename)))
    case Digest(lockHash) =>
      if lockHash == "" then Run(read, Thrown(EmptyHash(lockFilename)))
      else
        var folder := CacheFolder(o.workingDirectory);
        var key := KeyOf(env, o, lockHash);
        var restore := read + [CacheRestore([folder], key)];
        if Truthy(RestoreValue(env.store.restoreCache([folder], key))) then Run(restore, Done)
        else
          var install := InstallRun(env.shell, InstallOptionsOf(env, o));
          if install.outcome.Thrown? then Run(restore + install.events, install.outcome)
          else Run(restore + install.events + [CacheSave([folder], key)], Done)
  }

  /** When the lock file cannot be hashed, or hashes to nothing, the folder fails before any cache call. */
  lemma HashFailureTouchesNoCache(env: Env, o: FolderOptions)
    requires !HashUsable(env.files.hashFile(LockOf(env, o).lockFilename))
    ensures FolderRun(env, o).events == [HashRead(LockOf(env, o).lockFilename)]
    ensures FolderRun(env, o).outcome.Thrown?
  {
  }

  /** A folder reaches the cache exactly when its lock file hashes to a non-empty digest. */
  lemma {:induction false} CacheReachedIff(env: Env, o: FolderOptions)
    ensures Count(FolderRun(env, o).events, Restoring) == 1 <==> HashUsable(env.files.hashFile(LockOf(env, o).lockFilename))
    ensures Count(FolderRun(env, o).events, Restoring) <= 1
  {
    var lockFilename := LockOf(env, o).lockFilename;
    var h := env.files.hashFile(lockFilename);
    if HashUsable(h) {
      var folder := CacheFolder(o.workingDirectory);
      var key := KeyOf(env, o, h.hex);
      var restore := [HashRead(lockFilename), CacheRestore([folder], key)];
      var save := [CacheSave([folder], key)];
      assert Count(restore, Restoring) == 1 by {
        assert restore[1..] == [CacheRestore([folder], key)];
        assert restore[1..][1..] == [];
      }
      assert Count(save, Restoring) == 0 by {
        assert save[1..] == [];
      }
      var install := InstallRun(env.shell, InstallOptionsOf(env, o));
      InstallTouchesNoCache(env.shell, InstallOptionsOf(env, o));
      CountConcat(restore, install.events, Restoring);
      CountConcat(restore + install.events, save, Restoring);
      assert [HashRead(lockFilename)] + [CacheRestore([folder], key)] == restore;
      var events := FolderRun(env, o).events;
      assert events == restore || events == restore + install.events || events == restore + install.events + save;
    } else {
      assert [HashRead(lockFilename)][1..] == [];
    }
  }

  /** On a cache hit the folder is done after the restore: nothing is installed and nothing saved. */
  lemma CacheHitSkipsInstall(env: Env, o: FolderOptions)
    requires HashUsable(env.files.hashFile(LockOf(env, o).lockFilename))
    requires var key := KeyOf(env, o, env.files.hashFile(LockOf(env, o).lockFilename).hex);
             Truthy(RestoreValue(env.store.restoreCache([CacheFolder(o.workingDirectory)], key)))
    ensures FolderRun(env, o).events
            == [HashRead(LockOf(env, o).lockFilename),
                CacheRestore([CacheFolder(o.workingDirectory)], KeyOf(env, o, env.files.hashFile(LockOf(env, o).lockFilename).hex))]
    ensures FolderRun(env, o).outcome == Done
  {
  }

  /** A hash, a restore, some install calls with one command and no save, then one save: one command, one save. */
  lemma {:induction false} MissTraceCounts(lockFilename: Path, folder: Path, key: string, install: seq<Event>)
    requires Count(install, Executing) == 1 && Count(install, Saving) == 0
    ensures var t := [HashRead(lockFilename), CacheRestore([folder], key)] + install + [CacheSave([folder], key)];
            Count(t, Executing) == 1 && Count(t, Saving) == 1
  {
    var restore := [HashRead(lockFilename), CacheRestore([folder], key)];
    var save := [CacheSave([folder], key)];
    assert Count(restore, Executing) == 0 && Count(restore, Saving) == 0 by {
      assert restore[1..] == [CacheRestore([folder], key)];
      assert restore[1..][1..] == [];
    }
    assert Count(save, Executing) == 0 && Count(save, Saving) == 1 by {
      assert save[1..] == [];
    }
    CountConcat(restore, install, Executing);
    CountConcat(restore + install, save, Executing);
    CountConcat(restore, install, Saving);
    CountConcat(restore + install, save, Saving);
  }

  /**
   * On a miss after a successful install, the folder installs once and then saves once,
   * the same folder under the same key it tried to restore.
   */
  lemma CacheMissInstallsOnceThenSaves(env: Env, o: FolderOptions)
    requires HashUsable(env.files.hashFile(LockOf(env, o).lockFilename))
    requires var key := KeyOf(env, o, env.files.hashFile(LockOf(env, o).lockFilename).hex);
             !Truthy(RestoreValue(env.store.restoreCache([CacheFolder(o.workingDirectory)], key)))
    requires InstallRun(env.shell, InstallOptionsOf(env, o)).outcome == Done
    ensures var r := FolderRun(env, o);
            |r.events| >= 3 && r.events[1].CacheRestore? && r.events[|r.events| - 1].CacheSave?
            && r.events[|r.events| - 1].paths == r.events[1].paths == [CacheFolder(o.workingDirectory)]
            && r.events[|r.events| - 1].key == r.events[1].key
            && Count(r.events, Executing) == 1 && Count(r.events, Saving) == 1 && r.outcome == Done
    ensures FolderRun(env, o).events
            == [HashRead(LockOf(env, o).lockFilename),
                CacheRestore([CacheFolder(o.workingDirectory)], KeyOf(env, o, env.files.hashFile(LockOf(env, o).lockFilename).hex))]
               + InstallRun(env.shell, InstallOptionsOf(env, o)).events
               + [CacheSave([CacheFolder(o.workingDirectory)], KeyOf(env, o, env.files.hashFile(LockOf(env, o).lockFilename).hex))]
  {
    var lockFilename := LockOf(env, o).lockFilename;
    var folder := CacheFolder(o.workingDirectory);
    var key := KeyOf(env, o, env.files.hashFile(lockFilename).hex);
    var install := InstallRun(env.shell, InstallOptionsOf(env, o));
    InstallTouchesNoCache(env.shell, InstallOptionsOf(env, o));
    InstallRunsOneCommand(env.shell, InstallOptionsOf(env, o));
    MissTraceCounts(lockFilename, folder, key, install.events);
    assert FolderRun(env, o).events == [HashRead(lockFilename), CacheRestore([folder], key)] + install.events + [CacheSave([folder], key)];
  }

  /** When the cache misses and the install fails, the folder fails with the same error and nothing is saved. */
  lemma {:induction false} InstallFailurePropagates(env: Env, o: FolderOptions)
    requires HashUsable(env.files.hashFile(LockOf(env, o).lockFilename))
    requires var key := KeyOf(env, o, env.files.hashFile(LockOf(env, o).lockFilename).hex);
             !Truthy(RestoreValue(env.store.restoreCache([CacheFolder(o.workingDirectory)], key)))
    requires InstallRun(env.shell, InstallOptionsOf(env, o)).outcome.Thrown?
    ensures FolderRun(env, o).outcome == InstallRun(env.shell, InstallOptionsOf(env, o)).outcome
    ensures Count(FolderRun(env, o).events, Saving) == 0
  {
    var lockFilename := LockOf(env, o).lockFilename;
    var folder := CacheFolder(o.workingDirectory);
    var key := KeyOf(env, o, env.files.hashFile(lockFilename).hex);
    var restore := [HashRead(lockFilename), CacheRestore([folder], key)];
    var install := InstallRun(env.shell, InstallOptionsOf(env, o));
    InstallTouchesNoCache(env.shell, InstallOptionsOf(env, o));
    assert Count(restore, Saving) == 0 by {
      assert restore[1..] == [CacheRestore([folder], key)];
      assert restore[1..][1..] == [];
    }
    CountConcat(restore, install.events, Saving);
  }

  /** The store replaced by one whose every restore resolves to `undefined`: a plain cache miss. */
  function AlwaysMiss(env: Env): Env {
    env.(store := env.store.(restoreCache := (paths: seq<Path>, key: string) => Resolved(Undefined)))
  }

  /** The store replaced by one whose every save answers `reply`. */
  function SavesAnswer(env: Env, reply: StoreReply): Env {
    env.(store := env.store.(saveCache := (paths: seq<Path>, key: string) => reply))
  }

  /** A restore that fails is a miss: the folder goes on exactly as when the cache is empty. */
  lemma RestoreFailureIsMiss(env: Env, o: FolderOptions)
    requires forall paths, key :: env.store.restoreCache(paths, key).Rejected?
    ensures FolderRun(env, o) == FolderRun(AlwaysMiss(env), o)
  {
    var lockFilename := LockOf(env, o).lockFilename;
    assert LockOf(AlwaysMiss(env), o) == LockOf(env, o);
    var h := env.files.hashFile(lockFilename);
    if HashUsable(h) {
      var folder := CacheFolder(o.workingDirectory);
      var key := KeyOf(env, o, h.hex);
      assert KeyOf(AlwaysMiss(env), o, h.hex) == key;
      assert !Truthy(RestoreValue(env.store.restoreCache([folder], key)));
      assert !Truthy(RestoreValue(AlwaysMiss(env).store.restoreCache([folder], key)));
      assert InstallOptionsOf(AlwaysMiss(env), o) == InstallOptionsOf(env, o);
    }
  }

  /** Whatever the store answers to a save, the folder's calls and its outcome stay the same: save errors never propagate. */
  lemma SaveReplyIgnored(env: Env, o: FolderOptions, reply: StoreReply)
    ensures FolderRun(SavesAnswer(env, reply), o) == FolderRun(env, o)
  {
    assert LockOf(SavesAnswer(env, reply), o) == LockOf(env, o);
    assert InstallOptionsOf(SavesAnswer(env, reply), o) == InstallOptionsOf(env, o);
  }

  /** The settings `npmInstallAction` reads once and passes to every folder. */
  datatype Config = Config(usePackageLock: bool, useRollingCache: bool, installCommand: string)

  function FolderOptionsOf(cfg: Config, wd: Path): FolderOptions {
    FolderOptions(cfg.usePackageLock, wd, cfg.useRollingCache, cfg.installCommand)
  }

  /** What the loop does for one folder: `installInOneFolder` with the shared settings. */
  function FolderStep(env: Env, cfg: Config): Path -> Run {
    (wd: Path) => FolderRun(env, FolderOptionsOf(cfg, wd))
  }

  /** The folders one after the other, each run by `step`, stopping at the first that throws. */
  function FoldersRun(step: Path -> Run, dirs: seq<Path>): Run
    decreases |dirs|
  {
    if dirs == [] then Run([], Done)
    else
      var first := step(dirs[0]);
      if first.outcome.Thrown? then first
      else
        var rest := FoldersRun(step, dirs[1..]);
        Run(first.events + rest.events, rest.outcome)
  }

  /** One step of the folder loop: the folder at `i` runs, then, unless it throws, the folders after it. */
  lemma FoldersRunStep(step: Path -> Run, dirs: seq<Path>, i: nat)
    requires i < |dirs|
    ensures var first := step(dirs[i]);
            var rest := FoldersRun(step, dirs[i + 1..]);
            FoldersRun(step, dirs[i..])
            == if first.outcome.Thrown? then first else Run(first.events + rest.events, rest.outcome)
  {
    assert dirs[i..][1..] == dirs[i + 1..];
  }

  /** The calls of each folder, one folder after the other. */
  function ConcatEvents(step: Path -> Run, dirs: seq<Path>): (events: seq<Event>)
    decreases |dirs|
  {
    if dirs == [] then [] else step(dirs[0]).events + ConcatEvents(step, dirs[1..])
  }

  /** The position of the first folder that throws, or the number of folders when none does. */
  function FirstFailure(step: Path -> Run, dirs: seq<Path>): (k: nat)
    ensures k <= |dirs|
    ensures forall i :: 0 <= i < k ==> step(dirs[i]).outcome == Done
    ensures k < |dirs| ==> step(dirs[k]).outcome.Thrown?
    decreases |dirs|
  {
    if dirs == [] then 0
    else if step(dirs[0]).outcome.Thrown? then 0
    else 1 + FirstFailure(step, dirs[1..])
  }

  /**
   * The folders run in order, each once, up to and including the first that throws, and the
   * whole run ends as that folder ended; when none throws it is done.
   */
  lemma {:induction false} StopsAtFirstFailure(step: Path -> Run, dirs: seq<Path>)
    ensures var k := FirstFailure(step, dirs);
            var r := FoldersRun(step, dirs);
            if k < |dirs| then
              r.events == ConcatEvents(step, dirs[..k]) + step(dirs[k]).events && r.outcome == step(dirs[k]).outcome
            else
              r.events == ConcatEvents(step, dirs) && r.outcome == Done
    decreases |dirs|
  {
    if dirs != [] {
      var first := step(dirs[0]);
      if first.outcome.Thrown? {
        assert dirs[..0] == [];
      } else {
        StopsAtFirstFailure(step, dirs[1..]);
        var k := FirstFailure(step, dirs[1..]);
        assert dirs[..k + 1] == [dirs[0]] + dirs[1..][..k];
        assert dirs[..k + 1][1..] == dirs[1..][..k];
      }
    }
  }

  /** The whole run is done exactly when every folder is, and then it holds every folder's calls in order. */
  lemma AllFoldersDone(step: Path -> Run, dirs: seq<Path>)
    ensures FoldersRun(step, dirs).outcome == Done <==> forall i :: 0 <= i < |dirs| ==> step(dirs[i]).outcome == Done
    ensures FoldersRun(step, dirs).outcome == Done ==> FoldersRun(step, dirs).events == ConcatEvents(step, dirs)
  {
    StopsAtFirstFailure(step, dirs);
  }

  /** Every folder's lock file is hashed once, in list order: the calls of all the folders hold one hash per folder. */
  lemma {:induction false} OneHashPerFolder(env: Env, cfg: Config, dirs: seq<Path>)
    ensures Count(ConcatEvents(FolderStep(env, cfg), dirs), Hashing) == |dirs|
    decreases |dirs|
  {
    if dirs != [] {
      var o := FolderOptionsOf(cfg, dirs[0]);
      FolderHashesOnce(env, o);
      OneHashPerFolder(env, cfg, dirs[1..]);
      CountConcat(FolderRun(env, o).events, ConcatEvents(FolderStep(env, cfg), dirs[1..]), Hashing);
    }
  }

  /** One folder hashes exactly one file, first. */
  lemma {:induction false} FolderHashesOnce(env: Env, o: FolderOptions)
    ensures Count(FolderRun(env, o).events, Hashing) == 1
    ensures FolderRun(env, o).events[0] == HashRead(LockOf(env, o).lockFilename)
  {
    var lockFilename := LockOf(env, o).lockFilename;
    var h := env.files.hashFile(lockFilename);
    var read := [HashRead(lockFilename)];
    assert Count(read, Hashing) == 1 by {
      assert read[1..] == [];
    }
    if HashUsable(h) {
      var folder := CacheFolder(o.workingDirectory);
      var key := KeyOf(env, o, h.hex);
      var restore := read + [CacheRestore([folder], key)];
      var install := InstallRun(env.shell, InstallOptionsOf(env, o));
      var save := [CacheSave([folder], key)];
      assert Count([CacheRestore([folder], key)], Hashing) == 0 by {
        assert [CacheRestore([folder], key)][1..] == [];
      }
      assert Count(save, Hashing) == 0 by {
        assert save[1..] == [];
      }
      InstallTouchesNoCache(env.shell, InstallOptionsOf(env, o));
      CountConcat(read, [CacheRestore([folder], key)], Hashing);
      CountConcat(restore, install.events, Hashing);
      CountConcat(restore + install.events, save, Hashing);
    }
  }

  /** The settings the action reads: lock files on and rolling cache off unless said otherwise. */
  function ActionConfig(env: Env): (cfg: Config)
    ensures cfg.usePackageLock <==> env.input("useLockFile") != "false" && env.input("useLockFile") != "0"
    ensures cfg.useRollingCache <==> env.input("useRollingCache") == "true" || env.input("useRollingCache") == "1"
  {
    Config(GetInputBool(env.input("useLockFile"), true),
           GetInputBool(env.input("useRollingCache"), false),
           env.input("install-command"))
  }

  /** The folders the action works in, in the order they are listed. */
  function ActionDirs(env: Env): seq<Path> {
    WorkingDirectories(DirectoryListText(env.input("working-directory"), env.cwd))
  }

  /** `npmInstallAction()`: the calls it makes and how it ends. */
  function ActionRun(env: Env): Run {
    FoldersRun(FolderStep(env, ActionConfig(env)), ActionDirs(env))
  }

  /** When the whole action is done, it hashed one lock file for each listed folder. */
  lemma ActionHashesEveryFolder(env: Env)
    ensures ActionRun(env).outcome == Done ==> Count(ActionRun(env).events, Hashing) == |ActionDirs(env)|
  {
    AllFoldersDone(FolderStep(env, ActionConfig(env)), ActionDirs(env));
    OneHashPerFolder(env, ActionConfig(env), ActionDirs(env));
  }

  /** Without a `working-directory` input, the current directory is read as the list of folders, by the same rules. */
  lemma EmptyInputParsesCwd(env: Env)
    requires env.input("working-directory") == ""
    ensures ActionDirs(env) == WorkingDirectories(env.cwd)
  {
  }

  /** Without a `working-directory` input and with a clean current directory, the action works there alone. */
  lemma EmptyInputUsesCwd(env: Env)
    requires env.input("working-directory") == ""
    requires env.cwd != "" && '\n' !in env.cwd && IsTrimmed(env.cwd)
    ensures ActionDirs(env) == [env.cwd]
  {
    WorkingDirectoriesRoundTrip([env.cwd]);
    assert Join("\n", [env.cwd]) == env.cwd;
  }

  /**
   * When `core.getInput` hands over non-empty text of blank lines (untrimmed), it names no folder
   * and the action does nothing.
   */
  lemma {:induction false} BlankInputDoesNothing(env: Env)
    requires env.input("working-directory") != ""
    requires forall k :: 0 <= k < |env.input("working-directory")| ==> IsSpace(env.input("working-directory")[k])
    ensures ActionDirs(env) == []
    ensures ActionRun(env) == Run([], Done)
  {
    var text := env.input("working-directory");
    SplitAddsNothing(text, '\n');
    BlankLinesNoEntries(Split(text, '\n'), text);
  }

  /** Lines taken from all-blank text yield no entry. */
  lemma {:induction false} BlankLinesNoEntries(lines: seq<string>, text: string)
    requires forall k :: 0 <= k < |text| ==> IsSpace(text[k])
    requires forall i :: 0 <= i < |lines| ==> forall c :: c in lines[i] ==> c in text
    ensures Entries(lines) == []
    decreases |lines|
  {
    if lines != [] {
      BlankLinesNoEntries(lines[1..], text);
      TrimBlankIff(lines[0]);
      forall k | 0 <= k < |lines[0]| ensures IsSpace(lines[0][k]) {
        assert lines[0][k] in text;
      }
    }
  }
}
