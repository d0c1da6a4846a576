# npm-install action: a Dafny model

This project models the GitHub Action that installs a JavaScript project's dependencies with npm or yarn and caches
`node_modules`. It covers the action's single module, `index.js`. For every folder listed in the
`working-directory` input, the action does the following:

1. It picks the file whose hash keys the cache: `yarn.lock`, `npm-shrinkwrap.json`, `package-lock.json`, or `package.json`
   when lock files are switched off.
2. It hashes that file and builds a primary key from:
   - the package manager;
   - the platform and architecture;
   - optionally the year and the zero-based month (the "rolling" cache);
   - the hash.
3. It tries to restore `<folder>/node_modules` under that key.
4. On a miss, it runs the install command (a custom one, `yarn [--frozen-lockfile]` or `npm ci|install`). Then it saves
   `node_modules` under the same key.

Cache errors never stop the action. A missing option, an unreadable or empty hash, a missing tool or a failing command
do stop it. The folders run one after the other, and the first one that throws ends the action.

The model is organised as follows:

- Every collaborator is a field of the `Effects.Env` record. The collaborators are `core.getInput`, `process.cwd`, the
  platform string, the clock, `fs.existsSync`, the MD5 file hasher, `cache.restoreCache`/`saveCache`, `io.which`,
  `exec.exec`, `path.resolve` and `quote`.
- Each call with an effect is recorded as an `Event`.
- Pure functions (`Installer.InstallRun`, `Orchestrator.FolderRun`, `Orchestrator.FoldersRun`, `Orchestrator.ActionRun`)
  say which calls each operation makes, in order, and how it ends (`Run`). The lemmas about the action's behaviour are
  stated against these functions.
- The class `Action.Api` holds the same operations as imperative methods that append to a `trace`. Each method is proved
  to leave exactly the trace, and the outcome, that its function describes.
- String handling follows JavaScript:
  - `split('\n')` keeps empty pieces;
  - `trim` removes the ECMAScript white space and line terminators;
  - `String(n)` prints a sign and decimal digits;
  - `path.join` is `dir + "/" + name`.

Two points follow the code as written:

- `restoreCachedNpm` calls `cache.restoreCache([path], key)` with no list of restore keys (index.js:36). The project's
  own tests expect a third argument `[key]` (test/action-spec.js:55-58); the model has none.
- `restoreCachedNpm` resolves to whatever value the store resolves to (index.js:37-40). `installInOneFolder` judges
  that value by JavaScript truthiness (index.js:214).

## Model

| member | source | states |
|---|---|---|
| Inputs.GetInputBool | index.js:18-28 | `"true"`/`"1"` read as true and `"false"`/`"0"` as false; every other text, the empty one included, gives the default |
| Inputs.DefaultDecidesIff | index.js:18-28 | the default matters exactly when the input is none of the four recognised words |
| Inputs.InputBoolRoundTrip | index.js:20-25 | a switch written as `true`/`false` reads back as itself, whatever the default |
| Text.Split | index.js:236 | `split` gives at least one piece, and no piece contains the separator |
| Text.JoinSplit | index.js:236 | joining the pieces of `split` with the separator restores the text |
| Text.SplitJoin | index.js:236 | splitting separator-free lines joined by the separator gives back exactly those lines, empty ones included |
| Text.SplitPrefix | index.js:236 | a separator-free prefix merges into the first piece of the split |
| Text.SplitAddsNothing | index.js:236 | every character of every piece comes from the text |
| Text.TrimStartRemovesSpace | index.js:237 | the leading part `trim` drops is all white space, and what remains does not start with white space |
| Text.TrimEndRemovesSpace | index.js:237 | the trailing part `trim` drops is all white space, and what remains does not end with white space |
| Text.TrimIsTrimmed | index.js:237 | the result of `trim` neither starts nor ends with white space |
| Text.TrimAddsNothing | index.js:237 | `trim` introduces no character |
| Text.TrimBlankIff | index.js:237-238 | a line trims to the empty string, and is filtered out, exactly when it is all white space |
| Text.TrimNoOp | index.js:237 | `trim` leaves a trimmed text unchanged |
| Text.TrimPadded | index.js:237 | a trimmed word padded with white space on both sides trims back to the word |
| Text.DecimalRoundTrip | index.js:163-164 | the decimal digits `String(n)` prints for a natural number parse back to it |
| Text.IntToStringInjective | index.js:163-164 | `String(i)` is injective on integers |
| Inputs.Entries | index.js:237-238 | the entries are at most as many as the lines |
| Inputs.EntriesClean | index.js:237-238 | every entry is non-empty and trimmed, and has no line break when the lines have none |
| Inputs.WorkingDirectoriesClean | index.js:235-238 | every working directory is a non-empty, trimmed, single-line text |
| Inputs.EntriesKeepClean | index.js:237-238 | entries that are already trimmed and non-empty all survive, in order |
| Inputs.WorkingDirectoriesRoundTrip | index.js:235-238 | listing clean directories one per line and parsing the list gives back exactly those directories |
| Inputs.WorkingDirectoriesPerLine | index.js:235-238 | the directories of a list are the entries of its lines, read line by line |
| Inputs.EntriesOfOne | index.js:237-238 | one line yields its trimmed text, or nothing when it is blank |
| Inputs.EntriesAppend | index.js:237-238 | lines are read independently: the entries of two blocks are the entries of each, in order |
| Inputs.EntriesOfSixLines | index.js:237-238 | six lines of which three are blank yield the trimmed text of the other three |
| Inputs.IndentedListWithBlankLines | test/action-spec.js:225-230 | an indented list with a leading blank line, a blank line in the middle and a trailing blank line names `subfolder/foo`, `subfolder/bar` and `subfolder/baz`, in that order |
| Paths.PathJoin | index.js:123-124 | `path.join(dir, name)` begins with the folder and a slash |
| Paths.PathJoinInjective | index.js:123-140 | within one folder, different names give different paths |
| LockFile.Candidates | index.js:122-151 | a folder offers at most four files to choose from |
| LockFile.GetLockFilename | index.js:122-151 | yarn is used exactly when `yarn.lock` exists, and the chosen file is one of the four candidates of the folder |
| LockFile.FirstPresent | index.js:141-148 | the result is a listed name that exists, or the fallback |
| LockFile.FirstPresentIsFirst | index.js:141-148 | with no listed name present the result is the fallback; otherwise it is a present listed name with no present name before it |
| LockFile.LockFilePriority | index.js:136-150 | with lock files on, the choice is the first present of `yarn.lock` and `npm-shrinkwrap.json`, otherwise `package-lock.json` |
| LockFile.DistinctNames | index.js:123-140 | the four candidate names give four different paths |
| LockFile.ManifestIffNoLock | index.js:127-132 | `package.json` is hashed exactly when lock files are off |
| LockFile.YarnLockIff | index.js:124-125 | `yarn.lock` is hashed exactly when lock files are on and it exists |
| LockFile.ShrinkwrapIff | index.js:141-144 | `npm-shrinkwrap.json` is hashed exactly when lock files are on, it exists and `yarn.lock` does not |
| LockFile.YarnIndependentOfSwitch | index.js:124-125 | whether yarn is used does not depend on the lock-file switch |
| CacheKey.KeySegments | index.js:156-169 | a key has five segments when rolling and three otherwise |
| CacheKey.KeyFormat | index.js:153-172 | the key reads `yarn`/`npm`, a dash, platform and architecture, a dash, then `year-month-` when rolling, then the hash |
| CacheKey.KeyDeterminesHash | index.js:153-172 | for one manager, platform and month, different hashes give different keys |
| CacheKey.KeyDistinguishesManager | index.js:158 | a yarn key never equals an npm key, whatever the platforms, windows and hashes of the two |
| CacheKey.NoDash | index.js:163-164 | the year and the month print without a dash |
| CacheKey.RollingKeyInjective | index.js:160-166 | a rolling key determines its year, its month and its hash, so the cache rotates every month |
| CacheKey.February2020 | index.js:160-166 | February 2020 appears in a rolling key as `2020-1-` (the month counts from zero) |
| CacheKey.RollingYarnKeyExample | test/action-spec.js:262 | the rolling yarn key of the test scenario is `yarn-platform-arch-2020-1-hash-from-yarn-lock-file` |
| CacheKey.ManifestNpmKeyExample | test/action-spec.js:184 | the npm key over `package.json` in the test scenario is `npm-platform-arch-hash-from-package-json` |
| Installer.MissingRequired | index.js:64-81 | `install` goes on exactly when `useYarn`, `usePackageLock` and `workingDirectory` are all present; otherwise it names the first one missing, in that order |
| Installer.ManagerArgs | index.js:100-112 | at most one argument; none exactly for yarn without lock files |
| Installer.ExecRun | index.js:92-114 | one command is run in the given folder, and it succeeds exactly when the command does |
| Installer.MissingOptionThrowsFirst | index.js:70-81 | `install` makes no call exactly when an option is missing, and then throws naming the first missing one |
| Installer.CustomCommandOverrides | index.js:86-93 | a custom command runs alone, with no arguments, in the resolved folder, whatever the yarn and lock-file settings |
| Installer.ManagerCommand | index.js:95-116 | without a custom command, the manager is looked up, then run quoted with `--frozen-lockfile`/nothing (yarn) or `ci`/`install` (npm), in the resolved folder; `install` succeeds exactly when that command does |
| Installer.ToolNotFoundThrows | index.js:95-116 | without a custom command, a manager that `io.which` cannot find makes `install` throw after the lookup, and no command runs |
| Installer.CommandsRunInResolvedDirectory | index.js:86-88 | every command runs in `path.resolve(workingDirectory)` |
| Installer.InstallTouchesNoCache | index.js:66-117 | `install` neither hashes nor restores nor saves |
| Installer.InstallRunsOneCommand | index.js:66-117 | `install` runs at most one command, and succeeds only after running one |
| Orchestrator.RestoreValue | index.js:35-45 | a rejected restore resolves to `undefined`, which is falsy; a resolved one to the store's own value |
| Orchestrator.SaveValue | index.js:51-61 | a resolved save gives the store's value; a rejected one gives `-1` exactly for a reservation clash and `undefined` exactly for any other error |
| Orchestrator.InstallOptionsOf | index.js:203-209 | the options built for `install` have every required key |
| Orchestrator.HashFailureTouchesNoCache | index.js:183-191 | when the lock file cannot be hashed or hashes to nothing, the folder throws after the hash, before any cache call |
| Orchestrator.CacheReachedIff | index.js:183-212 | a folder tries the cache exactly when its lock file hashes to a non-empty digest, and then once |
| Orchestrator.CacheHitSkipsInstall | index.js:211-216 | on a hit the folder is done after hashing and restoring: nothing is installed or saved |
| Orchestrator.MissTraceCounts | index.js:211-222 | a hash, a restore, an install that runs one command, then a save: one command and one save in all |
| Orchestrator.CacheMissInstallsOnceThenSaves | index.js:211-222 | on a miss with a successful install, the calls are the hash, the restore, exactly the calls of `install` with the folder's options, then the save, of the same folder under the same key as the restore; one command and one save in all |
| Orchestrator.InstallFailurePropagates | index.js:211-221 | on a miss, a failing install fails the folder with the same error, and nothing is saved |
| Orchestrator.RestoreFailureIsMiss | index.js:41-45 | a store whose restores all reject gives the same calls and outcome as an empty cache |
| Orchestrator.SaveReplyIgnored | index.js:51-61 | whatever the store answers to a save, the folder's calls and outcome are the same |
| Orchestrator.FoldersRunStep | index.js:244-253 | the folder loop unrolled by one: a folder that throws ends the loop, otherwise the rest follows |
| Orchestrator.FirstFailure | index.js:244-253 | the folders before the first failing one are all done, and the one at that position throws |
| Orchestrator.StopsAtFirstFailure | index.js:244-253 | the folders run in order, each once, up to and including the first that throws, and the action ends as that folder did |
| Orchestrator.AllFoldersDone | index.js:244-253 | the action is done exactly when every folder is, and then its calls are every folder's calls in order |
| Orchestrator.OneHashPerFolder | index.js:244-253 | the folders' calls hold one hash per folder |
| Orchestrator.FolderHashesOnce | index.js:183-186 | a folder hashes exactly one file, first |
| Orchestrator.ActionConfig | index.js:226-227 | lock files are on unless `useLockFile` is `false` or `0`; the rolling cache is on only when `useRollingCache` is `true` or `1` |
| Orchestrator.ActionHashesEveryFolder | index.js:225-254 | a completed action hashed one lock file per listed folder |
| Orchestrator.EmptyInputParsesCwd | index.js:233-238 | without a `working-directory` input, `process.cwd()` is split, trimmed and filtered like an input list |
| Orchestrator.EmptyInputUsesCwd | index.js:233 | without a `working-directory` input the action works in the current directory alone, when `process.cwd()` is a non-empty, trimmed, single-line path |
| Orchestrator.BlankInputDoesNothing | index.js:233-238 | when `core.getInput` returns non-empty text of blank lines, that text names no folder, and the action makes no call |
| Inputs.TrimmedBlankUsesCwd | index.js:233 | when `core.getInput` trims a blank input to the empty text, the folder list falls back to the current directory |
| Orchestrator.BlankLinesNoEntries | index.js:237-238 | lines drawn from blank text yield no entry |
| Action.Api.constructor | index.js:259-260 | a fresh action has made no call |
| Action.Api.RestoreCachedNpm | index.js:30-46 | records one restore of `[inputPath]` under the key, and returns the store's value, or `undefined` on rejection |
| Action.Api.SaveCachedNpm | index.js:48-62 | records one save of `[inputPath]` under the key, and returns the store's value, or `-1`/`undefined` on rejection |
| Action.Api.Exec | index.js:92 | records the command, and fails exactly when the command fails |
| Action.Api.Install | index.js:66-117 | makes exactly the calls, and ends exactly as, `Installer.InstallRun` says |
| Action.Api.InstallInOneFolder | index.js:174-223 | makes exactly the calls, and ends exactly as, `Orchestrator.FolderRun` says |
| Action.Api.InstallEachFolder | index.js:244-253 | the loop over the folders makes exactly the calls, and ends exactly as, `Orchestrator.FoldersRun` says |
| Action.Api.NpmInstallAction | index.js:225-254 | makes exactly the calls, and ends exactly as, `Orchestrator.ActionRun` says |

## Left out

- Logging (`console.log`, `console.warn`, `console.error`, `core.debug`) is not modelled: it changes no state the action reads.
- MD5 itself is not modelled. The hasher is an abstract function from a path to a digest or to a failure to read.
- `path.resolve`, `io.which`, `quote` and `exec.exec` are abstract functions of the `Shell` record. Operating-system
  path semantics are not modelled: `path.join` is plain `dir + "/" + name`, without normalisation of `..`, `.` or repeated slashes.
- Promises are modelled as sequential calls, in the order they are awaited. A rejected promise is an `Outcome.Thrown`.
  The value `installInOneFolder` resolves to (the save's answer) is dropped, because its only caller ignores it.
- Action.Api.InstallInOneFolder: does not return the save's answer (see above); `Orchestrator.SaveReplyIgnored` shows that the answer cannot change anything.
- The module's entry point (`if (!module.parent)`, `core.setFailed`) and the exported `api` object are not modelled.
  `api.utils` indirection is resolved statically: the methods of `Action.Api` call each other directly.
- `core.getInput` is an abstract function from input names to texts (the empty text when the input is absent). The
  toolkit's own trimming of input values is not part of this model. With that trimming, a blank `working-directory`
  arrives as the empty text and falls back to the current directory (`Inputs.TrimmedBlankUsesCwd`,
  `Orchestrator.EmptyInputUsesCwd`). `Orchestrator.BlankInputDoesNothing` covers only a `core.getInput` that returns
  blank text untrimmed.
- Effects.Truthy: NaN, objects and other JavaScript values a store might resolve to are not among the modelled values.
- An `opts` object that has a key whose value is `undefined` counts as having the option in `hasOption`. The model
  has no such value, because `installInOneFolder` always passes every key.
- Orchestrator.EmptyInputUsesCwd: assumes a clean current directory (non-empty, trimmed, no line break). The source
  runs the `process.cwd()` fallback through the same split, trim and filter as an input list (index.js:233-238), so a
  directory name with a line break or edge white space is re-parsed; `Orchestrator.EmptyInputParsesCwd` states that
  general case.
- `fs.existsSync` is a pure function of the path, so the model does not record the number or order of existence checks.
- `getNow()` is a fixed `Date(year, month)`, one value for the whole run. The source reads the clock once per folder
  (index.js:161, reached through index.js:197), so a run that crosses a month boundary can key its folders with
  different months; the model does not capture that. `getMonth()`'s range 0-11 is not enforced.
- The `for … of` loop of `npmInstallAction` is a separate method, `Action.Api.InstallEachFolder`, called once the
  inputs are read.
