/**
 * The collaborators the action calls -- the GitHub Actions toolkit, the file
 * system, the hasher, the shell and the clock -- as plain values, and the
 * record of the calls made to them.
 */
module Effects {
  import opened Paths

  datatype Option<T> = None | Some(value: T)

  /** What a promise of the cache library resolves to, as far as the action looks at it. */
  datatype JsValue = Undefined | Bool(b: bool) | Num(n: int) | Str(s: string)

  /** JavaScript truthiness, `Boolean(v)` (NaN is not among the values modelled). */
  predicate Truthy(v: JsValue) {
    match v
    case Undefined => false
    case Bool(b) => b
    case Num(n) => n != 0
    case Str(s) => s != ""
  }

  /** `cache.ReserveCacheError`, and every other error a cache call rejects with. */
  datatype StoreError = ReserveCacheError(message: string) | OtherStoreError(message: string)

  /** How a call into the cache store settles. */
  datatype StoreReply = Resolved(value: JsValue) | Rejected(error: StoreError)

  /** `hasha.fromFileSync(file, {algorithm: 'md5'})`: a digest, or a throw when the file cannot be read. */
  datatype HashOutcome = Digest(hex: string) | Unreadable

  /** What the key reads of `new Date()`: `getFullYear()` and the zero-based `getMonth()`. */
  datatype Date = Date(year: int, month: int)

  /** `fs.existsSync` and the MD5 file hasher. */
  datatype FileSystem = FileSystem(fileExists: Path -> bool, hashFile: Path -> HashOutcome)

  /** `cache.restoreCache(paths, key)` and `cache.saveCache(paths, key)`. */
  datatype CacheStore = CacheStore(
    restoreCache: (seq<Path>, string) -> StoreReply,
    saveCache: (seq<Path>, string) -> StoreReply)

  /**
   * `io.which(tool, true)` (no path when the tool is not found), `exec.exec(command, args, {cwd})`
   * (true when its promise resolves), `path.resolve` and `quote`.
   */
  datatype Shell = Shell(
    which: string -> Option<Path>,
    exec: (string, seq<string>, Path) -> bool,
    resolve: Path -> Path,
    quote: string -> string)

  /**
   * Everything the action reads from outside: `core.getInput` (the empty string for an absent input),
   * `process.cwd()`, `getPlatformAndArch()`, `getNow()`, and the three groups of collaborators.
   */
  datatype Env = Env(
    input: string -> string,
    cwd: Path,
    platformArch: string,
    now: Date,
    files: FileSystem,
    store: CacheStore,
    shell: Shell)

  /** One call into a collaborator that has an effect or may fail. */
  datatype Event =
    | HashRead(file: Path)
    | CacheRestore(paths: seq<Path>, key: string)
    | ToolLookup(tool: string)
    | CommandRun(command: string, args: seq<string>, cwd: Path)
    | CacheSave(paths: seq<Path>, key: string)

  /** The errors the action lets propagate; cache errors are not among them. */
  datatype Failure =
    | MissingOption(name: string)
    | HashUnavailable(file: Path)
    | EmptyHash(file: Path)
    | ToolNotFound(tool: string)
    | CommandFailed(command: string)

  datatype Outcome = Done | Thrown(error: Failure)

  /** The calls a piece of the action makes, in order, and how it ends. */
  datatype Run = Run(events: seq<Event>, outcome: Outcome)

  datatype Kind = Hashing | Restoring | Locating | Executing | Saving

  function KindOf(e: Event): Kind {
    match e
    case HashRead(_) => Hashing
    case CacheRestore(_, _) => Restoring
    case ToolLookup(_) => Locating
    case CommandRun(_, _, _) => Executing
    case CacheSave(_, _) => Saving
  }

  /** How many calls of kind `k` a trace holds. */
  function Count(events: seq<Event>, k: Kind): (n: nat)
    ensures n <= |events|
    decreases |events|
  {
    if events == [] then 0
    else (if KindOf(events[0]) == k then 1 else 0) + Count(events[1..], k)
  }

  /** Counting distributes over concatenated traces. */
  lemma {:induction false} CountConcat(a: seq<Event>, b: seq<Event>, k: Kind)
    ensures Count(a + b, k) == Count(a, k) + Count(b, k)
    decreases |a|
  {
    if a == [] {
      assert a + b == b;
    } else {
      CountConcat(a[1..], b, k);
      assert (a + b)[1..] == a[1..] + b;
    }
  }
}
