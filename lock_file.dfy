/** Choosing the file whose hash keys the cache: `getLockFilename`. */
module LockFile {
  import opened Paths

  const PackageJson := "package.json"
  const YarnLock := "yarn.lock"
  const NpmShrinkwrap := "npm-shrinkwrap.json"
  const PackageLock := "package-lock.json"

  /** The `{ useYarn, lockFilename }` record `getLockFilename` returns. */
  datatype LockInfo = LockInfo(useYarn: bool, lockFilename: Path)

  /** The four files of a folder the choice can fall on. */
  function Candidates(wd: Path): (c: set<Path>)
    ensures |c| <= 4
  {
    {PathJoin(wd, PackageJson), PathJoin(wd, YarnLock), PathJoin(wd, NpmShrinkwrap), PathJoin(wd, PackageLock)}
  }

  /** `getLockFilename(usePackageLock)(workingDirectory)`, with `fs.existsSync` as `fileExists`. */
  function GetLockFilename(usePackageLock: bool, wd: Path, fileExists: Path -> bool): (info: LockInfo)
    ensures info.useYarn == fileExists(PathJoin(wd, YarnLock))
    ensures info.lockFilename in Candidates(wd)
  {
    var yarnFilename := PathJoin(wd, YarnLock);
    var useYarn := fileExists(yarnFilename);
    if !usePackageLock then LockInfo(useYarn, PathJoin(wd, PackageJson))
    else
      var shrinkwrapFilename := PathJoin(wd, NpmShrinkwrap);
      var npmFilename :=
        if !useYarn && fileExists(shrinkwrapFilename) then shrinkwrapFilename else PathJoin(wd, PackageLock);
      LockInfo(useYarn, if useYarn then yarnFilename else npmFilename)
  }

  /** The first of `names` present in `wd`, or `fallback` when none is. */
  function FirstPresent(wd: Path, names: seq<string>, fallback: string, fileExists: Path -> bool): (p: Path)
    ensures p == PathJoin(wd, fallback) || exists i :: 0 <= i < |names| && p == PathJoin(wd, names[i])
    ensures fileExists(p) || p == PathJoin(wd, fallback)
    decreases |names|
  {
    if names == [] then PathJoin(wd, fallback)
    else if fileExists(PathJoin(wd, names[0])) then PathJoin(wd, names[0])
    else FirstPresent(wd, names[1..], fallback, fileExists)
  }

  /**
   * `FirstPresent` is a first-match search: with no listed name present it gives the fallback, and
   * otherwise it gives a present listed name before which no listed name is present.
   */
  lemma {:induction false} FirstPresentIsFirst(wd: Path, names: seq<string>, fallback: string, fileExists: Path -> bool)
    ensures (forall i :: 0 <= i < |names| ==> !fileExists(PathJoin(wd, names[i])))
            ==> FirstPresent(wd, names, fallback, fileExists) == PathJoin(wd, fallback)
    ensures (exists i :: 0 <= i < |names| && fileExists(PathJoin(wd, names[i])))
            ==> exists i :: 0 <= i < |names| && FirstPresent(wd, names, fallback, fileExists) == PathJoin(wd, names[i])
                            && fileExists(PathJoin(wd, names[i]))
                            && forall j :: 0 <= j < i ==> !fileExists(PathJoin(wd, names[j]))
    decreases |names|
  {
    if names != [] && !fileExists(PathJoin(wd, names[0])) {
      var rest := names[1..];
      FirstPresentIsFirst(wd, rest, fallback, fileExists);
      if exists i :: 0 <= i < |names| && fileExists(PathJoin(wd, names[i])) {
        var i :| 0 <= i < |names| && fileExists(PathJoin(wd, names[i]));
        assert rest[i - 1] == names[i];
        var k :| 0 <= k < |rest| && FirstPresent(wd, rest, fallback, fileExists) == PathJoin(wd, rest[k])
                 && fileExists(PathJoin(wd, rest[k]))
                 && forall j :: 0 <= j < k ==> !fileExists(PathJoin(wd, rest[j]));
        assert names[k + 1] == rest[k];
        forall j | 0 <= j < k + 1
          ensures !fileExists(PathJoin(wd, names[j]))
        {
          if j > 0 {
            assert names[j] == rest[j - 1];
          }
        }
      } else {
        forall i | 0 <= i < |rest|
          ensures !fileExists(PathJoin(wd, rest[i]))
        {
          assert rest[i] == names[i + 1];
        }
      }
    }
  }

  /**
   * With lock files enabled, the choice is the first present of `yarn.lock` and
   * `npm-shrinkwrap.json`, in that order, and `package-lock.json` otherwise.
   */
  lemma LockFilePriority(wd: Path, fileExists: Path -> bool)
    ensures GetLockFilename(true, wd, fileExists).lockFilename
            == FirstPresent(wd, [YarnLock, NpmShrinkwrap], PackageLock, fileExists)
  {
    var names := [YarnLock, NpmShrinkwrap];
    assert names[1..] == [NpmShrinkwrap];
    assert names[1..][1..] == [];
  }

  /** Two different names never give the same path in one folder. */
  lemma DistinctNames(wd: Path, a: string, b: string)
    requires a != b
    ensures PathJoin(wd, a) != PathJoin(wd, b)
  {
    if PathJoin(wd, a) == PathJoin(wd, b) {
      PathJoinInjective(wd, a, b);
    }
  }

  /** The manifest `package.json` is hashed exactly when lock files are disabled. */
  lemma ManifestIffNoLock(usePackageLock: bool, wd: Path, fileExists: Path -> bool)
    ensures GetLockFilename(usePackageLock, wd, fileExists).lockFilename == PathJoin(wd, PackageJson)
            <==> !usePackageLock
  {
    DistinctNames(wd, PackageJson, YarnLock);
    DistinctNames(wd, PackageJson, NpmShrinkwrap);
    DistinctNames(wd, PackageJson, PackageLock);
  }

  /** `yarn.lock` is hashed exactly when lock files are enabled and it exists. */
  lemma YarnLockIff(usePackageLock: bool, wd: Path, fileExists: Path -> bool)
    ensures GetLockFilename(usePackageLock, wd, fileExists).lockFilename == PathJoin(wd, YarnLock)
            <==> usePackageLock && fileExists(PathJoin(wd, YarnLock))
  {
    DistinctNames(wd, YarnLock, PackageJson);
    DistinctNames(wd, YarnLock, NpmShrinkwrap);
    DistinctNames(wd, YarnLock, PackageLock);
  }

  /** `npm-shrinkwrap.json` is hashed exactly when lock files are enabled, it exists and `yarn.lock` does not. */
  lemma ShrinkwrapIff(usePackageLock: bool, wd: Path, fileExists: Path -> bool)
    ensures GetLockFilename(usePackageLock, wd, fileExists).lockFilename == PathJoin(wd, NpmShrinkwrap)
            <==> usePackageLock && !fileExists(PathJoin(wd, YarnLock)) && fileExists(PathJoin(wd, NpmShrinkwrap))
  {
    DistinctNames(wd, NpmShrinkwrap, PackageJson);
    DistinctNames(wd, NpmShrinkwrap, YarnLock);
    DistinctNames(wd, NpmShrinkwrap, PackageLock);
  }

  /** Whether yarn is used depends on `yarn.lock` alone, not on the lock-file switch. */
  lemma YarnIndependentOfSwitch(wd: Path, fileExists: Path -> bool)
    ensures GetLockFilename(true, wd, fileExists).useYarn == GetLockFilename(false, wd, fileExists).useYarn
  {
  }
}
