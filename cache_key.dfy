/** The primary key of the `node_modules` cache entry: `getCachePrimaryKey`. */
module CacheKey {
  import opened Text
  import opened Effects

  /** The first key segment: the package manager. */
  function ManagerTag(useYarn: bool): string {
    if useYarn then "yarn" else "npm"
  }

  /** The segments in the order they are joined: manager, platform and arch, the month when rolling, the hash. */
  function KeySegments(useYarn: bool, useRollingCache: bool, lockHash: string, platformArch: string, now: Date): (parts: seq<string>)
    ensures |parts| == if useRollingCache then 5 else 3
  {
    [ManagerTag(useYarn), platformArch]
      + (if useRollingCache then [IntToString(now.year), IntToString(now.month), lockHash] else [lockHash])
  }

  /** `getCachePrimaryKey({ useYarn, useRollingCache, lockHash })`. */
  function PrimaryKey(useYarn: bool, useRollingCache: bool, lockHash: string, platformArch: string, now: Date): string
  {
    Join("-", KeySegments(useYarn, useRollingCache, lockHash, platformArch, now))
  }

  /** The year and the zero-based month as they stand in a rolling key, with the dash after them. */
  function Window(useRollingCache: bool, now: Date): string {
    if useRollingCache then IntToString(now.year) + "-" + IntToString(now.month) + "-" else ""
  }

  /** Joining one more part in front puts it and the separator in front. */
  lemma JoinCons(sep: string, p: string, rest: seq<string>)
    requires rest != []
    ensures Join(sep, [p] + rest) == p + sep + Join(sep, rest)
  {
    assert ([p] + rest)[1..] == rest;
  }

  /** Three parts joined by dashes. */
  lemma JoinThree(a: string, b: string, c: string)
    ensures Join("-", [a, b, c]) == a + "-" + b + "-" + c
  {
    JoinCons("-", b, [c]);
    assert [b] + [c] == [b, c];
    JoinCons("-", a, [b, c]);
    assert [a] + [b, c] == [a, b, c];
  }

  /** Five parts joined by dashes. */
  lemma JoinFive(a: string, b: string, c: string, d: string, e: string)
    ensures Join("-", [a, b, c, d, e]) == a + "-" + b + "-" + (c + "-" + d + "-") + e
  {
    JoinThree(c, d, e);
    JoinCons("-", b, [c, d, e]);
    assert [b] + [c, d, e] == [b, c, d, e];
    JoinCons("-", a, [b, c, d, e]);
    assert [a] + [b, c, d, e] == [a, b, c, d, e];
  }

  /** The key spelled out: manager, platform and arch, the window when rolling, then the lock hash. */
  lemma KeyFormat(useYarn: bool, useRollingCache: bool, lockHash: string, platformArch: string, now: Date)
    ensures PrimaryKey(useYarn, useRollingCache, lockHash, platformArch, now)
            == ManagerTag(useYarn) + "-" + platformArch + "-" + Window(useRollingCache, now) + lockHash
  {
    var tag := ManagerTag(useYarn);
    if useRollingCache {
      var y := IntToString(now.year);
      var m := IntToString(now.month);
      assert KeySegments(useYarn, true, lockHash, platformArch, now) == [tag, platformArch, y, m, lockHash];
      JoinFive(tag, platformArch, y, m, lockHash);
    } else {
      assert KeySegments(useYarn, false, lockHash, platformArch, now) == [tag, platformArch, lockHash];
      JoinThree(tag, platformArch, lockHash);
      assert tag + "-" + platformArch + "-" + "" == tag + "-" + platformArch + "-";
    }
  }

  /** Within one manager, platform and window, the key determines the lock hash. */
  lemma KeyDeterminesHash(useYarn: bool, useRollingCache: bool, h1: string, h2: string, platformArch: string, now: Date)
    requires PrimaryKey(useYarn, useRollingCache, h1, platformArch, now) == PrimaryKey(useYarn, useRollingCache, h2, platformArch, now)
    ensures h1 == h2
  {
    KeyFormat(useYarn, useRollingCache, h1, platformArch, now);
    KeyFormat(useYarn, useRollingCache, h2, platformArch, now);
    CancelPrefix(ManagerTag(useYarn) + "-" + platformArch + "-" + Window(useRollingCache, now), h1, h2);
  }

  /** Yarn keys and npm keys never coincide, whatever the platform, the window and the hash: they differ in their first letter. */
  lemma KeyDistinguishesManager(rolling1: bool, rolling2: bool, h1: string, h2: string,
                                 platformArch1: string, platformArch2: string, now1: Date, now2: Date)
    ensures PrimaryKey(true, rolling1, h1, platformArch1, now1) != PrimaryKey(false, rolling2, h2, platformArch2, now2)
  {
    KeyFormat(true, rolling1, h1, platformArch1, now1);
    KeyFormat(false, rolling2, h2, platformArch2, now2);
    var k1 := PrimaryKey(true, rolling1, h1, platformArch1, now1);
    var k2 := PrimaryKey(false, rolling2, h2, platformArch2, now2);
    assert k1[0] == 'y';
    assert k2[0] == 'n';
  }

  /** The decimal form of a non-negative number holds no dash. */
  lemma NoDash(i: int)
    requires i >= 0
    ensures '-' !in IntToString(i)
  {
    var s := NatToString(i);
    assert forall k :: 0 <= k < |s| ==> IsDigit(s[k]);
    assert !IsDigit('-');
  }

  /** In `a + "-" + b` with no dash in `a`, the first dash stands right after `a`. */
  lemma FirstDash(a: string, b: string)
    requires '-' !in a
    ensures (a + "-" + b)[|a|] == '-'
    ensures forall k :: 0 <= k < |a| ==> (a + "-" + b)[k] != '-'
  {
    forall k | 0 <= k < |a| ensures (a + "-" + b)[k] != '-' {
      assert (a + "-" + b)[k] == a[k];
    }
  }

  /** Two dash-separated pairs whose first parts hold no dash are equal part by part. */
  lemma DashPairs(a: string, b: string, c: string, d: string)
    requires '-' !in a && '-' !in c
    requires a + "-" + b == c + "-" + d
    ensures a == c && b == d
  {
    var s := a + "-" + b;
    FirstDash(a, b);
    FirstDash(c, d);
    assert |a| == |c|;
    assert a == s[..|a|];
    assert c == (c + "-" + d)[..|c|];
    assert b == s[|a| + 1..];
    assert d == (c + "-" + d)[|c| + 1..];
  }

  /**
   * A rolling key determines its year, its month and its lock hash: keys of two
   * different months differ, so the cache rotates every month.
   */
  lemma RollingKeyInjective(useYarn: bool, platformArch: string, h1: string, h2: string, now1: Date, now2: Date)
    requires now1.year >= 0 && now1.month >= 0 && now2.year >= 0 && now2.month >= 0
    requires PrimaryKey(useYarn, true, h1, platformArch, now1) == PrimaryKey(useYarn, true, h2, platformArch, now2)
    ensures now1 == now2 && h1 == h2
  {
    var prefix := ManagerTag(useYarn) + "-" + platformArch + "-";
    var y1, m1 := IntToString(now1.year), IntToString(now1.month);
    var y2, m2 := IntToString(now2.year), IntToString(now2.month);
    KeyFormat(useYarn, true, h1, platformArch, now1);
    KeyFormat(useYarn, true, h2, platformArch, now2);
    assert prefix + Window(true, now1) + h1 == prefix + (y1 + "-" + (m1 + "-" + h1));
    assert prefix + Window(true, now2) + h2 == prefix + (y2 + "-" + (m2 + "-" + h2));
    CancelPrefix(prefix, y1 + "-" + (m1 + "-" + h1), y2 + "-" + (m2 + "-" + h2));
    NoDash(now1.year);
    NoDash(now2.year);
    DashPairs(y1, m1 + "-" + h1, y2, m2 + "-" + h2);
    NoDash(now1.month);
    NoDash(now2.month);
    DashPairs(m1, h1, m2, h2);
    IntToStringInjective(now1.year, now2.year);
    IntToStringInjective(now1.month, now2.month);
  }

  /** February 2020, as the rolling key prints it: `getMonth()` counts from zero. */
  lemma February2020()
    ensures Window(true, Date(2020, 1)) == "2020-1-"
  {
    assert NatToString(2) == "2";
    assert NatToString(20) == "20";
    assert NatToString(202) == "202";
    assert NatToString(2020) == "2020";
  }

  /** The key of the yarn rolling-cache scenario. */
  lemma RollingYarnKeyExample(platformArch: string, lockHash: string)
    requires platformArch == "platform-arch" && lockHash == "hash-from-yarn-lock-file"
    ensures PrimaryKey(true, true, lockHash, platformArch, Date(2020, 1))
            == "yarn-" + platformArch + "-2020-1-" + lockHash
  {
    KeyFormat(true, true, lockHash, platformArch, Date(2020, 1));
    February2020();
  }

  /** The key of the npm scenario that hashes `package.json`. */
  lemma ManifestNpmKeyExample(platformArch: string, lockHash: string)
    requires platformArch == "platform-arch" && lockHash == "hash-from-package-json"
    ensures PrimaryKey(false, false, lockHash, platformArch, Date(2020, 1))
            == "npm-" + platformArch + "-" + lockHash
  {
    KeyFormat(false, false, lockHash, platformArch, Date(2020, 1));
  }
}
