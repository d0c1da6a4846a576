/**
 * The string operations of JavaScript the action relies on, with their
 * JavaScript meaning: `Array.prototype.join`, `String.prototype.split` on a
 * one-character separator, `String.prototype.trim` and `String(n)` of an
 * integer.
 */
module Text {

  /** The ECMAScript WhiteSpace and LineTerminator code points: what `trim` removes. */
  predicate IsSpace(c: char) {
    || c == '\t' || c == '\n' || c == '\U{B}' || c == '\U{C}' || c == '\r' || c == ' '
    || c == '\U{A0}' || c == '\U{1680}' || ('\U{2000}' <= c <= '\U{200A}')
    || c == '\U{2028}' || c == '\U{2029}' || c == '\U{202F}' || c == '\U{205F}'
    || c == '\U{3000}' || c == '\U{FEFF}'
  }

  /** `parts.join(sep)`. */
  function Join(sep: string, parts: seq<string>): string
  {
    if |parts| == 0 then ""
    else if |parts| == 1 then parts[0]
    else parts[0] + sep + Join(sep, parts[1..])
  }

  /** `s.split(sep)`: the maximal separator-free pieces, empty ones included. */
  function Split(s: string, sep: char): (parts: seq<string>)
    ensures |parts| >= 1
    ensures forall i :: 0 <= i < |parts| ==> sep !in parts[i]
    decreases |s|
  {
    if s == [] then [""]
    else
      var rest := Split(s[1..], sep);
      if s[0] == sep then [""] + rest
      else [[s[0]] + rest[0]] + rest[1..]
  }

  /** The pieces of a split hold only characters of the text. */
  lemma {:induction false} SplitAddsNothing(s: string, sep: char)
    ensures forall i :: 0 <= i < |Split(s, sep)| ==> forall c :: c in Split(s, sep)[i] ==> c in s
    decreases |s|
  {
    if s != [] {
      SplitAddsNothing(s[1..], sep);
      var rest := Split(s[1..], sep);
      assert forall c :: c in s[1..] ==> c in s;
      if s[0] != sep {
        var parts := [[s[0]] + rest[0]] + rest[1..];
        assert forall i :: 1 <= i < |parts| ==> parts[i] == rest[i];
      }
    }
  }

  /** Joining the pieces of a split with the separator gives the text back. */
  lemma {:induction false} JoinSplit(s: string, sep: char)
    ensures Join([sep], Split(s, sep)) == s
    decreases |s|
  {
    if s != [] {
      var rest := Split(s[1..], sep);
      JoinSplit(s[1..], sep);
      assert s == [s[0]] + s[1..];
      if s[0] == sep {
        assert ([""] + rest)[1..] == rest;
      } else {
        var parts := [[s[0]] + rest[0]] + rest[1..];
        assert Split(s, sep) == parts;
        if |rest| > 1 {
          assert parts[1..] == rest[1..];
        }
      }
    }
  }

  /** Splitting text that starts with a separator-free prefix extends the first piece by that prefix. */
  lemma {:induction false} SplitPrefix(p: string, t: string, sep: char)
    requires sep !in p
    ensures Split(p + t, sep) == [p + Split(t, sep)[0]] + Split(t, sep)[1..]
    decreases |p|
  {
    var r := Split(t, sep);
    if p == [] {
      assert p + t == t;
      assert p + r[0] == r[0];
      assert [r[0]] + r[1..] == r;
    } else {
      SplitPrefix(p[1..], t, sep);
      assert (p + t)[1..] == p[1..] + t;
      var rest := Split(p[1..] + t, sep);
      assert rest == [p[1..] + r[0]] + r[1..];
      assert rest[0] == p[1..] + r[0];
      assert rest[1..] == r[1..];
      assert [p[0]] + (p[1..] + r[0]) == p + r[0];
    }
  }

  /** Splitting the join of separator-free pieces gives the pieces back. */
  lemma {:induction false} SplitJoin(parts: seq<string>, sep: char)
    requires |parts| >= 1
    requires forall i :: 0 <= i < |parts| ==> sep !in parts[i]
    ensures Split(Join([sep], parts), sep) == parts
    decreases |parts|
  {
    if |parts| == 1 {
      var p := parts[0];
      SplitPrefix(p, "", sep);
      var e := Split("", sep);
      assert e == [""];
      assert p + "" == p;
      assert Split(p, sep) == [p + e[0]] + e[1..];
      assert [p + e[0]] + e[1..] == [p];
      assert parts == [p];
      assert Join([sep], parts) == p;
    } else {
      var rest := parts[1..];
      SplitJoin(rest, sep);
      var j := Join([sep], rest);
      assert Join([sep], parts) == parts[0] + ([sep] + j);
      SplitPrefix(parts[0], [sep] + j, sep);
      assert ([sep] + j)[1..] == j;
      var x := Split([sep] + j, sep);
      assert x == [""] + rest;
      assert x[0] == "" && x[1..] == rest;
      assert parts[0] + x[0] == parts[0];
      assert parts == [parts[0]] + rest;
    }
  }

  /** `s.trimStart()`: the suffix left after the leading whitespace. */
  function TrimStart(s: string): (r: string)
    ensures |r| <= |s|
    decreases |s|
  {
    if s != [] && IsSpace(s[0]) then TrimStart(s[1..]) else s
  }

  /** What `trimStart` keeps is a suffix of the text. */
  lemma {:induction false} TrimStartSuffix(s: string)
    ensures TrimStart(s) == s[|s| - |TrimStart(s)|..]
    decreases |s|
  {
    if s != [] && IsSpace(s[0]) {
      TrimStartSuffix(s[1..]);
    }
  }

  /** What `trimStart` removes is whitespace, and what it keeps does not start with any. */
  lemma {:induction false} TrimStartRemovesSpace(s: string)
    ensures TrimStart(s) == s[|s| - |TrimStart(s)|..]
    ensures forall k :: 0 <= k < |s| - |TrimStart(s)| ==> IsSpace(s[k])
    ensures TrimStart(s) == [] || !IsSpace(TrimStart(s)[0])
    decreases |s|
  {
    if s != [] && IsSpace(s[0]) {
      TrimStartRemovesSpace(s[1..]);
    }
  }

  /** `s.trimEnd()`: the prefix left before the trailing whitespace. */
  function TrimEnd(s: string): (r: string)
    ensures |r| <= |s|
    decreases |s|
  {
    if s != [] && IsSpace(s[|s| - 1]) then TrimEnd(s[..|s| - 1]) else s
  }

  /** What `trimEnd` keeps is a prefix of the text. */
  lemma {:induction false} TrimEndPrefix(s: string)
    ensures TrimEnd(s) == s[..|TrimEnd(s)|]
    decreases |s|
  {
    if s != [] && IsSpace(s[|s| - 1]) {
      TrimEndPrefix(s[..|s| - 1]);
    }
  }

  /** What `trimEnd` removes is whitespace, and what it keeps does not end with any. */
  lemma {:induction false} TrimEndRemovesSpace(s: string)
    ensures TrimEnd(s) == s[..|TrimEnd(s)|]
    ensures forall k :: |TrimEnd(s)| <= k < |s| ==> IsSpace(s[k])
    ensures TrimEnd(s) == [] || !IsSpace(TrimEnd(s)[|TrimEnd(s)| - 1])
    decreases |s|
  {
    if s != [] && IsSpace(s[|s| - 1]) {
      TrimEndRemovesSpace(s[..|s| - 1]);
    }
  }

  /** Text with no whitespace at either end. */
  predicate IsTrimmed(s: string) {
    s == [] || (!IsSpace(s[0]) && !IsSpace(s[|s| - 1]))
  }

  /** `s.trim()`. */
  function Trim(s: string): (r: string)
    ensures |r| <= |s|
  {
    TrimEnd(TrimStart(s))
  }

  /** `trim` leaves no whitespace at either end. */
  lemma TrimIsTrimmed(s: string)
    ensures IsTrimmed(Trim(s))
  {
    var front := TrimStart(s);
    TrimStartRemovesSpace(s);
    TrimEndRemovesSpace(front);
    var r := TrimEnd(front);
    assert r != [] ==> r[0] == front[0];
  }

  /** `trim` adds no character. */
  lemma TrimAddsNothing(s: string)
    ensures forall c :: c in Trim(s) ==> c in s
  {
    var front := TrimStart(s);
    TrimStartSuffix(s);
    TrimEndPrefix(front);
    var r := TrimEnd(front);
    assert r == s[|s| - |front|..|s| - |front| + |r|];
  }

  /** `trim` leaves nothing exactly when the text is all whitespace. */
  lemma TrimBlankIff(s: string)
    ensures Trim(s) == [] <==> forall k :: 0 <= k < |s| ==> IsSpace(s[k])
  {
    var front := TrimStart(s);
    TrimStartRemovesSpace(s);
    TrimEndRemovesSpace(front);
    var n := |s| - |front|;
    var r := TrimEnd(front);
    assert front != [] ==> front[0] == s[n];
    assert r != [] ==> r[0] == front[0];
  }

  /** Text with no whitespace at either end is left as it is by `trim`. */
  lemma TrimNoOp(s: string)
    requires IsTrimmed(s)
    ensures Trim(s) == s
  {
    var front := TrimStart(s);
    assert |front| == |s|;
    assert front == s;
    var r := TrimEnd(s);
    assert |r| == |s|;
  }

  /** Whitespace around a trimmed word is exactly what `trim` removes. */
  lemma TrimPadded(pre: string, w: string, post: string)
    requires forall k :: 0 <= k < |pre| ==> IsSpace(pre[k])
    requires forall k :: 0 <= k < |post| ==> IsSpace(post[k])
    requires w != [] && IsTrimmed(w)
    ensures Trim(pre + w + post) == w
  {
    var s := pre + w + post;
    var front := TrimStart(s);
    TrimStartRemovesSpace(s);
    var n := |s| - |front|;
    assert n <= |pre| by {
      assert s[|pre|] == w[0];
    }
    assert n >= |pre| by {
      assert front != [] ==> front[0] == s[n];
      assert forall k :: 0 <= k < |pre| ==> IsSpace(s[k]);
    }
    assert front == w + post;
    var r := TrimEnd(front);
    TrimEndRemovesSpace(front);
    assert |r| >= |w| by {
      assert front[|w| - 1] == w[|w| - 1];
    }
    assert |r| <= |w| by {
      assert r != [] ==> r[|r| - 1] == front[|r| - 1];
      assert forall k :: |w| <= k < |front| ==> IsSpace(front[k]);
    }
    assert r == w;
  }

  predicate IsDigit(c: char) {
    '0' as int <= c as int <= '9' as int
  }

  /** The decimal digit for `d`. */
  function DigitChar(d: nat): (c: char)
    requires d < 10
    ensures IsDigit(c) && c as int - '0' as int == d
  {
    ('0' as int + d) as char
  }

  /** `String(n)` for a non-negative integer: its decimal digits. */
  function NatToString(n: nat): (s: string)
    ensures |s| >= 1
    ensures forall i :: 0 <= i < |s| ==> IsDigit(s[i])
    decreases n
  {
    if n < 10 then [DigitChar(n)] else NatToString(n / 10) + [DigitChar(n % 10)]
  }

  /** The number a string of decimal digits denotes. */
  function ParseNat(s: string): nat
    requires forall i :: 0 <= i < |s| ==> IsDigit(s[i])
    decreases |s|
  {
    if s == [] then 0
    else
      var last := s[|s| - 1];
      assert IsDigit(last);
      10 * ParseNat(s[..|s| - 1]) + (last as int - '0' as int)
  }

  /** Reading the decimal digits back gives the number. */
  lemma {:induction false} DecimalRoundTrip(n: nat)
    ensures ParseNat(NatToString(n)) == n
    decreases n
  {
    var s := NatToString(n);
    if n < 10 {
      assert s[..|s| - 1] == [];
    } else {
      DecimalRoundTrip(n / 10);
      assert s[..|s| - 1] == NatToString(n / 10);
    }
  }

  /** `String(i)` for any integer: a minus sign before the digits of a negative one. */
  function IntToString(i: int): (s: string)
    ensures |s| >= 1 && (s[0] == '-' <==> i < 0)
  {
    if i < 0 then "-" + NatToString(-i) else NatToString(i)
  }

  /** Distinct integers print differently. */
  lemma IntToStringInjective(i: int, j: int)
    requires IntToString(i) == IntToString(j)
    ensures i == j
  {
    if i < 0 {
      assert NatToString(-i) == IntToString(i)[1..];
      assert NatToString(-j) == IntToString(j)[1..];
      DecimalRoundTrip(-i);
      DecimalRoundTrip(-j);
    } else {
      DecimalRoundTrip(i);
      DecimalRoundTrip(j);
    }
  }

  /** Removing a common prefix from two equal strings leaves equal strings. */
  lemma CancelPrefix(p: string, x: string, y: string)
    requires p + x == p + y
    ensures x == y
  {
    assert x == (p + x)[|p|..];
    assert y == (p + y)[|p|..];
  }
}
