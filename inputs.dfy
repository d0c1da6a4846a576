/**
 * Reading the action's inputs: boolean switches (`getInputBool`) and the
 * newline-separated list of working directories (`npmInstallAction`).
 */
module Inputs {
  import opened Text

  /** The texts `getInputBool` recognises; any other text selects the default. */
  const BoolWords: set<string> := {"true", "1", "false", "0"}

  /** `getInputBool(name, defaultValue)`, given the text `core.getInput(name)` returned. */
  function GetInputBool(param: string, defaultValue: bool): (b: bool)
    ensures param == "true" || param == "1" ==> b
    ensures param == "false" || param == "0" ==> !b
    ensures param !in BoolWords ==> b == defaultValue
  {
    if param == "true" || param == "1" then true
    else if param == "false" || param == "0" then false
    else defaultValue
  }

  /** The default decides the switch exactly when the text is none of the four recognised words. */
  lemma DefaultDecidesIff(param: string)
    ensures GetInputBool(param, true) != GetInputBool(param, false) <==> param !in BoolWords
  {
  }

  /** A switch written as `String(b)` reads back as `b`, whatever the default. */
  lemma InputBoolRoundTrip(b: bool, defaultValue: bool)
    ensures GetInputBool(if b then "true" else "false", defaultValue) == b
  {
  }

  /** `core.getInput('working-directory') || process.cwd()`: only the empty text falls back. */
  function DirectoryListText(raw: string, cwd: string): string
  {
    if raw != "" then raw else cwd
  }

  /**
   * When `core.getInput` trims what it reads, a blank `working-directory` reaches the action as the
   * empty text, and the list falls back to the current directory.
   */
  lemma TrimmedBlankUsesCwd(raw: string, cwd: string)
    requires forall k :: 0 <= k < |raw| ==> IsSpace(raw[k])
    ensures DirectoryListText(Trim(raw), cwd) == cwd
  {
    TrimBlankIff(raw);
  }

  /** `.map((s) => s.trim()).filter(Boolean)`: the trimmed lines that are not empty, in order. */
  function Entries(lines: seq<string>): (ds: seq<string>)
    ensures |ds| <= |lines|
    decreases |lines|
  {
    if lines == [] then []
    else
      var d := Trim(lines[0]);
      var rest := Entries(lines[1..]);
      if d == "" then rest else [d] + rest
  }

  /** Every entry is non-empty, trimmed, and free of line breaks when the lines are. */
  lemma {:induction false} EntriesClean(lines: seq<string>)
    ensures forall i :: 0 <= i < |Entries(lines)| ==> Entries(lines)[i] != "" && IsTrimmed(Entries(lines)[i])
    ensures (forall i :: 0 <= i < |lines| ==> '\n' !in lines[i]) ==>
              forall i :: 0 <= i < |Entries(lines)| ==> '\n' !in Entries(lines)[i]
    decreases |lines|
  {
    if lines != [] {
      EntriesClean(lines[1..]);
      TrimIsTrimmed(lines[0]);
      TrimAddsNothing(lines[0]);
    }
  }

  /** `wds.split('\n').map((s) => s.trim()).filter(Boolean)`. */
  function WorkingDirectories(wds: string): (ds: seq<string>)
  {
    Entries(Split(wds, '\n'))
  }

  /** The working directories are non-empty, trimmed, single-line texts. */
  lemma WorkingDirectoriesClean(wds: string)
    ensures forall i :: 0 <= i < |WorkingDirectories(wds)| ==>
              var d := WorkingDirectories(wds)[i]; d != "" && '\n' !in d && IsTrimmed(d)
  {
    EntriesClean(Split(wds, '\n'));
  }

  /** Entries that are already trimmed and non-empty are kept, all of them, in order. */
  lemma {:induction false} EntriesKeepClean(ds: seq<string>)
    requires forall i :: 0 <= i < |ds| ==> ds[i] != "" && IsTrimmed(ds[i])
    ensures Entries(ds) == ds
    decreases |ds|
  {
    if ds != [] {
      EntriesKeepClean(ds[1..]);
      TrimNoOp(ds[0]);
      assert [ds[0]] + ds[1..] == ds;
    }
  }

  /** Listing directories one per line and parsing the list gives the directories back. */
  lemma {:induction false} WorkingDirectoriesRoundTrip(ds: seq<string>)
    requires forall i :: 0 <= i < |ds| ==> ds[i] != "" && '\n' !in ds[i] && IsTrimmed(ds[i])
    ensures WorkingDirectories(Join("\n", ds)) == ds
  {
    if ds == [] {
      assert Split("", '\n') == [""];
      TrimNoOp("");
      assert Entries([""]) == Entries([]) == [];
    } else {
      SplitJoin(ds, '\n');
      EntriesKeepClean(ds);
    }
  }

  /** Each line of the list yields its trimmed text, or nothing when it is blank, in order. */
  lemma {:induction false} WorkingDirectoriesPerLine(lines: seq<string>)
    requires |lines| >= 1
    requires forall i :: 0 <= i < |lines| ==> '\n' !in lines[i]
    ensures WorkingDirectories(Join("\n", lines)) == Entries(lines)
  {
    SplitJoin(lines, '\n');
  }

  /** A single line yields its trimmed text, or nothing when it is blank. */
  lemma EntriesOfOne(line: string)
    ensures Entries([line]) == if Trim(line) == "" then [] else [Trim(line)]
  {
    assert [line][1..] == [];
  }

  /** Lines are read independently: the entries of two blocks of lines are the entries of each, in order. */
  lemma {:induction false} EntriesAppend(a: seq<string>, b: seq<string>)
    ensures Entries(a + b) == Entries(a) + Entries(b)
    decreases |a|
  {
    if a == [] {
      assert a + b == b;
    } else {
      EntriesAppend(a[1..], b);
      assert (a + b)[1..] == a[1..] + b;
    }
  }

  /** Six lines of which the first, fourth and last are blank yield the trimmed text of the other three. */
  lemma EntriesOfSixLines(e0: string, a: string, b: string, e3: string, c: string, e5: string)
    requires Trim(e0) == "" && Trim(e3) == "" && Trim(e5) == ""
    requires Trim(a) != "" && Trim(b) != "" && Trim(c) != ""
    ensures Entries([e0, a, b, e3, c, e5]) == [Trim(a), Trim(b), Trim(c)]
  {
    EntriesOfOne(e0);
    EntriesOfOne(a);
    EntriesOfOne(b);
    EntriesOfOne(e3);
    EntriesOfOne(c);
    EntriesOfOne(e5);
    EntriesAppend([e0], [a]);
    EntriesAppend([e0, a], [b]);
    EntriesAppend([e0, a, b], [e3]);
    EntriesAppend([e0, a, b, e3], [c]);
    EntriesAppend([e0, a, b, e3, c], [e5]);
    assert [e0] + [a] == [e0, a];
    assert [e0, a] + [b] == [e0, a, b];
    assert [e0, a, b] + [e3] == [e0, a, b, e3];
    assert [e0, a, b, e3] + [c] == [e0, a, b, e3, c];
    assert [e0, a, b, e3, c] + [e5] == [e0, a, b, e3, c, e5];
  }

  /**
   * The list of the multi-folder scenario: a leading empty line, three indented folders with an
   * empty line between the second and the third, and a last line of indentation only.
   */
  lemma IndentedListWithBlankLines(indent: string, tail: string, foo: string, bar: string, baz: string)
    requires forall k :: 0 <= k < |indent| ==> indent[k] == ' '
    requires forall k :: 0 <= k < |tail| ==> tail[k] == ' '
    requires foo == "subfolder/foo" && bar == "subfolder/bar" && baz == "subfolder/baz"
    ensures WorkingDirectories(Join("\n", ["", indent + foo, indent + bar, "", indent + baz, tail])) == [foo, bar, baz]
  {
    var lines := ["", indent + foo, indent + bar, "", indent + baz, tail];
    assert forall i :: 0 <= i < |lines| ==> '\n' !in lines[i] by {
      assert '\n' !in foo && '\n' !in bar && '\n' !in baz;
      assert '\n' !in indent && '\n' !in tail;
    }
    WorkingDirectoriesPerLine(lines);
    TrimPadded(indent, foo, "");
    TrimPadded(indent, bar, "");
    TrimPadded(indent, baz, "");
    assert indent + foo + "" == indent + foo;
    assert indent + bar + "" == indent + bar;
    assert indent + baz + "" == indent + baz;
    TrimNoOp("");
    TrimBlankIff(tail);
    EntriesOfSixLines("", indent + foo, indent + bar, "", indent + baz, tail);
  }
}
