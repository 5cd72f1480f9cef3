/** A consensus text split into lines, edited, and joined again. */
module DiffText {
  import opened Sequences
  import opened TextLines
  import opened EdScript

  // ---- the patched text ----

  /** The new document string, as rebuilt from the edited lines. */
  function Patched(raw: string, script: seq<EdAction>): (s: string) {
    Join(AppliedAll(Split(raw, '\n'), script, 1)) + "\n"
  }

  /** A change or deletion runs to the end of the list, so it takes the trailing empty line with it. */
  predicate RunsToEnd(script: seq<EdAction>)
    requires Plain(script)
  {
    !Numeric(script)
  }

  /** The list that the code joins: the trailing empty line stays behind unless the script runs to the end. */
  function Result(lines: seq<Line>, script: seq<EdAction>): (r: seq<Line>)
    requires Plain(script)
  {
    if RunsToEnd(script) then Edited(lines, Effective(script)) else Longer(Edited(lines, script))
  }

  lemma AppliedResult(lines: seq<Line>, script: seq<EdAction>)
    requires Limited(script, |lines|)
    ensures AppliedAll(Longer(lines), script, 1) == Result(lines, script)
  {
    if RunsToEnd(script) {
      Clobbers(lines, [[]], script, 1);
    } else {
      StaysBehind(lines, script);
    }
  }

  lemma StaysBehind(lines: seq<Line>, script: seq<EdAction>)
    requires Limited(script, |lines|) && Numeric(script)
    ensures AppliedAll(Longer(lines), script, 1) == Longer(Edited(lines, script))
  {
    var longer, n := Longer(lines), |lines|;
    DescendingFrame(script, n, n + 1, n);
    AppliedBelow(longer, script, 1, n);
    assert longer[..n] == lines[..n] && longer[n..] == [[]];
    PassFrame(longer, lines, script, n);
  }

  lemma PatchedJoin(lines: seq<Line>, script: seq<EdAction>)
    requires Clean(lines) && Limited(script, |lines|)
    ensures Patched(Text(lines), script) == Join(Result(lines, script)) + "\n"
  {
    SplitText(lines);
    AppliedResult(lines, script);
  }

  lemma JoinTrailing(lines: seq<Line>)
    ensures Join(Longer(lines)) + "\n" == Text(lines) + "\n"
    ensures Join([]) + "\n" == "\n"
  {
    JoinText(Longer(lines));
    TextSnoc(lines, []);
    assert [] + "\n" == "\n";
  }

  /** The rebuilt text has one empty line too many, or is a lone newline, or is exactly the lines that are left. */
  lemma PatchedText(lines: seq<Line>, script: seq<EdAction>)
    requires Clean(lines) && Limited(script, |lines|)
    ensures Patched(Text(lines), script) ==
      if !RunsToEnd(script) then Text(Edited(lines, script)) + "\n"
      else if Edited(lines, Effective(script)) == [] then "\n"
      else Text(Edited(lines, Effective(script)))
  {
    PatchedJoin(lines, script);
    JoinTrailing(Edited(lines, script));
    if RunsToEnd(script) && Edited(lines, Effective(script)) != [] {
      JoinText(Edited(lines, Effective(script)));
    }
  }

  lemma {:induction false} TextAppend(a: seq<Line>, b: seq<Line>)
    ensures Text(a + b) == Text(a) + Text(b)
  {
    if a == [] {
      assert a + b == b;
    } else {
      assert (a + b)[0] == a[0] && (a + b)[1..] == a[1..] + b;
      TextAppend(a[1..], b);
      Assoc(a[0] + "\n", Text(a[1..]), Text(b));
    }
  }

  lemma TextEmpty(lines: seq<Line>)
    ensures |Text(lines)| >= |lines|
    ensures Text(lines) == "\n" <==> lines == [[]]
  {
    if lines != [] {
      TextEmpty(lines[1..]);
      assert Text(lines) == lines[0] + "\n" + Text(lines[1..]);
      if |lines| > 1 || lines[0] != [] {
        assert |Text(lines)| > 1;
      } else {
        assert lines == [[]];
      }
    }
  }

  /** The target text comes out when a change or deletion runs to the end, and below it nothing is lost. */
  predicate HitsTarget(lines: seq<Line>, script: seq<EdAction>)
    requires Limited(script, |lines|)
  {
    RunsToEnd(script) && Lost(script) == if Edited(lines, Effective(script)) == [] then [[]] else []
  }

  /** For every base text of whole lines and every limited script for it, `$` wherever it stands. */
  lemma PatchedIff(lines: seq<Line>, script: seq<EdAction>)
    requires Clean(lines) && Limited(script, |lines|)
    ensures Patched(Text(lines), script) == Text(Edited(lines, script)) <==> HitsTarget(lines, script)
  {
    PatchedText(lines, script);
    if RunsToEnd(script) {
      var left := Edited(lines, Effective(script));
      LosesNothingElse(lines, script);
      TextAppend(left, Lost(script));
      TextEmpty(Lost(script));
      SameFront(Text(left), Text(Lost(script)));
      if left == [] {
        assert left + Lost(script) == Lost(script);
      }
    } else {
      SameFront(Text(Edited(lines, script)), "\n");
    }
  }

  lemma SameFront(s: string, t: string)
    ensures s == s + t <==> t == []
  {
    assert |s + t| == |s| + |t|;
    assert t == [] ==> s + t == s;
  }

  /** In particular: with no line lost, exactly the scripts that run to the end and leave a line. */
  lemma PatchedWhole(lines: seq<Line>, script: seq<EdAction>)
    requires Clean(lines) && Limited(script, |lines|) && Lost(script) == []
    ensures Patched(Text(lines), script) == Text(Edited(lines, script))
      <==> RunsToEnd(script) && Edited(lines, script) != []
  {
    PatchedIff(lines, script);
    LosesNothingElse(lines, script);
    assert Edited(lines, Effective(script)) + [] == Edited(lines, Effective(script));
  }

  // ---- a document and its diffs ----

  /** A diff as it was read; what no line of it gave is None, or no action. */
  datatype Diff = Diff(fromDigest: Option<string>, toDigest: Option<string>, actions: seq<EdAction>) {
    predicate Named() {
      fromDigest.Some? && toDigest.Some?
    }
  }

  datatype Consensus = Consensus(raw: string, digest: string)
  datatype Outcome = New(raw: string) | WrongBase | WrongResult | Incomplete

  function LowerChar(c: char): (l: char) {
    if 'A' <= c <= 'Z' then c - 'A' + 'a' else c
  }

  function Lower(s: string): (l: string) {
    seq(|s|, i requires 0 <= i < |s| => LowerChar(s[i]))
  }

  /** The digest `f` of a diff matches the digest `d` when their letters differ in case only. */
  lemma CaseIgnored(d: string, f: string)
    requires forall i | 0 <= i < |d| :: '0' <= d[i] <= '9' || 'a' <= d[i] <= 'f'
    ensures d == Lower(f) <==>
      |d| == |f| && forall i | 0 <= i < |d| :: f[i] == d[i] || ('a' <= d[i] && f[i] as int == d[i] as int - 32)
  {
    if |d| == |f| {
      forall i | 0 <= i < |d|
        ensures d[i] == Lower(f)[i] <==> f[i] == d[i] || ('a' <= d[i] && f[i] as int == d[i] as int - 32)
      {
        assert Lower(f)[i] == LowerChar(f[i]);
      }
    }
  }

  /**
   `sha3` gives the hex digest of a whole text. A failed assertion is a wrong outcome; a field that
   was not given, the list of actions included, is None and makes the code fail where it is used.
  */
  method ApplyDiff(c: Consensus, diff: Diff, sha3: string -> string) returns (r: Outcome)
    ensures r == if !diff.Named() then Incomplete
                 else if c.digest != Lower(diff.fromDigest.value) then WrongBase
                 else if diff.actions == [] then Incomplete
                 else if sha3(Patched(c.raw, diff.actions)) != Lower(diff.toDigest.value) then WrongResult
                 else New(Patched(c.raw, diff.actions))
  {
    if !diff.Named() {
      return Incomplete;
    }
    if c.digest != Lower(diff.fromDigest.value) {
      return WrongBase;
    }
    if diff.actions == [] {
      return Incomplete;
    }
    var lines := new LineList(Split(c.raw, '\n'));
    lines.ApplyScript(diff.actions);
    var raw := Join(lines.lines) + "\n";
    return if sha3(raw) == Lower(diff.toDigest.value) then New(raw) else WrongResult;
  }

  // ---- one diff after another ----

  function PatchedAll(raw: string, scripts: seq<seq<EdAction>>): (s: string)
    decreases |scripts|
  {
    if scripts == [] then raw else PatchedAll(Patched(raw, scripts[0]), scripts[1..])
  }

  ghost predicate CleanData(script: seq<EdAction>) {
    script == [] || (Clean(script[0].data) && CleanData(script[1..]))
  }

  ghost predicate Fitting(lines: seq<Line>, scripts: seq<seq<EdAction>>)
    decreases |scripts|
  {
    scripts == [] ||
    (&& Limited(scripts[0], |lines|) && HitsTarget(lines, scripts[0]) && CleanData(scripts[0])
     && Fitting(Edited(lines, scripts[0]), scripts[1..]))
  }

  function EditedAll(lines: seq<Line>, scripts: seq<seq<EdAction>>): (r: seq<Line>)
    requires Fitting(lines, scripts)
    decreases |scripts|
  {
    if scripts == [] then lines else EditedAll(Edited(lines, scripts[0]), scripts[1..])
  }

  lemma {:induction false} InsertedClean(script: seq<EdAction>, k: nat)
    requires Plain(script) && CleanData(script)
    ensures Clean(InsertedAt(script, k))
  {
    if script != [] {
      InsertedClean(script[1..], k);
    }
  }

  lemma {:induction false} PassClean(lines: seq<Line>, script: seq<EdAction>, k: nat)
    requires Clean(lines) && Plain(script) && CleanData(script)
    requires k <= |lines|
    ensures Clean(Pass(lines, script, k))
  {
    if k > 0 {
      PassClean(lines, script, k - 1);
      InsertedClean(script, k - 1);
    }
  }

  /** The trailing empty line never builds up: every diff of a run finds whole lines again. */
  lemma {:induction false} RunOfDiffs(lines: seq<Line>, scripts: seq<seq<EdAction>>)
    requires Clean(lines) && Fitting(lines, scripts)
    ensures PatchedAll(Text(lines), scripts) == Text(EditedAll(lines, scripts))
    decreases |scripts|
  {
    if scripts != [] {
      PatchedIff(lines, scripts[0]);
      PassClean(lines, scripts[0], |lines|);
      InsertedClean(scripts[0], |lines|);
      RunOfDiffs(Edited(lines, scripts[0]), scripts[1..]);
    }
  }
}
