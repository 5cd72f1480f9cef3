/** Limited `ed` scripts, applied to a list of lines in place. */
module EdScript {
  import opened Sequences
  import opened TextLines

  datatype Kind = Append | Change | Delete
  datatype Ref = Number(n: nat) | Dollar
  datatype EdAction = EdAction(start: Ref, end: Ref, kind: Kind, data: seq<Line>)

  // ---- Python's slices ----

  /** `lines[a:b] = data`; with no data, `del lines[a:b]`. */
  function SliceAssign(lines: seq<Line>, a: int, b: int, data: seq<Line>): (r: seq<Line>) {
    var lo := Bound(a, |lines|);
    var hi := if Bound(b, |lines|) < lo then lo else Bound(b, |lines|);
    lines[..lo] + data + lines[hi..]
  }

  // ---- one action, one script, as the code runs them ----

  function StartOf(a: EdAction, curLine: int): (s: int) {
    match a.start
    case Number(n) => n
    case Dollar => curLine
  }

  /** A `$` start makes the end the current line too; a `$` end alone is the last line. */
  function EndOf(a: EdAction, curLine: int, curEnd: nat): (e: int) {
    match (a.start, a.end)
    case (Dollar, _) => curLine
    case (Number(_), Number(n)) => n
    case (Number(_), Dollar) => curEnd
  }

  function Applied(lines: seq<Line>, a: EdAction, curLine: int): (r: seq<Line>) {
    var start, end := StartOf(a, curLine), EndOf(a, curLine, |lines|);
    match a.kind
    case Append => SliceAssign(lines, start, start, a.data)
    case Change => SliceAssign(lines, start - 1, end, a.data)
    case Delete => SliceAssign(lines, start - 1, end, [])
  }

  function NextLine(a: EdAction, curLine: int): (next: int) {
    match a.kind
    case Append => StartOf(a, curLine) + |a.data|
    case Change => StartOf(a, curLine) - 1 + |a.data|
    case Delete => StartOf(a, curLine)
  }

  /**
   One action with its lines counted from 1 and in range: data goes behind line `m` for an append,
   replaces the lines `m` to `n` for a change, and nothing replaces them for a deletion. The last of
   the data is the current line, and after a deletion the line before which it took place.
  */
  lemma AppliedInRange(lines: seq<Line>, m: nat, n: nat, data: seq<Line>, curLine: int)
    requires 1 <= m <= n <= |lines|
    ensures var append, change, delete := EdAction(Number(m), Number(n), Append, data),
                  EdAction(Number(m), Number(n), Change, data), EdAction(Number(m), Number(n), Delete, data);
            && Applied(lines, append, curLine) == lines[..m] + data + lines[m..]
            && Applied(lines, change, curLine) == lines[..m - 1] + data + lines[n..]
            && Applied(lines, delete, curLine) == lines[..m - 1] + lines[n..]
            && NextLine(append, curLine) == m + |data| && NextLine(change, curLine) == m - 1 + |data|
            && NextLine(delete, curLine) == m
    ensures var toEnd := EdAction(Number(m), Dollar, Delete, []); Applied(lines, toEnd, curLine) == lines[..m - 1]
    ensures Applied(lines, EdAction(Number(0), Number(0), Append, data), curLine) == data + lines
  {
    assert lines[..m - 1] + [] == lines[..m - 1] && lines[|lines|..] == [] && lines[..0] == [];
    assert [] + data + lines == data + lines;
  }

  /** A `$` stands for the current line, which the action before has left, as a start and then as an end too. */
  lemma AppliedAtCurrent(lines: seq<Line>, end: Ref, kind: Kind, data: seq<Line>, curLine: nat)
    ensures Applied(lines, EdAction(Dollar, end, kind, data), curLine)
         == Applied(lines, EdAction(Number(curLine), Number(curLine), kind, data), curLine)
    ensures NextLine(EdAction(Dollar, end, kind, data), curLine)
         == NextLine(EdAction(Number(curLine), Number(curLine), kind, data), curLine)
  {
  }

  function AppliedAll(lines: seq<Line>, script: seq<EdAction>, curLine: int): (r: seq<Line>)
    decreases |script|
  {
    if script == [] then lines
    else AppliedAll(Applied(lines, script[0], curLine), script[1..], NextLine(script[0], curLine))
  }

  /** The list object that every action of a script works on. */
  class LineList {
    var lines: seq<Line>

    constructor (lines: seq<Line>)
      ensures this.lines == lines
    {
      this.lines := lines;
    }

    method Assign(a: int, b: int, data: seq<Line>)
      modifies this
      ensures lines == SliceAssign(old(lines), a, b, data)
    {
      var lo, hi := Bound(a, |lines|), Bound(b, |lines|);
      if hi < lo {
        hi := lo;
      }
      lines := lines[..lo] + data + lines[hi..];
    }

    method Apply(act: EdAction, curLine: int, curEnd: nat) returns (next: int)
      requires curEnd == |lines|
      modifies this
      ensures lines == Applied(old(lines), act, curLine) && next == NextLine(act, curLine)
    {
      var start, end := StartOf(act, curLine), EndOf(act, curLine, curEnd);
      match act.kind
      case Append =>
        Assign(start, start, act.data);
        return start + |act.data|;
      case Change =>
        Assign(start - 1, end, act.data);
        return start - 1 + |act.data|;
      case Delete =>
        Assign(start - 1, end, []);
        return start;
    }

    method ApplyScript(script: seq<EdAction>)
      modifies this
      ensures lines == AppliedAll(old(lines), script, 1)
    {
      var curLine := 1;
      for i := 0 to |script|
        invariant AppliedAll(lines, script[i..], curLine) == AppliedAll(old(lines), script, 1)
      {
        var curEnd := |lines|;
        curLine := Apply(script[i], curLine, curEnd);
        assert script[i..][0] == script[i] && script[i..][1..] == script[i + 1..];
      }
    }
  }

  // ---- what a script means: every position refers to the original lines ----

  /** Data goes in front of original line `First` (counted from 0), and lines `First..Beyond` go. */
  function First(a: EdAction): (lo: int)
    requires a.start.Number?
  {
    if a.kind.Append? then a.start.n else a.start.n - 1
  }

  function Beyond(a: EdAction, n: nat): (hi: nat)
    requires a.start.Number?
  {
    if a.kind.Append? then a.start.n else if a.end.Dollar? then n else a.end.n
  }

  function Inserted(a: EdAction): (data: seq<Line>) {
    if a.kind.Delete? then [] else a.data
  }

  predicate Plain(script: seq<EdAction>) {
    script == [] || (script[0].start.Number? && Plain(script[1..]))
  }

  predicate Removed(script: seq<EdAction>, n: nat, k: nat)
    requires Plain(script)
  {
    script != [] && (First(script[0]) <= k < Beyond(script[0], n) || Removed(script[1..], n, k))
  }

  /** All that the script puts in front of original line `k`; what is lower down the script comes first. */
  function InsertedAt(script: seq<EdAction>, k: nat): (data: seq<Line>)
    requires Plain(script)
  {
    if script == [] then []
    else InsertedAt(script[1..], k) + (if First(script[0]) == k then Inserted(script[0]) else [])
  }

  /** Line `k` as far as the script leaves it. */
  function Kept(lines: seq<Line>, script: seq<EdAction>, k: nat): (r: seq<Line>)
    requires Plain(script) && k < |lines|
  {
    if Removed(script, |lines|, k) then [] else [lines[k]]
  }

  /** One pass over the first `k` original lines. */
  function Pass(lines: seq<Line>, script: seq<EdAction>, k: nat): (r: seq<Line>)
    requires Plain(script) && k <= |lines|
  {
    if k == 0 then []
    else Pass(lines, script, k - 1) + (InsertedAt(script, k - 1) + Kept(lines, script, k - 1))
  }

  /** The pass, and what goes in right behind those lines. */
  function UpTo(lines: seq<Line>, script: seq<EdAction>, k: nat): (r: seq<Line>)
    requires Plain(script) && k <= |lines|
  {
    Pass(lines, script, k) + InsertedAt(script, k)
  }

  /** The simultaneous edit. */
  function Edited(lines: seq<Line>, script: seq<EdAction>): (r: seq<Line>)
    requires Plain(script)
  {
    UpTo(lines, script, |lines|)
  }

  /** Ranges lie within `0..bound` and come in descending order without overlap. */
  predicate Descending(script: seq<EdAction>, n: nat, bound: nat)
    requires Plain(script)
  {
    script == [] ||
    (var lo, hi := First(script[0]), Beyond(script[0], n);
     0 <= lo <= hi <= bound && Descending(script[1..], n, lo))
  }

  /** No `$` ends: the ranges do not depend on how many lines there are. */
  predicate Numeric(script: seq<EdAction>) {
    && Plain(script)
    && (script == [] || ((script[0].end.Number? || script[0].kind.Append?) && Numeric(script[1..])))
  }

  /** A limited script for `n` lines, with `$` wherever the order admits it. */
  predicate Limited(script: seq<EdAction>, n: nat) {
    Plain(script) && Descending(script, n, n)
  }

  // ---- the script in place is the simultaneous edit ----

  lemma {:induction false} NothingBeyond(script: seq<EdAction>, n: nat, bound: nat, k: nat)
    requires Plain(script) && Descending(script, n, bound)
    ensures k >= bound ==> !Removed(script, n, k)
    ensures k > bound ==> InsertedAt(script, k) == []
  {
    if script != [] {
      NothingBeyond(script[1..], n, First(script[0]), k);
    }
  }

  lemma {:induction false} RemovedFrame(script: seq<EdAction>, n: nat, m: nat, k: nat)
    requires Numeric(script)
    ensures Removed(script, n, k) == Removed(script, m, k)
  {
    if script != [] {
      RemovedFrame(script[1..], n, m, k);
    }
  }

  /** The pass over the first `k` lines looks at nothing else. */
  lemma {:induction false} PassFrame(lines: seq<Line>, other: seq<Line>, script: seq<EdAction>, k: nat)
    requires Numeric(script) && k <= |lines| && k <= |other| && lines[..k] == other[..k]
    ensures Pass(lines, script, k) == Pass(other, script, k)
  {
    if k > 0 {
      assert lines[..k - 1] == lines[..k][..k - 1] == other[..k - 1];
      assert lines[k - 1] == lines[..k][k - 1] == other[k - 1];
      PassFrame(lines, other, script, k - 1);
      RemovedFrame(script, |lines|, |other|, k - 1);
    }
  }

  /** The topmost action leaves the pass below its range to the others. */
  lemma {:induction false} PassBelow(lines: seq<Line>, script: seq<EdAction>, k: nat)
    requires Plain(script) && script != [] && k <= |lines| && k <= First(script[0])
    ensures Pass(lines, script, k) == Pass(lines, script[1..], k)
  {
    if k > 0 {
      PassBelow(lines, script, k - 1);
      assert InsertedAt(script, k - 1) == InsertedAt(script[1..], k - 1);
      assert Kept(lines, script, k - 1) == Kept(lines, script[1..], k - 1);
    }
  }

  lemma OneMore(whole: seq<Line>, other: seq<Line>, p: seq<Line>, ins: seq<Line>, data: seq<Line>)
    requires whole == p + (ins + data) && other == p + ins
    ensures whole == other + data
  {
  }

  lemma SplicedParts(lines: seq<Line>, data: seq<Line>, lo: nat, hi: nat)
    requires lo <= hi <= |lines|
    ensures var next := lines[..lo] + data + lines[hi..];
            lo <= |next| && next[..lo] == lines[..lo] && next[lo..] == data + lines[hi..]
  {
  }

  lemma Joined(p: seq<Line>, data: seq<Line>, lines: seq<Line>, hi: nat, bound: nat)
    requires hi <= bound <= |lines|
    ensures p + (data + lines[hi..]) == p + data + Between(lines, hi, bound) + lines[bound..]
  {
    assert lines[hi..] == lines[hi..bound] + lines[bound..];
  }

  lemma UpToFirst(lines: seq<Line>, script: seq<EdAction>)
    requires Plain(script) && script != [] && 0 <= First(script[0]) <= |lines|
    ensures var lo := First(script[0]);
            UpTo(lines, script, lo) == UpTo(lines, script[1..], lo) + Inserted(script[0])
  {
    var a, rest := script[0], script[1..];
    var lo := First(a);
    PassBelow(lines, script, lo);
    OneMore(UpTo(lines, script, lo), UpTo(lines, rest, lo), Pass(lines, rest, lo), InsertedAt(rest, lo), Inserted(a));
  }

  lemma UpToStep(lines: seq<Line>, script: seq<EdAction>, k: nat)
    requires Plain(script) && script != [] && Descending(script, |lines|, |lines|)
    requires First(script[0]) < k <= |lines|
    ensures UpTo(lines, script, k) ==
      UpTo(lines, script, k - 1) + (if k <= Beyond(script[0], |lines|) then [] else [lines[k - 1]])
  {
    KeptAbove(lines, script, k);
    OneMore(UpTo(lines, script, k), UpTo(lines, script, k - 1),
      Pass(lines, script, k - 1), InsertedAt(script, k - 1), Kept(lines, script, k - 1));
  }

  lemma KeptAbove(lines: seq<Line>, script: seq<EdAction>, k: nat)
    requires Plain(script) && script != [] && Descending(script, |lines|, |lines|)
    requires First(script[0]) < k <= |lines|
    ensures InsertedAt(script, k) == []
    ensures Kept(lines, script, k - 1) == if k <= Beyond(script[0], |lines|) then [] else [lines[k - 1]]
  {
    NothingBeyond(script[1..], |lines|, First(script[0]), k);
    NothingBeyond(script[1..], |lines|, First(script[0]), k - 1);
  }

  /** Lines `hi..k`; none when `k` is not beyond `hi`. */
  function Between(lines: seq<Line>, hi: nat, k: nat): (r: seq<Line>)
    requires k <= |lines|
  {
    if k <= hi then [] else lines[hi..k]
  }

  lemma MoreKept(whole: seq<Line>, before: seq<Line>, p: seq<Line>, lines: seq<Line>, hi: nat, k: nat)
    requires 0 < k <= |lines|
    requires before == p + Between(lines, hi, k - 1)
    requires whole == before + (if k <= hi then [] else [lines[k - 1]])
    ensures whole == p + Between(lines, hi, k)
  {
    if k > hi {
      assert lines[hi..k] == Between(lines, hi, k - 1) + [lines[k - 1]];
    }
  }

  lemma {:induction false} UpToBeyond(lines: seq<Line>, script: seq<EdAction>, k: nat)
    requires Plain(script) && script != [] && Descending(script, |lines|, |lines|)
    requires First(script[0]) <= k <= |lines|
    ensures var hi := Beyond(script[0], |lines|);
            UpTo(lines, script, k) == UpTo(lines, script, First(script[0])) + Between(lines, hi, k)
  {
    var lo, hi := First(script[0]), Beyond(script[0], |lines|);
    if k > lo {
      UpToBeyond(lines, script, k - 1);
      UpToStep(lines, script, k);
      MoreKept(UpTo(lines, script, k), UpTo(lines, script, k - 1), UpTo(lines, script, lo), lines, hi, k);
    }
  }

  lemma AppliedRange(lines: seq<Line>, a: EdAction, curLine: int)
    requires a.start.Number? && 0 <= First(a) <= Beyond(a, |lines|) <= |lines|
    ensures Applied(lines, a, curLine) == lines[..First(a)] + Inserted(a) + lines[Beyond(a, |lines|)..]
  {
  }

  /** In place, actions already done are above everything still to come. */
  lemma {:induction false} AppliedBelow(lines: seq<Line>, script: seq<EdAction>, curLine: int, bound: nat)
    requires Numeric(script) && bound <= |lines| && Descending(script, |lines|, bound)
    ensures AppliedAll(lines, script, curLine) == UpTo(lines, script, bound) + lines[bound..]
    decreases |script|, 0
  {
    if script == [] {
      PassNothing(lines, bound);
    } else {
      AppliedTop(lines, script, curLine, bound);
    }
  }

  /** The topmost action may end in `$`. */
  lemma {:induction false} AppliedTop(lines: seq<Line>, script: seq<EdAction>, curLine: int, bound: nat)
    requires Plain(script) && script != [] && Numeric(script[1..])
    requires bound <= |lines| && Descending(script, |lines|, bound)
    ensures AppliedAll(lines, script, curLine) == UpTo(lines, script, bound) + lines[bound..]
    decreases |script| - 1, 1
  {
    var a, rest := script[0], script[1..];
    var lo, hi := First(a), Beyond(a, |lines|);
    var next := Applied(lines, a, curLine);
    AppliedRange(lines, a, curLine);
    SplicedParts(lines, Inserted(a), lo, hi);
    DescendingFrame(rest, |lines|, |next|, lo);
    AppliedBelow(next, rest, NextLine(a, curLine), lo);
    PassFrame(next, lines, rest, lo);
    UpToFirst(lines, script);
    UpToBeyond(lines, script, bound);
    Joined(UpTo(lines, rest, lo), Inserted(a), lines, hi, bound);
  }

  lemma {:induction false} PassNothing(lines: seq<Line>, k: nat)
    requires k <= |lines|
    ensures Pass(lines, [], k) == lines[..k]
  {
    if k > 0 {
      PassNothing(lines, k - 1);
      assert !Removed([], |lines|, k - 1);
    }
  }

  lemma {:induction false} DescendingFrame(script: seq<EdAction>, n: nat, m: nat, bound: nat)
    requires Numeric(script) && Descending(script, n, bound)
    ensures Descending(script, m, bound)
  {
    if script != [] {
      DescendingFrame(script[1..], n, m, First(script[0]));
    }
  }

  // ---- `$` below the top of a script ----

  /** The part of a script that has an effect: what stands above its last `$` is undone by it. */
  function Effective(script: seq<EdAction>): (e: seq<EdAction>)
    requires Plain(script)
    ensures Plain(e)
  {
    if script == [] || Numeric(script[1..]) then script else Effective(script[1..])
  }

  /** The lines inserted above the last `$`. */
  function Lost(script: seq<EdAction>): (lines: seq<Line>)
    requires Plain(script)
  {
    if script == [] || Numeric(script[1..]) then [] else Lost(script[1..]) + Inserted(script[0])
  }

  /** An action above a `$` can only work behind the last line. */
  lemma {:induction false} DollarAtEnd(script: seq<EdAction>, n: nat, bound: nat)
    requires Plain(script) && Descending(script, n, bound) && bound <= n && !Numeric(script)
    ensures bound == n
  {
    if !Numeric(script[1..]) {
      DollarAtEnd(script[1..], n, First(script[0]));
    }
  }

  /** Whatever stands behind the original lines is gone when a script with a `$` is through. */
  lemma {:induction false} Clobbers(lines: seq<Line>, tail: seq<Line>, script: seq<EdAction>, curLine: int)
    requires Limited(script, |lines|) && !Numeric(script)
    ensures AppliedAll(lines + tail, script, curLine) == Edited(lines, Effective(script))
    decreases |script|
  {
    var a, rest, n := script[0], script[1..], |lines|;
    if Numeric(rest) {
      assert (lines + tail)[..First(a)] == lines[..First(a)];
      assert Applied(lines + tail, a, curLine) == Applied(lines, a, curLine);
      AppliedTop(lines, script, curLine, n);
    } else {
      DollarAtEnd(rest, n, First(a));
      var tail' := Inserted(a) + (if a.end.Dollar? && !a.kind.Append? then [] else tail);
      assert (lines + tail)[..n] == lines && (lines + tail)[n..] == tail;
      assert Applied(lines + tail, a, curLine) == lines + tail';
      Clobbers(lines, tail', rest, NextLine(a, curLine));
    }
  }

  lemma {:induction false} LosesNothingElse(lines: seq<Line>, script: seq<EdAction>)
    requires Limited(script, |lines|)
    ensures Limited(Effective(script), |lines|)
    ensures Edited(lines, script) == Edited(lines, Effective(script)) + Lost(script)
    decreases |script|
  {
    if script != [] && !Numeric(script[1..]) {
      var a, rest := script[0], script[1..];
      DollarAtEnd(rest, |lines|, First(a));
      LosesNothingElse(lines, rest);
      UpToFirst(lines, script);
      Assoc(Edited(lines, Effective(rest)), Lost(rest), Inserted(a));
    }
  }

  /** In place, a limited script is the simultaneous edit of the part of it that has an effect. */
  lemma AppliedIsEffective(lines: seq<Line>, script: seq<EdAction>, curLine: int)
    requires Limited(script, |lines|)
    ensures AppliedAll(lines, script, curLine) == Edited(lines, Effective(script))
  {
    if script == [] {
      PassNothing(lines, |lines|);
    } else if Numeric(script[1..]) {
      AppliedTop(lines, script, curLine, |lines|);
    } else {
      Clobbers(lines, [], script, curLine);
      assert lines + [] == lines;
    }
  }

  /**
   Whatever the current line is, the code's result is the simultaneous edit without the lines
   inserted above the last `$`; so it is that edit exactly when there are none.
  */
  lemma AppliedIsEdited(lines: seq<Line>, script: seq<EdAction>, curLine: int)
    requires Limited(script, |lines|)
    ensures AppliedAll(lines, script, curLine) + Lost(script) == Edited(lines, script)
    ensures AppliedAll(lines, script, curLine) == Edited(lines, script) <==> Lost(script) == []
  {
    AppliedIsEffective(lines, script, curLine);
    LosesNothingElse(lines, script);
    assert |AppliedAll(lines, script, curLine)| + |Lost(script)| == |Edited(lines, script)|;
    assert Lost(script) == [] ==> AppliedAll(lines, script, curLine) + Lost(script) == AppliedAll(lines, script, curLine);
  }

  // ---- how long the result is ----

  function InsertedLines(script: seq<EdAction>): (n: nat) {
    if script == [] then 0 else |Inserted(script[0])| + InsertedLines(script[1..])
  }

  function RemovedLines(script: seq<EdAction>, n: nat): (r: int)
    requires Plain(script)
  {
    if script == [] then 0 else Beyond(script[0], n) - First(script[0]) + RemovedLines(script[1..], n)
  }

  lemma {:induction false} UpToLength(lines: seq<Line>, script: seq<EdAction>, bound: nat)
    requires Plain(script) && bound <= |lines| && Descending(script, |lines|, bound)
    ensures |UpTo(lines, script, bound)| == bound + InsertedLines(script) - RemovedLines(script, |lines|)
    decreases |script|
  {
    if script == [] {
      PassNothing(lines, bound);
    } else {
      UpToLength(lines, script[1..], First(script[0]));
      UpToFirst(lines, script);
      UpToBeyond(lines, script, bound);
    }
  }

  lemma EditedLength(lines: seq<Line>, script: seq<EdAction>, curLine: int)
    requires Limited(script, |lines|)
    ensures |AppliedAll(lines, script, curLine)| ==
      |lines| + InsertedLines(script) - RemovedLines(script, |lines|) - |Lost(script)|
  {
    AppliedIsEdited(lines, script, curLine);
    UpToLength(lines, script, |lines|);
    assert |AppliedAll(lines, script, curLine)| + |Lost(script)| == |Edited(lines, script)|;
  }

  // ---- scripts out of order ----

  /** The same action on lines that begin `d` lines further down. */
  function Moved(a: EdAction, d: int): (m: EdAction)
    requires a.start.Number? && a.end.Number? && a.start.n + d >= 0 && a.end.n + d >= 0
  {
    a.(start := Number(a.start.n + d), end := Number(a.end.n + d))
  }

  /** How far an action moves the lines behind it. */
  function Shift(a: EdAction): (d: int)
    requires a.start.Number? && a.end.Number?
  {
    |Inserted(a)| - (Beyond(a, 0) - First(a))
  }

  function Splice(lines: seq<Line>, lo: nat, hi: nat, data: seq<Line>): (r: seq<Line>)
    requires lo <= hi <= |lines|
    ensures |r| == |lines| - (hi - lo) + |data|
  {
    lines[..lo] + data + lines[hi..]
  }

  lemma TwoSplices(lines: seq<Line>, x: seq<Line>, lo: nat, hi: nat, y: seq<Line>, lo': nat, hi': nat)
    requires lo <= hi <= lo' <= hi' <= |lines|
    ensures var d := |x| - (hi - lo);
            Splice(Splice(lines, lo, hi, x), lo' + d, hi' + d, y) == Splice(Splice(lines, lo', hi', y), lo, hi, x)
  {
    var d := |x| - (hi - lo);
    var next, next' := Splice(lines, lo, hi, x), Splice(lines, lo', hi', y);
    assert next[..lo' + d] == lines[..lo] + x + lines[hi..lo'];
    assert next[hi' + d..] == lines[hi'..];
    assert next'[hi..] == lines[hi..lo'] + y + lines[hi'..];
  }

  ghost predicate Ranged(a: EdAction, n: nat) {
    a.start.Number? && a.end.Number? && 0 <= First(a) <= Beyond(a, 0) <= n
  }

  function Spliced(lines: seq<Line>, a: EdAction): (r: seq<Line>)
    requires Ranged(a, |lines|)
  {
    Splice(lines, First(a), Beyond(a, 0), Inserted(a))
  }

  lemma AppliedTwo(lines: seq<Line>, a: EdAction, b: EdAction, curLine: int)
    requires Ranged(a, |lines|) && Ranged(b, |Spliced(lines, a)|)
    ensures AppliedAll(lines, [a, b], curLine) == Spliced(Spliced(lines, a), b)
  {
    assert [a, b][1..] == [b] && [b][1..] == [];
    AppliedRange(lines, a, curLine);
    AppliedRange(Spliced(lines, a), b, NextLine(a, curLine));
    assert AppliedAll(Spliced(lines, a), [b], NextLine(a, curLine)) ==
      AppliedAll(Spliced(Spliced(lines, a), b), [], NextLine(b, NextLine(a, curLine)));
  }

  lemma LimitedTwo(a: EdAction, b: EdAction, n: nat)
    requires a.start.Number? && a.end.Number? && b.start.Number? && b.end.Number?
    requires 0 <= First(b) <= Beyond(b, n) <= First(a) <= Beyond(a, n) <= n
    ensures Limited([a, b], n) && Lost([a, b]) == []
  {
    assert [a, b][1..] == [b] && [b][1..] == [];
    assert Numeric([]) && Descending([], n, First(b));
    assert Numeric([b]) && Descending([b], n, First(a));
  }

  lemma EditedTwo(lines: seq<Line>, a: EdAction, b: EdAction)
    requires Ranged(a, |lines|) && Ranged(b, |lines|) && Beyond(b, 0) <= First(a)
    ensures Plain([a, b]) && Ranged(b, |Spliced(lines, a)|)
    ensures Edited(lines, [a, b]) == Spliced(Spliced(lines, a), b)
  {
    LimitedTwo(a, b, |lines|);
    AppliedTwo(lines, a, b, 1);
    AppliedIsEdited(lines, [a, b], 1);
  }

  lemma SplicedSwap(lines: seq<Line>, a: EdAction, b: EdAction)
    requires Ranged(a, |lines|) && Ranged(b, |lines|) && Beyond(a, 0) <= First(b)
    requires b.start.n + Shift(a) >= 0 && b.end.n + Shift(a) >= 0
    ensures Ranged(Moved(b, Shift(a)), |Spliced(lines, a)|) && Ranged(a, |Spliced(lines, b)|)
    ensures Spliced(Spliced(lines, a), Moved(b, Shift(a))) == Spliced(Spliced(lines, b), a)
  {
    TwoSplices(lines, Inserted(a), First(a), Beyond(a, 0), Inserted(b), First(b), Beyond(b, 0));
  }

  /** After an action nearer the top of the text, the code takes one further down at lines that have moved. */
  lemma OrderMatters(lines: seq<Line>, a: EdAction, b: EdAction, curLine: int)
    requires Ranged(a, |lines|) && Ranged(b, |lines|) && Beyond(a, 0) <= First(b)
    requires b.start.n + Shift(a) >= 0 && b.end.n + Shift(a) >= 0
    ensures Plain([b, a]) && AppliedAll(lines, [a, Moved(b, Shift(a))], curLine) == Edited(lines, [b, a])
  {
    SplicedSwap(lines, a, b);
    AppliedTwo(lines, a, Moved(b, Shift(a)), curLine);
    EditedTwo(lines, b, a);
  }
}
