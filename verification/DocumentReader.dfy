/** One iterator over a document's lines, which hashes what it hands out. */
module DocumentReader {
  import opened Sequences
  import opened TextLines

  /** The markers between which a document is digested. */
  datatype Marks = Marks(start: string, end: string)

  ghost predicate Usable(m: Marks) {
    m.start != [] && m.end != [] && '\n' !in m.start && '\n' !in m.end
  }

  predicate At(s: string, i: nat, t: string) {
    i + |t| <= |s| && s[i..i + |t|] == t
  }

  /** `find` in the part `from..to` of a string. */
  function Find(s: string, from: nat, to: nat, t: string): (i: Option<nat>)
    requires from <= to <= |s|
    ensures i.Some? ==> from <= i.value && i.value + |t| <= to && At(s, i.value, t)
    decreases |s| - from
  {
    if from + |t| > to then None
    else if At(s, from, t) then Some(from)
    else if from == to then None
    else Find(s, from + 1, to, t)
  }

  /** Where the line ends that holds position `pos`: behind its newline. */
  function LineEnd(s: string, pos: nat): (e: nat)
    requires pos < |s|
    ensures pos < e <= |s| && (e < |s| ==> s[e - 1] == '\n')
    decreases |s| - pos
  {
    if s[pos] == '\n' || pos + 1 == |s| then pos + 1 else LineEnd(s, pos + 1)
  }

  // ---- what is hashed, line by line ----

  datatype Hashing = Hashing(digesting: bool, hashed: string)

  const NOTHING: Hashing := Hashing(false, [])

  /** The line from `pos` to `e`. */
  function Update(m: Marks, h: Hashing, s: string, pos: nat, e: nat): (h': Hashing)
    requires pos <= e <= |s|
  {
    if !h.digesting then
      match Find(s, pos, e, m.start)
      case Some(i) => Hashing(true, h.hashed + s[i..e])
      case None => h
    else
      match Find(s, pos, e, m.end)
      case Some(i) => Hashing(false, h.hashed + s[pos..i + |m.end|])
      case None => Hashing(true, h.hashed + s[pos..e])
  }

  function UpdateAll(m: Marks, h: Hashing, s: string, pos: nat): (h': Hashing)
    requires pos <= |s|
    decreases |s| - pos
  {
    if pos == |s| then h else var e := LineEnd(s, pos); UpdateAll(m, Update(m, h, s, pos, e), s, e)
  }

  /** `rstrip('\n')` of a line. */
  function Strip(line: string): (r: Line) {
    if line != [] && line[|line| - 1] == '\n' then line[..|line| - 1] else line
  }

  /** The lines that iterating over a document string from `pos` on gives, without their newlines. */
  function Lines(s: string, pos: nat): (lines: seq<Line>)
    requires pos <= |s|
    decreases |s| - pos
  {
    if pos == |s| then [] else var e := LineEnd(s, pos); [Strip(s[pos..e])] + Lines(s, e)
  }

  // ---- the reader ----

  class TorDocumentReader {
    const raw: string
    const marks: Option<Marks>          // none when no digest is asked for
    var pos: nat
    var hashing: Hashing

    /** Whoever takes the lines: what is hashed, and what will be, is what the whole document hashes to. */
    ghost predicate Valid()
      reads this
    {
      && pos <= |raw|
      && match marks
         case None => hashing == NOTHING
         case Some(m) => UpdateAll(m, hashing, raw, pos) == UpdateAll(m, NOTHING, raw, 0)
    }

    constructor (raw: string, marks: Option<Marks>)
      ensures Valid() && this.raw == raw && this.marks == marks && Ahead() == Lines(raw, 0)
    {
      this.raw, this.marks, pos, hashing := raw, marks, 0, NOTHING;
    }

    ghost function Ahead(): (s: seq<Line>)
      requires Valid()
      reads this
    {
      Lines(raw, pos)
    }

    predicate Done()
      requires Valid()
      reads this
      ensures Done() <==> Ahead() == []
    {
      pos == |raw|
    }

    method Next() returns (line: Line)
      requires Valid() && !Done()
      modifies this
      ensures Valid() && old(Ahead()) == [line] + Ahead()
    {
      var e := LineEnd(raw, pos);
      if marks.Some? {
        hashing := Update(marks.value, hashing, raw, pos, e);
      }
      line := Strip(raw[pos..e]);
      pos := e;
    }
  }

  // ---- nested reading ----

  /** The lines up to a stop line, or to the end of the document. */
  function TakeUntil(stop: Line, lines: seq<Line>): (data: seq<Line>) {
    if lines == [] || lines[0] == stop then [] else [lines[0]] + TakeUntil(stop, lines[1..])
  }

  /** The lines behind the stop line. */
  function AfterUntil(stop: Line, lines: seq<Line>): (rest: seq<Line>)
    ensures |rest| <= |lines|
  {
    if lines == [] then [] else if lines[0] == stop then lines[1..] else AfterUntil(stop, lines[1..])
  }

  lemma TakeNext(stop: Line, data: seq<Line>, lines: seq<Line>, line: Line, rest: seq<Line>)
    requires lines == [line] + rest
    ensures line == stop ==> data + TakeUntil(stop, lines) == data && AfterUntil(stop, lines) == rest
    ensures line != stop ==> data + TakeUntil(stop, lines) == (data + [line]) + TakeUntil(stop, rest)
    ensures line != stop ==> AfterUntil(stop, lines) == AfterUntil(stop, rest)
  {
    assert lines[0] == line && lines[1..] == rest;
  }

  /** The loop of an item that wants more lines draws on the iterator that its document is reading from. */
  method ReadUntil(it: TorDocumentReader, stop: Line) returns (data: seq<Line>)
    requires it.Valid()
    modifies it
    ensures it.Valid()
    ensures data == TakeUntil(stop, old(it.Ahead())) && it.Ahead() == AfterUntil(stop, old(it.Ahead()))
  {
    data := [];
    while !it.Done()
      invariant it.Valid()
      invariant TakeUntil(stop, old(it.Ahead())) == data + TakeUntil(stop, it.Ahead())
      invariant AfterUntil(stop, old(it.Ahead())) == AfterUntil(stop, it.Ahead())
      decreases |it.Ahead()|
    {
      ghost var ahead := it.Ahead();
      var line := it.Next();
      TakeNext(stop, data, ahead, line, it.Ahead());
      if line == stop {
        return;
      }
      data := data + [line];
    }
  }

  /** A block comes back whole exactly when the stop line is not among its lines, whatever else they look like. */
  lemma {:induction false} BlockRead(stop: Line, data: seq<Line>, lines: seq<Line>)
    ensures stop !in data ==>
      TakeUntil(stop, data + [stop] + lines) == data && AfterUntil(stop, data + [stop] + lines) == lines
    ensures stop in data ==> |TakeUntil(stop, data + [stop] + lines)| < |data|
  {
    var all := data + [stop] + lines;
    if data == [] {
      assert all[0] == stop && all[1..] == lines;
    } else {
      BlockRead(stop, data[1..], lines);
      assert all[0] == data[0] && all[1..] == data[1..] + [stop] + lines;
      assert data == [data[0]] + data[1..];
    }
  }

  /** A block that nothing ends goes on to the end of the document. */
  lemma {:induction false} BlockUnended(stop: Line, data: seq<Line>)
    requires stop !in data
    ensures TakeUntil(stop, data) == data && AfterUntil(stop, data) == []
  {
    if data != [] {
      BlockUnended(stop, data[1..]);
      assert data == [data[0]] + data[1..];
    }
  }

  // ---- the lines of a text ----

  lemma {:induction false} LineEndAt(s: string, pos: nat, word: Line, tail: string)
    requires pos <= |s| && s[pos..] == word + "\n" + tail && '\n' !in word
    ensures pos < |s| && LineEnd(s, pos) == pos + |word| + 1
    decreases |word|
  {
    assert |s| > pos + |word| && s[pos] == (word + "\n" + tail)[0];
    if word != [] {
      assert s[pos + 1..] == s[pos..][1..] == word[1..] + "\n" + tail;
      LineEndAt(s, pos + 1, word[1..], tail);
    }
  }

  /** The reader hands out exactly the lines that a text was made of. */
  lemma {:induction false} LinesOfText(lines: seq<Line>, s: string, pos: nat)
    requires Clean(lines) && pos <= |s| && s[pos..] == Text(lines)
    ensures Lines(s, pos) == lines
  {
    if lines == [] {
      assert |s[pos..]| == 0;
    } else {
      var e := pos + |lines[0]| + 1;
      FrontLine(s, pos, lines[0], Text(lines[1..]));
      LinesOfText(lines[1..], s, e);
      OnTop(s, pos, lines, e);
    }
  }

  lemma OnTop(s: string, pos: nat, lines: seq<Line>, e: nat)
    requires lines != [] && pos < |s| && e == LineEnd(s, pos)
    requires Strip(s[pos..e]) == lines[0] && Lines(s, e) == lines[1..]
    ensures Lines(s, pos) == lines
  {
    assert lines == [lines[0]] + lines[1..];
  }

  lemma FrontLine(s: string, pos: nat, word: Line, tail: string)
    requires pos <= |s| && s[pos..] == word + "\n" + tail && '\n' !in word
    ensures pos < |s| && LineEnd(s, pos) == pos + |word| + 1
    ensures Strip(s[pos..LineEnd(s, pos)]) == word && s[LineEnd(s, pos)..] == tail
  {
    LineEndAt(s, pos, word, tail);
    var e := pos + |word| + 1;
    assert s[e..] == s[pos..][|word| + 1..];
    assert s[pos..e] == s[pos..][..|word| + 1] == word + "\n";
  }

  // ---- the slice of the document that is meant ----

  /** From the first start marker to the first end marker on a later line, or to the end. */
  function Signed(m: Marks, raw: string): (s: string)
    requires m.start != []
  {
    match Find(raw, 0, |raw|, m.start)
    case None => []
    case Some(i) =>
      match Find(raw, LineEnd(raw, i), |raw|, m.end)
      case None => raw[i..|raw|]
      case Some(j) => raw[i..j + |m.end|]
  }

  /** The start marker stands once more below the line that holds the end marker. */
  predicate Restarts(m: Marks, raw: string)
    requires m.start != [] && m.end != []
  {
    match Find(raw, 0, |raw|, m.start)
    case None => false
    case Some(i) =>
      match Find(raw, LineEnd(raw, i), |raw|, m.end)
      case None => false
      case Some(j) => Find(raw, LineEnd(raw, j), |raw|, m.start).Some?
  }

  // ---- markers and lines ----

  /** A search goes on at `e` when no match lies across it. */
  lemma {:induction false} FindOn(s: string, from: nat, e: nat, t: string)
    requires from <= e <= |s| && t != []
    requires forall i | from <= i < e < i + |t| :: !At(s, i, t)
    ensures Find(s, from, |s|, t) == if Find(s, from, e, t).Some? then Find(s, from, e, t) else Find(s, e, |s|, t)
    decreases e - from
  {
    if from < e {
      FindOn(s, from + 1, e, t);
      assert from + |t| > e ==> Find(s, from + 1, e, t).None?;
    }
  }

  lemma AtIndex(s: string, i: nat, t: string, k: nat)
    requires i <= k < i + |t| && k < |s|
    ensures At(s, i, t) ==> s[k] in t
  {
    if At(s, i, t) {
      assert s[i..i + |t|][k - i] == t[k - i];
    }
  }

  /** A marker without newlines is in the line at hand, or further down. */
  lemma FindByLine(s: string, pos: nat, t: string)
    requires pos < |s| && t != [] && '\n' !in t
    ensures var e := LineEnd(s, pos);
            Find(s, pos, |s|, t) == if Find(s, pos, e, t).Some? then Find(s, pos, e, t) else Find(s, e, |s|, t)
  {
    var e := LineEnd(s, pos);
    forall i | pos <= i < e < i + |t| ensures !At(s, i, t) {
      AtIndex(s, i, t, e - 1);
    }
    FindOn(s, pos, e, t);
  }

  lemma {:induction false} SameLine(s: string, pos: nat, i: nat)
    requires pos <= i < |s| && i < LineEnd(s, pos)
    ensures LineEnd(s, i) == LineEnd(s, pos)
    decreases i - pos
  {
    if pos < i {
      SameLine(s, pos + 1, i);
    }
  }

  // ---- the line-driven digest is the digest of the slice ----

  /** Hashing in the middle of a document: what is hashed so far, and where the next line begins. */
  datatype Point = Point(h: Hashing, pos: nat)

  function Go(m: Marks, s: string, p: Point): (h: Hashing)
    requires p.pos <= |s|
  {
    UpdateAll(m, p.h, s, p.pos)
  }

  lemma {:induction false} HashedGrows(m: Marks, h: Hashing, s: string, pos: nat)
    requires pos <= |s|
    ensures |UpdateAll(m, h, s, pos).hashed| >= |h.hashed|
    decreases |s| - pos
  {
    if pos < |s| {
      var e := LineEnd(s, pos);
      HashedGrows(m, Update(m, h, s, pos, e), s, e);
    }
  }

  /** The start marker at `r` opens the digest for the rest of its line. */
  function AtStart(hashed: string, s: string, r: Option<nat>): (p: Point)
    requires r.Some? ==> r.value < |s|
    ensures p.pos <= |s|
  {
    match r
    case None => Point(Hashing(false, hashed), |s|)
    case Some(i) => var e := LineEnd(s, i); Point(Hashing(true, hashed + s[i..e]), e)
  }

  /** Nothing is hashed before the start marker. */
  lemma {:induction false} UntilStart(m: Marks, hashed: string, s: string, pos: nat)
    requires Usable(m) && pos <= |s|
    ensures Go(m, s, Point(Hashing(false, hashed), pos)) == Go(m, s, AtStart(hashed, s, Find(s, pos, |s|, m.start)))
    decreases |s| - pos
  {
    if pos < |s| {
      var e := LineEnd(s, pos);
      FindByLine(s, pos, m.start);
      match Find(s, pos, e, m.start)
      case Some(i) => SameLine(s, pos, i);
      case None => UntilStart(m, hashed, s, e);
    }
  }

  /** The end marker at `r` closes the digest for the rest of its line. */
  function AtEnd(m: Marks, hashed: string, s: string, pos: nat, r: Option<nat>): (p: Point)
    requires m.end != [] && pos <= |s| && (r.Some? ==> pos <= r.value && r.value + |m.end| <= |s|)
    ensures p.pos <= |s|
  {
    match r
    case None => Point(Hashing(true, hashed + s[pos..|s|]), |s|)
    case Some(j) => Point(Hashing(false, hashed + s[pos..j + |m.end|]), LineEnd(s, j))
  }

  lemma LineMore(m: Marks, hashed: string, s: string, pos: nat, e: nat, r: Option<nat>)
    requires m.end != [] && pos <= e <= |s| && (r.Some? ==> e <= r.value && r.value + |m.end| <= |s|)
    ensures AtEnd(m, hashed + s[pos..e], s, e, r) == AtEnd(m, hashed, s, pos, r)
  {
    assert forall c | e <= c <= |s| :: hashed + s[pos..e] + s[e..c] == hashed + s[pos..c];
  }

  /** Everything is hashed up to the end marker. */
  lemma {:induction false} UntilEnd(m: Marks, hashed: string, s: string, pos: nat)
    requires Usable(m) && pos <= |s|
    ensures Go(m, s, Point(Hashing(true, hashed), pos)) == Go(m, s, AtEnd(m, hashed, s, pos, Find(s, pos, |s|, m.end)))
    decreases |s| - pos
  {
    if pos == |s| {
      assert hashed + s[pos..|s|] == hashed;
    } else {
      var e := LineEnd(s, pos);
      FindByLine(s, pos, m.end);
      match Find(s, pos, e, m.end)
      case Some(j) =>
        SameLine(s, pos, j);
      case None =>
        UntilEnd(m, hashed + s[pos..e], s, e);
        LineMore(m, hashed, s, pos, e, Find(s, e, |s|, m.end));
    }
  }

  /** The line-by-line digest covers exactly the signed slice unless the start marker comes back below it. */
  lemma DigestIsSlice(m: Marks, raw: string)
    requires Usable(m)
    ensures UpdateAll(m, NOTHING, raw, 0).hashed == Signed(m, raw) <==> !Restarts(m, raw)
  {
    var p := Closing(m, raw);
    NoMore(m, raw, p);
  }

  lemma FromStart(m: Marks, s: string, i: nat, e: nat)
    requires Usable(m) && i < e <= |s|
    ensures Go(m, s, Point(Hashing(true, [] + s[i..e]), e)) == Go(m, s, AtEnd(m, [], s, i, Find(s, e, |s|, m.end)))
  {
    UntilEnd(m, [] + s[i..e], s, e);
    LineMore(m, [], s, i, e, Find(s, e, |s|, m.end));
  }

  /** The slice, and whether the start marker comes back, in terms of the point behind the end marker. */
  lemma BehindEnd(m: Marks, raw: string, i: nat)
    requires Usable(m) && Find(raw, 0, |raw|, m.start) == Some(i) && i < |raw|
    ensures var p := AtEnd(m, [], raw, i, Find(raw, LineEnd(raw, i), |raw|, m.end));
            && p.h.hashed == Signed(m, raw) && (p.h.digesting ==> p.pos == |raw|)
            && (Restarts(m, raw) <==> !p.h.digesting && Find(raw, p.pos, |raw|, m.start).Some?)
  {
    var r := Find(raw, LineEnd(raw, i), |raw|, m.end);
    var slice := raw[i..if r.None? then |raw| else r.value + |m.end|];
    assert [] + slice == slice;
  }

  /** The point right behind the signed slice. */
  lemma Closing(m: Marks, raw: string) returns (p: Point)
    requires Usable(m)
    ensures p.pos <= |raw| && Go(m, raw, Point(NOTHING, 0)) == Go(m, raw, p) && p.h.hashed == Signed(m, raw)
    ensures p.h.digesting ==> p.pos == |raw|
    ensures Restarts(m, raw) <==> !p.h.digesting && Find(raw, p.pos, |raw|, m.start).Some?
  {
    UntilStart(m, [], raw, 0);
    var start := Find(raw, 0, |raw|, m.start);
    if start.None? {
      p := AtStart([], raw, start);
    } else {
      var i, e := start.value, LineEnd(raw, start.value);
      FromStart(m, raw, i, e);
      BehindEnd(m, raw, i);
      p := AtEnd(m, [], raw, i, Find(raw, e, |raw|, m.end));
    }
  }

  /** Behind an end marker, or at the end of the document, more is hashed only if the start marker comes back. */
  lemma NoMore(m: Marks, s: string, p: Point)
    requires Usable(m) && p.pos <= |s| && (p.h.digesting ==> p.pos == |s|)
    ensures Go(m, s, p).hashed == p.h.hashed <==> p.h.digesting || Find(s, p.pos, |s|, m.start).None?
  {
    if !p.h.digesting {
      UntilStart(m, p.h.hashed, s, p.pos);
      var next := AtStart(p.h.hashed, s, Find(s, p.pos, |s|, m.start));
      HashedGrows(m, next.h, s, next.pos);
    }
  }

  // ---- the same by positions ----

  /** `t` stands at `i`, and nowhere between `from` and `i`. */
  ghost predicate FirstAt(s: string, from: nat, t: string, i: nat) {
    from <= i && At(s, i, t) && forall k | from <= k < i :: !At(s, k, t)
  }

  ghost predicate NowhereFrom(s: string, from: nat, t: string) {
    forall k | from <= k :: !At(s, k, t)
  }

  /** The line that holds `i` ends in front of `e`. */
  ghost predicate EndsLine(s: string, i: nat, e: nat) {
    i < e <= |s| && (e == |s| || s[e - 1] == '\n') && forall k | i <= k < e - 1 :: s[k] != '\n'
  }

  /** The search answers with the least position there is, and with none only if there is none. */
  lemma {:induction false} FindLeast(s: string, from: nat, to: nat, t: string, k: nat)
    requires from <= k <= k + |t| <= to <= |s| && At(s, k, t)
    ensures Find(s, from, to, t).Some? && Find(s, from, to, t).value <= k
    decreases k - from
  {
    if !At(s, from, t) {
      FindLeast(s, from + 1, to, t, k);
    }
  }

  lemma FindIsFirst(s: string, from: nat, t: string)
    requires from <= |s| && t != []
    ensures match Find(s, from, |s|, t)
            case None => NowhereFrom(s, from, t)
            case Some(i) => FirstAt(s, from, t, i)
  {
    forall k | from <= k && At(s, k, t)
      ensures Find(s, from, |s|, t).Some? && Find(s, from, |s|, t).value <= k
    {
      FindLeast(s, from, |s|, t, k);
    }
  }

  lemma FindAt(s: string, from: nat, t: string, i: nat)
    requires from <= |s| && t != [] && FirstAt(s, from, t, i)
    ensures Find(s, from, |s|, t) == Some(i)
  {
    FindIsFirst(s, from, t);
  }

  lemma {:induction false} LineEndIs(s: string, i: nat, e: nat)
    requires EndsLine(s, i, e)
    ensures LineEnd(s, i) == e
    decreases e - i
  {
    if i + 1 < e {
      assert s[i] != '\n';
      LineEndIs(s, i + 1, e);
    }
  }

  /** No start marker, no digest. */
  lemma DigestOfNothing(m: Marks, raw: string)
    requires Usable(m) && NowhereFrom(raw, 0, m.start)
    ensures UpdateAll(m, NOTHING, raw, 0).hashed == []
  {
    FindIsFirst(raw, 0, m.start);
    DigestIsSlice(m, raw);
  }

  /** With a start marker first at `i`, and no end marker on a later line: from there to the end. */
  lemma DigestToEnd(m: Marks, raw: string, i: nat, e: nat)
    requires Usable(m) && FirstAt(raw, 0, m.start, i) && EndsLine(raw, i, e) && NowhereFrom(raw, e, m.end)
    ensures UpdateAll(m, NOTHING, raw, 0).hashed == raw[i..]
  {
    FindAt(raw, 0, m.start, i);
    LineEndIs(raw, i, e);
    FindIsFirst(raw, e, m.end);
    DigestIsSlice(m, raw);
  }

  lemma SpanBetween(m: Marks, raw: string, i: nat, e: nat, j: nat, e': nat)
    requires Usable(m) && FirstAt(raw, 0, m.start, i) && EndsLine(raw, i, e)
    requires FirstAt(raw, e, m.end, j) && EndsLine(raw, j, e')
    ensures Signed(m, raw) == raw[i..j + |m.end|]
    ensures Restarts(m, raw) <==> Find(raw, e', |raw|, m.start).Some?
  {
    FindAt(raw, 0, m.start, i);
    LineEndIs(raw, i, e);
    FindAt(raw, e, m.end, j);
    LineEndIs(raw, j, e');
  }

  /**
   With the first end marker on a later line at `j`: from the one marker through the other, if and
   only if the start marker stands nowhere on the lines behind that.
  */
  lemma DigestBetween(m: Marks, raw: string, i: nat, e: nat, j: nat, e': nat)
    requires Usable(m) && FirstAt(raw, 0, m.start, i) && EndsLine(raw, i, e)
    requires FirstAt(raw, e, m.end, j) && EndsLine(raw, j, e')
    ensures UpdateAll(m, NOTHING, raw, 0).hashed == raw[i..j + |m.end|] <==> NowhereFrom(raw, e', m.start)
  {
    SpanBetween(m, raw, i, e, j, e');
    FindIsFirst(raw, e', m.start);
    DigestIsSlice(m, raw);
  }
}
