/** Diff documents: one iterator over the lines, shared by the document and by its actions. */
module DiffReader {
  import opened Sequences
  import opened TextLines
  import opened EdScript
  import opened DiffText
  import opened DocumentReader

  const INT32_MAX: nat := 2147483647

  datatype Error = ValueError | WrongStart
  type Reading<T> = Result<T, Error>

  // ---- numbers and commands ----

  predicate IsDigit(c: char) {
    '0' <= c <= '9'
  }

  /** How many digits `s` begins with. */
  function Digits(s: string): (n: nat)
    ensures n <= |s| && forall i | 0 <= i < n :: IsDigit(s[i])
    ensures n < |s| ==> !IsDigit(s[n])
  {
    if s != [] && IsDigit(s[0]) then 1 + Digits(s[1..]) else 0
  }

  /** `int(s)` of digits. */
  function ToInt(s: string): (n: nat)
    requires forall i | 0 <= i < |s| :: IsDigit(s[i])
  {
    if s == [] then 0
    else
      assert IsDigit(s[|s| - 1]);
      10 * ToInt(s[..|s| - 1]) + (s[|s| - 1] as int - '0' as int)
  }

  function Decimal(n: nat): (s: string)
    ensures |s| > 0 && forall i | 0 <= i < |s| :: IsDigit(s[i])
  {
    var last := [('0' as int + n % 10) as char];
    if n < 10 then last else Decimal(n / 10) + last
  }

  function Letter(k: Kind): (c: char) {
    match k
    case Append => 'a'
    case Change => 'c'
    case Delete => 'd'
  }

  function KindOf(c: char): (k: Option<Kind>) {
    if c == 'a' then Some(Append) else if c == 'c' then Some(Change) else if c == 'd' then Some(Delete) else None
  }

  /** The groups of the command pattern; `end` is absent without a comma. */
  datatype Match = Match(start: string, end: Option<string>, kind: Kind)

  function MatchKind(start: string, end: Option<string>, s: string): (m: Option<Match>) {
    if s == [] || KindOf(s[0]).None? then None else Some(Match(start, end, KindOf(s[0]).value))
  }

  /** Matched at the front of a line's first word; what follows the letter is ignored. */
  function MatchCommand(kw: string): (m: Option<Match>)
    ensures m.Some? ==> forall i | 0 <= i < |m.value.start| :: IsDigit(m.value.start[i])
    ensures m.Some? && m.value.end.Some? && m.value.end.value != "$" ==>
      (forall i | 0 <= i < |m.value.end.value| :: IsDigit(m.value.end.value[i]))
  {
    var n := Digits(kw);
    var start, rest := kw[..n], kw[n..];
    if n == 0 then None
    else if rest == [] || rest[0] != ',' then MatchKind(start, None, rest)
    else if |rest| > 1 && rest[1] == '$' then MatchKind(start, Some("$"), rest[2..])
    else
      var m := Digits(rest[1..]);
      if m == 0 then None else MatchKind(start, Some(rest[1..][..m]), rest[1..][m..])
  }

  function Range(m: Match): (r: Reading<(Ref, Ref)>)
    requires forall i | 0 <= i < |m.start| :: IsDigit(m.start[i])
    requires m.end.Some? && m.end.value != "$" ==> forall i | 0 <= i < |m.end.value| :: IsDigit(m.end.value[i])
  {
    var start := ToInt(m.start);
    if start > INT32_MAX then Err(ValueError)
    else if m.end.None? then Ok((Number(start), Number(start)))
    else if m.end.value == "$" then Ok((Number(start), Dollar))
    else
      var end := ToInt(m.end.value);
      if end > INT32_MAX || end < start then Err(ValueError) else Ok((Number(start), Number(end)))
  }

  // ---- one action, one line, one document ----

  /** A lone dot ends the data of an action. */
  const DOT: Line := "."

  datatype Doc = Doc(
    checkStart: bool,
    version: Option<int>,
    fromDigest: Option<string>,
    toDigest: Option<string>,
    actions: seq<EdAction>)

  const FRESH: Doc := Doc(true, None, None, None, [])

  const VERSION: string := "network-status-diff-version"
  const HASH: string := "hash"

  /** One line: the document after it, and the lines that its item has not used up. */
  function CheckItems(number: string -> Option<int>, doc: Doc, line: Line, lines: seq<Line>): (r: Reading<(Doc, seq<Line>)>)
    ensures r.Ok? ==> |r.value.1| <= |lines|
  {
    var kw := Word(line);
    if kw == VERSION then
      match number(Split(Arguments(line), ' ')[0])
      case Some(v) => Ok((doc.(checkStart := false, version := Some(v)), lines))
      case None => Err(ValueError)
    else if kw == HASH then
      if doc.checkStart then Err(WrongStart)
      else
        var fields := Split(Arguments(line), ' ');
        var doc' := doc.(fromDigest := Some(fields[0]));
        Ok((if |fields| > 1 then doc'.(toDigest := Some(fields[1])) else doc', lines))
    else
      match MatchCommand(kw)
      case None => Ok((doc, lines))
      case Some(m) =>
        match Range(m)
        case Ok((start, end)) =>
          if m.kind.Delete? then Ok((Acted(doc, EdAction(start, end, Delete, [])), lines))
          else Ok((Acted(doc, EdAction(start, end, m.kind, TakeUntil(DOT, lines))), AfterUntil(DOT, lines)))
        case Err(e) => Err(e)
  }

  function Acted(doc: Doc, a: EdAction): (doc': Doc) {
    doc.(actions := doc.actions + [a])
  }

  function ReadFrom(number: string -> Option<int>, doc: Doc, lines: seq<Line>): (r: Reading<Doc>)
    decreases |lines|
  {
    if lines == [] then Ok(doc)
    else
      match CheckItems(number, doc, lines[0], lines[1..])
      case Ok((doc', rest)) => ReadFrom(number, doc', rest)
      case Err(e) => Err(e)
  }

  // ---- reading ----

  /** The fields of a document under construction. */
  class DiffDocument {
    const number: string -> Option<int>
    var doc: Doc

    constructor (number: string -> Option<int>)
      ensures this.number == number && doc == FRESH
    {
      this.number, doc := number, FRESH;
    }

    method Check(line: Line, it: TorDocumentReader) returns (r: Reading<()>)
      requires it.Valid()
      modifies this, it
      ensures it.Valid()
      ensures match CheckItems(number, old(doc), line, old(it.Ahead()))
              case Ok((doc', rest)) => r.Ok? && doc == doc' && it.Ahead() == rest
              case Err(e) => r == Err(e)
    {
      var kw := Word(line);
      if kw == VERSION {
        var v := number(Split(Arguments(line), ' ')[0]);
        if v.None? {
          return Err(ValueError);
        }
        doc := doc.(checkStart := false, version := v);
      } else if kw == HASH {
        if doc.checkStart {
          return Err(WrongStart);
        }
        var fields := Split(Arguments(line), ' ');
        doc := doc.(fromDigest := Some(fields[0]));
        if |fields| > 1 {
          doc := doc.(toDigest := Some(fields[1]));
        }
      } else {
        var m := MatchCommand(kw);
        if m.Some? {
          var range := Range(m.value);
          if range.Ok? {
            var data := [];
            if !m.value.kind.Delete? {
              data := ReadUntil(it, DOT);
            }
            doc := Acted(doc, EdAction(range.value.0, range.value.1, m.value.kind, data));
          } else {
            return Err(ValueError);
          }
        }
      }
      return Ok(());
    }

    method Read(it: TorDocumentReader) returns (r: Reading<()>)
      requires it.Valid()
      modifies this, it
      ensures match ReadFrom(number, old(doc), old(it.Ahead()))
              case Ok(d) => r.Ok? && doc == d
              case Err(e) => r == Err(e)
    {
      while !it.Done()
        invariant it.Valid()
        invariant ReadFrom(number, old(doc), old(it.Ahead())) == ReadFrom(number, doc, it.Ahead())
        decreases |it.Ahead()|
      {
        ghost var ahead := it.Ahead();
        var line := it.Next();
        assert ahead[0] == line && ahead[1..] == it.Ahead();
        r := Check(line, it);
        if !r.Ok? {
          return;
        }
      }
      return Ok(());
    }
  }

  // ---- printing ----

  function PrintEnd(end: Ref): (s: string) {
    match end
    case Number(n) => Decimal(n)
    case Dollar => "$"
  }

  /** `n` or `m,n` or `m,$`, and the letter. */
  function PrintCommand(a: EdAction): (s: string)
    requires a.start.Number?
  {
    Decimal(a.start.n) + (if a.end == a.start then [] else "," + PrintEnd(a.end)) + [Letter(a.kind)]
  }

  function PrintAll(script: seq<EdAction>): (lines: seq<Line>)
    requires Plain(script)
  {
    if script == [] then []
    else
      var a := script[0];
      [PrintCommand(a)] + ((if a.kind.Delete? then [] else a.data + [DOT]) + PrintAll(script[1..]))
  }

  predicate Printable(a: EdAction) {
    && a.start.Number? && a.start.n <= 2147483647
    && (a.end.Number? ==> a.start.n <= a.end.n <= 2147483647)
    && (if a.kind.Delete? then a.data == [] else DOT !in a.data)
  }

  predicate AllPrintable(script: seq<EdAction>) {
    script == [] || (Printable(script[0]) && AllPrintable(script[1..]))
  }

  // ---- reading back what was printed ----

  lemma {:induction false} DigitsOf(d: string, t: string)
    requires forall i | 0 <= i < |d| :: IsDigit(d[i])
    requires t == [] || !IsDigit(t[0])
    ensures Digits(d + t) == |d|
  {
    if d != [] {
      assert (d + t)[1..] == d[1..] + t;
      DigitsOf(d[1..], t);
    } else {
      assert d + t == t;
    }
  }

  lemma {:induction false} ToIntDecimal(n: nat)
    ensures ToInt(Decimal(n)) == n
  {
    var s := Decimal(n);
    if n >= 10 {
      ToIntDecimal(n / 10);
      assert s[..|s| - 1] == Decimal(n / 10);
    } else {
      assert s[..0] == [];
    }
  }

  /** A number is read in base ten, whatever zeros it begins with. */
  lemma ToIntDigit(s: string, c: char)
    requires (forall i | 0 <= i < |s| :: IsDigit(s[i])) && '0' <= c <= '9'
    ensures forall i | 0 <= i < |s + [c]| :: IsDigit((s + [c])[i])
    ensures ToInt(s + [c]) == 10 * ToInt(s) + (c as int - '0' as int) && ToInt([]) == 0
  {
    assert (s + [c])[..|s|] == s;
  }

  /** What a command's letter stands for, and nothing else is a command. */
  function Meant(start: string, end: Option<string>, c: char): (m: Option<Match>) {
    match c
    case 'a' => Some(Match(start, end, Append))
    case 'c' => Some(Match(start, end, Change))
    case 'd' => Some(Match(start, end, Delete))
    case _ => None
  }

  lemma NumberFirst(d: string, t: string)
    requires forall i | 0 <= i < |d| :: IsDigit(d[i])
    requires t == [] || !IsDigit(t[0])
    ensures Digits(d + t) == |d| && (d + t)[..|d|] == d && (d + t)[|d|..] == t
  {
    DigitsOf(d, t);
  }

  /** A number, and then the letter; what stands behind the letter is not looked at. */
  lemma MatchLetterOnly(d: string, c: char, t: string)
    requires d != [] && forall i | 0 <= i < |d| :: '0' <= d[i] <= '9'
    requires !('0' <= c <= '9') && c != ','
    ensures MatchCommand(d + ([c] + t)) == Meant(d, None, c)
    ensures MatchCommand([c] + t) == None && MatchCommand(d) == None
  {
    NumberFirst(d, [c] + t);
    NumberFirst(d, []);
    assert d + [] == d;
  }

  /** A number, a comma and a `$`, and then the letter. */
  lemma MatchToDollar(d: string, c: char, t: string)
    requires d != [] && forall i | 0 <= i < |d| :: '0' <= d[i] <= '9'
    ensures MatchCommand(d + (",$" + ([c] + t))) == Meant(d, Some("$"), c)
  {
    var rest := ",$" + ([c] + t);
    NumberFirst(d, rest);
    assert rest[2..] == [c] + t;
  }

  /** Two numbers with a comma between them, and then the letter. */
  lemma MatchToNumber(d: string, e: string, c: char, t: string)
    requires d != [] && forall i | 0 <= i < |d| :: '0' <= d[i] <= '9'
    requires e != [] && forall i | 0 <= i < |e| :: '0' <= e[i] <= '9'
    requires !('0' <= c <= '9')
    ensures MatchCommand(d + ("," + (e + ([c] + t)))) == Meant(d, Some(e), c)
  {
    var rest := "," + (e + ([c] + t));
    NumberFirst(d, rest);
    assert rest[1..] == e + ([c] + t);
    NumberFirst(e, [c] + t);
    assert rest[1] == e[0] && IsDigit(e[0]);
  }

  function EndGroup(a: EdAction): (end: Option<string>) {
    if a.end == a.start then None else Some(PrintEnd(a.end))
  }

  lemma MatchOne(d: string, kind: Kind)
    requires d != [] && forall i | 0 <= i < |d| :: IsDigit(d[i])
    ensures MatchCommand(d + [Letter(kind)]) == Some(Match(d, None, kind))
  {
    var letter := [Letter(kind)];
    DigitsOf(d, letter);
    assert (d + letter)[..|d|] == d && (d + letter)[|d|..] == letter;
  }

  lemma MatchDollar(d: string, kind: Kind)
    requires d != [] && forall i | 0 <= i < |d| :: IsDigit(d[i])
    ensures MatchCommand(d + ",$" + [Letter(kind)]) == Some(Match(d, Some("$"), kind))
  {
    var rest := ",$" + [Letter(kind)];
    assert d + ",$" + [Letter(kind)] == d + rest;
    DigitsOf(d, rest);
    assert (d + rest)[..|d|] == d && (d + rest)[|d|..] == rest;
    assert rest[2..] == [Letter(kind)];
  }

  lemma MatchTwo(d: string, e: string, kind: Kind)
    requires d != [] && forall i | 0 <= i < |d| :: IsDigit(d[i])
    requires e != [] && forall i | 0 <= i < |e| :: IsDigit(e[i])
    ensures MatchCommand(d + ("," + (e + [Letter(kind)]))) == Some(Match(d, Some(e), kind))
  {
    var rest := "," + (e + [Letter(kind)]);
    DigitsOf(d, rest);
    assert (d + rest)[..|d|] == d && (d + rest)[|d|..] == rest;
    EndPart(e, kind);
    MatchLetter(d, Some(e), kind);
  }

  lemma EndPart(e: string, kind: Kind)
    requires e != [] && forall i | 0 <= i < |e| :: IsDigit(e[i])
    ensures var rest := "," + (e + [Letter(kind)]);
            && |rest| > 1 && rest[1] != '$' && Digits(rest[1..]) == |e|
            && rest[1..][..|e|] == e && rest[1..][|e|..] == [Letter(kind)]
  {
    DigitsOf(e, [Letter(kind)]);
    assert ("," + (e + [Letter(kind)]))[1..] == e + [Letter(kind)];
    assert IsDigit(e[0]);
  }

  lemma MatchLetter(start: string, end: Option<string>, kind: Kind)
    ensures MatchKind(start, end, [Letter(kind)]) == Some(Match(start, end, kind))
  {
  }

  lemma MatchPrinted(a: EdAction)
    requires a.start.Number?
    ensures MatchCommand(PrintCommand(a)) == Some(Match(Decimal(a.start.n), EndGroup(a), a.kind))
  {
    var d, l := Decimal(a.start.n), [Letter(a.kind)];
    if a.end == a.start {
      MatchOne(d, a.kind);
      assert d + [] == d;
    } else if a.end.Dollar? {
      MatchDollar(d, a.kind);
      assert "," + "$" == ",$";
      Assoc(d, ",$", l);
    } else {
      var e := PrintEnd(a.end);
      MatchTwo(d, e, a.kind);
      Assoc(d, "," + e, l);
      Assoc(",", e, l);
    }
  }

  /** A command is one word and no keyword. */
  lemma CommandWord(a: EdAction)
    requires a.start.Number?
    ensures var s := PrintCommand(a); Word(s) == s && s != VERSION && s != HASH
  {
    var s, d := PrintCommand(a), Decimal(a.start.n);
    assert s[0] == d[0] && IsDigit(s[0]);
    assert ' ' !in d && ' ' !in PrintEnd(a.end);
    SplitWhole(s, ' ');
  }

  /** The action that is read for a printed command in front of `lines`. */
  function ReadBack(a: EdAction, lines: seq<Line>): (b: EdAction) {
    a.(data := if a.kind.Delete? then [] else TakeUntil(DOT, lines))
  }

  predicate InLimits(a: EdAction)
    requires a.start.Number?
  {
    a.start.n <= 2147483647 && (a.end.Number? ==> a.start.n <= a.end.n <= 2147483647)
  }

  lemma RangePrinted(a: EdAction)
    requires a.start.Number?
    ensures MatchCommand(PrintCommand(a)).Some?
    ensures Range(MatchCommand(PrintCommand(a)).value) == if InLimits(a) then Ok((a.start, a.end)) else Err(ValueError)
  {
    MatchPrinted(a);
    ToIntDecimal(a.start.n);
    if a.end.Number? {
      ToIntDecimal(a.end.n);
      assert IsDigit(Decimal(a.end.n)[0]);
    }
  }

  lemma CheckPrinted(number: string -> Option<int>, doc: Doc, a: EdAction, lines: seq<Line>)
    requires a.start.Number?
    ensures CheckItems(number, doc, PrintCommand(a), lines) ==
      if InLimits(a) then Ok((Acted(doc, ReadBack(a, lines)), if a.kind.Delete? then lines else AfterUntil(DOT, lines)))
      else Err(ValueError)
  {
    CommandWord(a);
    MatchPrinted(a);
    RangePrinted(a);
  }

  /** Actions are only ever added. */
  lemma {:induction false} ActionsGrow(number: string -> Option<int>, doc: Doc, lines: seq<Line>)
    ensures var r := ReadFrom(number, doc, lines); r.Ok? ==> doc.actions <= r.value.actions
    decreases |lines|
  {
    if lines != [] {
      var r := CheckItems(number, doc, lines[0], lines[1..]);
      if r.Ok? {
        assert doc.actions <= r.value.0.actions;
        ActionsGrow(number, r.value.0, r.value.1);
      }
    }
  }

  function WithActions(doc: Doc, script: seq<EdAction>): (doc': Doc) {
    doc.(actions := doc.actions + script)
  }

  lemma ReadPrintedOne(number: string -> Option<int>, doc: Doc, a: EdAction, script: seq<EdAction>)
    requires a.start.Number? && Plain(script)
    ensures Printable(a) ==>
      ReadFrom(number, doc, PrintAll([a] + script)) == ReadFrom(number, Acted(doc, a), PrintAll(script))
    ensures !Printable(a) ==> ReadFrom(number, doc, PrintAll([a] + script)) != Ok(WithActions(doc, [a] + script))
  {
    var rest := PrintAll(script);
    var lines := if a.kind.Delete? then rest else a.data + [DOT] + rest;
    var all := PrintAll([a] + script);
    assert ([a] + script)[1..] == script;
    assert all[0] == PrintCommand(a) && all[1..] == lines;
    CheckPrinted(number, doc, a, lines);
    BlockRead(DOT, a.data, rest);
    if !Printable(a) && InLimits(a) {
      var b := ReadBack(a, lines);
      assert b.data != a.data;
      ActionsGrow(number, Acted(doc, b), if a.kind.Delete? then lines else AfterUntil(DOT, lines));
      assert Acted(doc, b).actions[|doc.actions|] == b;
      assert WithActions(doc, [a] + script).actions[|doc.actions|] == a;
    }
  }

  /** A script comes back action by action exactly when each is within the limits and free of lone dots. */
  lemma {:induction false} ScriptRoundTrip(number: string -> Option<int>, doc: Doc, script: seq<EdAction>)
    requires Plain(script)
    ensures ReadFrom(number, doc, PrintAll(script)) == Ok(WithActions(doc, script)) <==> AllPrintable(script)
    decreases |script|
  {
    if script == [] {
      assert doc.actions + [] == doc.actions;
    } else {
      var a, rest := script[0], script[1..];
      assert script == [a] + rest;
      ReadPrintedOne(number, doc, a, rest);
      if Printable(a) {
        ScriptRoundTrip(number, Acted(doc, a), rest);
        WithOneMore(doc, a, rest);
      }
    }
  }

  lemma WithOneMore(doc: Doc, a: EdAction, script: seq<EdAction>)
    ensures WithActions(Acted(doc, a), script) == WithActions(doc, [a] + script)
  {
    assert doc.actions + [a] + script == doc.actions + ([a] + script);
  }

  // ---- whole documents ----

  /** The header lines as HeaderLines has them, and then the commands. */
  function PrintDoc(d: Diff): (lines: seq<Line>)
    requires Plain(d.actions) && d.Named()
  {
    [VERSION + " " + "1", HASH + " " + (d.fromDigest.value + " " + d.toDigest.value)] + PrintAll(d.actions)
  }

  lemma FirstWord(kw: string, rest: string)
    requires ' ' !in kw
    ensures Word(kw + " " + rest) == kw && Arguments(kw + " " + rest) == rest
  {
    SplitFirst(kw, ' ', rest);
    assert (kw + " " + rest)[|kw| + 1..] == rest;
  }

  lemma TwoFields(a: string, b: string)
    requires ' ' !in a && ' ' !in b
    ensures Split(a + " " + b, ' ') == [a, b]
  {
    SplitFirst(a, ' ', b);
    SplitWhole(b, ' ');
    assert [a] + [b] == [a, b];
  }

  lemma HeadersRead(number: string -> Option<int>, d: Diff, lines: seq<Line>)
    requires number("1") == Some(1) && d.Named() && ' ' !in d.fromDigest.value && ' ' !in d.toDigest.value
    ensures CheckItems(number, FRESH, VERSION + " " + "1", lines) == Ok((FRESH.(checkStart := false, version := Some(1)), lines))
    ensures CheckItems(number, FRESH.(checkStart := false, version := Some(1)),
                       HASH + " " + (d.fromDigest.value + " " + d.toDigest.value), lines)
      == Ok((Doc(false, Some(1), d.fromDigest, d.toDigest, []), lines))
  {
    FirstWord(VERSION, "1");
    SplitWhole("1", ' ');
    FirstWord(HASH, d.fromDigest.value + " " + d.toDigest.value);
    TwoFields(d.fromDigest.value, d.toDigest.value);
    assert HASH[1] != VERSION[1] || |HASH| != |VERSION|;
  }

  /** The two header lines: the version starts the document, and the digests need it started. */
  lemma HeaderLines(number: string -> Option<int>, doc: Doc, v: string, a: string, b: string, lines: seq<Line>)
    requires ' ' !in v && ' ' !in a && ' ' !in b
    ensures VERSION + " " + "1" == "network-status-diff-version 1" && HASH + " " + (a + " " + b) == "hash " + (a + " " + b)
    ensures CheckItems(number, doc, "network-status-diff-version " + v, lines) ==
      if number(v).None? then Err(ValueError)
      else Ok((doc.(checkStart := false, version := Some(number(v).value)), lines))
    ensures CheckItems(number, doc, "hash " + (a + " " + b), lines) ==
      if doc.checkStart then Err(WrongStart) else Ok((doc.(fromDigest := Some(a), toDigest := Some(b)), lines))
  {
    FirstWord(VERSION, v);
    assert VERSION + " " + v == "network-status-diff-version " + v;
    SplitWhole(v, ' ');
    FirstWord(HASH, a + " " + b);
    assert HASH + " " + (a + " " + b) == "hash " + (a + " " + b);
    TwoFields(a, b);
    assert |HASH| != |VERSION|;
  }

  lemma DocRoundTrip(number: string -> Option<int>, d: Diff)
    requires number("1") == Some(1) && Plain(d.actions) && d.Named() && ' ' !in d.fromDigest.value && ' ' !in d.toDigest.value
    ensures ReadFrom(number, FRESH, PrintDoc(d)) ==
            Ok(Doc(false, Some(1), d.fromDigest, d.toDigest, d.actions))
      <==> AllPrintable(d.actions)
  {
    HeadersRead(number, d, PrintDoc(d)[1..]);
    HeadersRead(number, d, PrintAll(d.actions));
    var lines, rest := PrintDoc(d), PrintAll(d.actions);
    assert lines[1..] == [lines[1]] + rest && lines[1..][1..] == rest;
    var doc := Doc(false, Some(1), d.fromDigest, d.toDigest, []);
    ScriptRoundTrip(number, doc, d.actions);
    assert [] + d.actions == d.actions;
  }

  /** Reading a document string: one iterator, handed down to whatever item wants more lines. */
  method ReadDocument(raw: string, number: string -> Option<int>) returns (r: Reading<Doc>)
    ensures r == ReadFrom(number, FRESH, Lines(raw, 0))
  {
    var it := new TorDocumentReader(raw, None);
    var d := new DiffDocument(number);
    var read := d.Read(it);
    match read
    case Ok(_) => return Ok(d.doc);
    case Err(e) => return Err(e);
  }

  lemma {:induction false} PrintedClean(script: seq<EdAction>)
    requires Plain(script) && CleanData(script)
    ensures Clean(PrintAll(script))
  {
    if script != [] {
      var a := script[0];
      PrintedClean(script[1..]);
      assert '\n' !in Decimal(a.start.n) && '\n' !in PrintEnd(a.end);
    }
  }

  lemma PrintedDocClean(d: Diff)
    requires Plain(d.actions) && CleanData(d.actions) && d.Named() && '\n' !in d.fromDigest.value && '\n' !in d.toDigest.value
    ensures Clean(PrintDoc(d))
  {
    PrintedClean(d.actions);
  }

  /** A printed diff, read and applied, turns the base text into the target text exactly when its script hits the target. */
  lemma DiffDelivered(number: string -> Option<int>, lines: seq<Line>, d: Diff)
    requires number("1") == Some(1) && Clean(lines) && d.Named()
    requires ' ' !in d.fromDigest.value && ' ' !in d.toDigest.value && '\n' !in d.fromDigest.value && '\n' !in d.toDigest.value
    requires Limited(d.actions, |lines|) && AllPrintable(d.actions) && CleanData(d.actions)
    ensures var doc := ReadFrom(number, FRESH, Lines(Text(PrintDoc(d)), 0));
            && doc.Ok? && doc.value.fromDigest == d.fromDigest && doc.value.toDigest == d.toDigest
            && (Patched(Text(lines), doc.value.actions) == Text(Edited(lines, d.actions)) <==> HitsTarget(lines, d.actions))
  {
    PrintedDocClean(d);
    var text := Text(PrintDoc(d));
    assert text[0..] == text;
    LinesOfText(PrintDoc(d), text, 0);
    DocRoundTrip(number, d);
    PatchedIff(lines, d.actions);
  }
}
