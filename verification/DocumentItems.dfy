/** Documents with repeated objects: each object collects the items up to the next start line of its kind. */
module DocumentItems {
  import opened Sequences
  import opened TextLines
  import opened DocumentReader
  import opened DocumentFields

  /** The lines around a multi-line value. */
  datatype Block = Block(begin: Line, end: Line)

  /** What a keyword stands for: an item of the document, the start of an object, or an item of one. */
  datatype Rule =
    | Own(start: bool, block: Option<Block>)
    | Start(kind: nat)
    | Part(kind: nat, block: Option<Block>)

  /** An item for lines by their look: its name, and up to which line it takes those that follow, if any. */
  datatype Mask = Mask(name: string, matches: string -> bool, until: Line -> Option<Line>)

  /** `own` are the fields of the document, `kinds` those of its objects. */
  datatype Rules = Rules(byWord: map<string, Rule>, masks: seq<Mask>, own: Class, kinds: nat -> Class)
  {
    ghost predicate Proper() {
      Sound(own) && forall kind: nat :: Sound(kinds(kind))
    }
  }

  datatype Object = Object(first: Entry, parts: seq<Entry>)
  datatype Token = Alone(entry: Entry) | Masked(entry: Entry) | Begins(kind: nat, entry: Entry) | Belongs(kind: nat, entry: Entry)

  datatype Error = NoBeginLine | EndOfLines | WrongStart | BadValue
  type Reading<T> = Result<T, Error>

  /** A multi-line value: its begin line must be next; it runs to its end line or to the end of the document. */
  function Body(block: Option<Block>, lines: seq<Line>): (r: Reading<(seq<Line>, seq<Line>)>)
    ensures r.Ok? ==> |r.value.1| <= |lines|
  {
    match block
    case None => Ok(([], lines))
    case Some(b) =>
      if lines == [] then Err(EndOfLines)
      else if lines[0] != b.begin then Err(NoBeginLine)
      else Ok((TakeUntil(b.end, lines[1..]), AfterUntil(b.end, lines[1..])))
  }

  // ---- what the lines say, without any object being built ----

  /** What is known before a line: whether the document's start line is still due, and which kinds have begun. */
  datatype Known = Known(due: bool, begun: set<nat>)

  /** What an object's start line gives may be empty, and then begins nothing. */
  predicate Truthy(v: Value) {
    match v
    case Single(s) => s != []
    case Dict(m) => m != map[]
  }

  function FirstMask(masks: seq<Mask>, word: string): (m: Option<Mask>) {
    if masks == [] then None else if masks[0].matches(word) then Some(masks[0]) else FirstMask(masks[1..], word)
  }

  /** An entry counts when the parser of its class takes it, and raises otherwise. */
  function Taken(c: Class, t: Token): (r: Reading<Option<Token>>) {
    if c.parse(t.entry).None? then Err(BadValue) else Ok(Some(t))
  }

  function Parsed(c: Class, t: Token, lines: seq<Line>): (r: Reading<(Option<Token>, seq<Line>)>) {
    match Taken(c, t)
    case Ok(t) => Ok((t, lines))
    case Err(e) => Err(e)
  }

  /** A line that no keyword claims, or whose object begins with nothing. */
  function MaskToken(rules: Rules, line: Line, lines: seq<Line>): (r: Reading<(Option<Token>, seq<Line>)>)
    ensures r.Ok? ==> |r.value.1| <= |lines|
  {
    match FirstMask(rules.masks, Word(line))
    case None => Ok((None, lines))
    case Some(m) =>
      match m.until(line)
      case None => Parsed(rules.own, Masked(Entry(m.name, line, [])), lines)
      case Some(stop) => Parsed(rules.own, Masked(Entry(m.name, line, TakeUntil(stop, lines))), AfterUntil(stop, lines))
  }

  /** One line: its token if it has one, and the lines it leaves. */
  function Token1(rules: Rules, k: Known, line: Line, lines: seq<Line>): (r: Reading<(Option<Token>, seq<Line>)>)
    ensures r.Ok? ==> |r.value.1| <= |lines|
  {
    var word := Word(line);
    if word !in rules.byWord then MaskToken(rules, line, lines)
    else
      match rules.byWord[word]
      case Own(start, block) =>
        if k.due && !start then Err(WrongStart)
        else
          (match Body(block, lines)
           case Ok((body, rest)) => Parsed(rules.own, Alone(Entry(word, Arguments(line), body)), rest)
           case Err(e) => Err(e))
      case Start(kind) =>
        var t := Begins(kind, Entry(word, Arguments(line), []));
        (match rules.kinds(kind).parse(t.entry)
         case None => Err(BadValue)
         case Some(v) => if Truthy(v) then Ok((Some(t), lines)) else MaskToken(rules, line, lines))
      case Part(kind, block) =>
        if kind !in k.begun then Ok((None, lines))
        else
          match Body(block, lines)
          case Ok((body, rest)) => Parsed(rules.kinds(kind), Belongs(kind, Entry(word, Arguments(line), body)), rest)
          case Err(e) => Err(e)
  }

  function Learn(k: Known, t: Option<Token>): (k': Known) {
    match t
    case Some(Alone(_)) => k.(due := false)
    case Some(Begins(kind, _)) => k.(begun := k.begun + {kind})
    case _ => k
  }

  function One(t: Option<Token>): (ts: seq<Token>) {
    if t.None? then [] else [t.value]
  }

  function Tokens(rules: Rules, k: Known, lines: seq<Line>): (r: Reading<seq<Token>>)
    decreases |lines|
  {
    if lines == [] then Ok([])
    else
      match Token1(rules, k, lines[0], lines[1..])
      case Err(e) => Err(e)
      case Ok((t, rest)) => Before(One(t), Tokens(rules, Learn(k, t), rest))
  }

  function Before(ts: seq<Token>, r: Reading<seq<Token>>): (r': Reading<seq<Token>>) {
    if r.Ok? then Ok(ts + r.value) else r
  }

  // ---- which objects those tokens make ----

  /** The items of `kind` up to the next start of that kind. */
  function PartsOf(ts: seq<Token>, kind: nat): (parts: seq<Entry>) {
    if ts == [] || (ts[0].Begins? && ts[0].kind == kind) then []
    else (if ts[0].Belongs? && ts[0].kind == kind then [ts[0].entry] else []) + PartsOf(ts[1..], kind)
  }

  /** One object for each start of `kind`, in order, with the items that follow it. */
  function ObjectsOf(ts: seq<Token>, kind: nat): (objects: seq<Object>) {
    if ts == [] then []
    else
      (if ts[0].Begins? && ts[0].kind == kind then [Object(ts[0].entry, PartsOf(ts[1..], kind))] else [])
      + ObjectsOf(ts[1..], kind)
  }

  /** The document's own items, in order. */
  function OwnOf(ts: seq<Token>): (es: seq<Entry>) {
    if ts == [] then [] else (if ts[0].Alone? || ts[0].Masked? then [ts[0].entry] else []) + OwnOf(ts[1..])
  }

  /** Every start appends an object, an item goes to the last object of its kind. */
  function Added(objects: seq<Object>, t: Token, kind: nat): (objects': seq<Object>)
    requires t.Belongs? && t.kind == kind ==> objects != []
  {
    if t.Begins? && t.kind == kind then objects + [Object(t.entry, [])]
    else if t.Belongs? && t.kind == kind then
      var last := |objects| - 1;
      objects[last := objects[last].(parts := objects[last].parts + [t.entry])]
    else objects
  }

  // ---- the fields they are kept in ----

  function Filled(c: Class, o: Object): (fs: Fields) {
    Fold(c, [o.first] + o.parts)
  }

  function FilledAll(c: Class, objects: seq<Object>): (all: seq<Fields>) {
    seq(|objects|, i requires 0 <= i < |objects| => Filled(c, objects[i]))
  }

  function Lists(lists: map<nat, seq<Fields>>, kind: nat): (all: seq<Fields>) {
    if kind in lists then lists[kind] else []
  }

  /** The same step on the fields of the objects. */
  function Grown(c: Class, all: seq<Fields>, t: Token, kind: nat): (all': seq<Fields>)
    requires t.Belongs? && t.kind == kind ==> all != []
  {
    if t.Begins? && t.kind == kind then all + [UpdateBy(c, map[], t.entry)]
    else if t.Belongs? && t.kind == kind then
      var last := |all| - 1;
      all[last := UpdateBy(c, all[last], t.entry)]
    else all
  }

  lemma FilledFirst(c: Class, e: Entry)
    ensures Filled(c, Object(e, [])) == UpdateBy(c, map[], e)
  {
    FoldSnoc(c, [], e);
    assert [] + [e] == [e] && [e] + [] == [e];
  }

  lemma FilledMore(c: Class, o: Object, e: Entry)
    ensures Filled(c, o.(parts := o.parts + [e])) == UpdateBy(c, Filled(c, o), e)
  {
    FoldSnoc(c, [o.first] + o.parts, e);
    assert [o.first] + o.parts + [e] == [o.first] + (o.parts + [e]);
  }

  lemma FilledGrows(c: Class, objects: seq<Object>, t: Token, kind: nat)
    requires t.Belongs? && t.kind == kind ==> objects != []
    ensures Grown(c, FilledAll(c, objects), t, kind) == FilledAll(c, Added(objects, t, kind))
  {
    if t.Begins? && t.kind == kind {
      FilledFirst(c, t.entry);
    } else if t.Belongs? && t.kind == kind {
      FilledMore(c, objects[|objects| - 1], t.entry);
    }
  }

  class TorDocument {
    const rules: Rules
    var checkStart: bool
    var fields: Fields
    var lists: map<nat, seq<Fields>>

    constructor (rules: Rules)
      ensures this.rules == rules && checkStart && fields == map[] && lists == map[]
    {
      this.rules, checkStart, fields, lists := rules, true, map[], map[];
    }

    ghost predicate Valid()
      reads this
    {
      forall kind | kind in lists :: lists[kind] != []
    }

    ghost function Now(): (k: Known)
      reads this
    {
      Known(checkStart, lists.Keys)
    }

    /** What `t` makes of the document's fields and of every list. */
    ghost predicate Takes(before: Fields, earlier: map<nat, seq<Fields>>, t: Option<Token>)
      reads this
    {
      && fields == (if t.Some? && (t.value.Alone? || t.value.Masked?) then UpdateBy(rules.own, before, t.value.entry) else before)
      && forall kind: nat ::
           && (t.Some? && t.value.Belongs? && t.value.kind == kind ==> Lists(earlier, kind) != [])
           && Lists(lists, kind) ==
                if t.None? then Lists(earlier, kind)
                else Grown(rules.kinds(kind), Lists(earlier, kind), t.value, kind)
    }

    method ReadBody(block: Option<Block>, it: TorDocumentReader) returns (r: Reading<seq<Line>>)
      requires it.Valid()
      modifies it
      ensures it.Valid()
      ensures match Body(block, old(it.Ahead()))
              case Ok((body, rest)) => r == Ok(body) && it.Ahead() == rest
              case Err(e) => r == Err(e)
    {
      if block.None? {
        return Ok([]);
      }
      if it.Done() {
        return Err(EndOfLines);
      }
      ghost var ahead := it.Ahead();
      var line := it.Next();
      assert ahead[0] == line && ahead[1..] == it.Ahead();
      if line != block.value.begin {
        return Err(NoBeginLine);
      }
      var body := ReadUntil(it, block.value.end);
      return Ok(body);
    }

    method Add(t: Token)
      requires Valid() && (t.Belongs? ==> t.kind in lists)
      modifies this
      ensures Valid() && Now() == Learn(old(Now()), Some(t))
      ensures Takes(old(fields), old(lists), Some(t))
    {
      match t
      case Alone(e) =>
        checkStart := false;
        fields := UpdateBy(rules.own, fields, e);
      case Masked(e) =>
        fields := UpdateBy(rules.own, fields, e);
      case Begins(kind, e) =>
        lists := lists[kind := (if kind in lists then lists[kind] else []) + [UpdateBy(rules.kinds(kind), map[], e)]];
      case Belongs(kind, e) =>
        var all := lists[kind];
        var last := |all| - 1;
        lists := lists[kind := all[last := UpdateBy(rules.kinds(kind), all[last], e)]];
    }

    /** The masks are tried in order. */
    method TakeMasked(line: Line, it: TorDocumentReader) returns (r: Reading<Option<Token>>)
      requires it.Valid()
      modifies it
      ensures it.Valid()
      ensures match MaskToken(rules, line, old(it.Ahead()))
              case Ok((t, rest)) => r == Ok(t) && it.Ahead() == rest
              case Err(e) => r == Err(e)
    {
      var word := Word(line);
      var m := None;
      for i := 0 to |rules.masks|
        invariant m.None? && FirstMask(rules.masks, word) == FirstMask(rules.masks[i..], word)
        invariant it.Valid() && it.Ahead() == old(it.Ahead())
      {
        if rules.masks[i].matches(word) {
          m := Some(rules.masks[i]);
          break;
        }
      }
      if m.None? {
        return Ok(None);
      }
      var stop, body := m.value.until(line), [];
      if stop.Some? {
        body := ReadUntil(it, stop.value);
      }
      return Taken(rules.own, Masked(Entry(m.value.name, line, body)));
    }

    /** The item that a line begins, with the lines of its value. */
    method TakeToken(line: Line, it: TorDocumentReader) returns (r: Reading<Option<Token>>)
      requires it.Valid()
      modifies it
      ensures it.Valid()
      ensures match Token1(rules, Now(), line, old(it.Ahead()))
              case Ok((t, rest)) => r == Ok(t) && it.Ahead() == rest
              case Err(e) => r == Err(e)
    {
      var word, arguments := Word(line), Arguments(line);
      if word !in rules.byWord {
        r := TakeMasked(line, it);
        return;
      }
      var rule := rules.byWord[word];
      if rule.Start? {
        var t := Begins(rule.kind, Entry(word, arguments, []));
        var v := rules.kinds(rule.kind).parse(t.entry);
        if v.None? {
          return Err(BadValue);
        }
        if Truthy(v.value) {
          return Ok(Some(t));
        }
        r := TakeMasked(line, it);
        return;
      }
      if rule.Own? && checkStart && !rule.start {
        return Err(WrongStart);
      }
      if rule.Part? && rule.kind !in lists {
        return Ok(None);
      }
      var body := ReadBody(rule.block, it);
      if body.Err? {
        return Err(body.error);
      }
      var entry := Entry(word, arguments, body.value);
      return if rule.Own? then Taken(rules.own, Alone(entry)) else Taken(rules.kinds(rule.kind), Belongs(rule.kind, entry));
    }

    method CheckItems(line: Line, it: TorDocumentReader) returns (r: Reading<Option<Token>>)
      requires Valid() && it.Valid()
      modifies this, it
      ensures Valid() && it.Valid()
      ensures match Token1(rules, old(Now()), line, old(it.Ahead()))
              case Err(e) => r == Err(e)
              case Ok((t, rest)) => r == Ok(t) && it.Ahead() == rest && Now() == Learn(old(Now()), t)
      ensures r.Ok? ==> Takes(old(fields), old(lists), r.value)
    {
      r := TakeToken(line, it);
      if r.Ok? && r.value.Some? {
        Add(r.value.value);
      }
    }

    /** The fields and lists are those of the tokens so far. */
    ghost predicate Holds(ts: seq<Token>)
      reads this
    {
      && fields == Fold(rules.own, OwnOf(ts))
      && forall kind: nat :: Lists(lists, kind) == FilledAll(rules.kinds(kind), ObjectsOf(ts, kind))
    }

    lemma HoldsMore(ts: seq<Token>, t: Option<Token>, before: Fields, earlier: map<nat, seq<Fields>>)
      requires Takes(before, earlier, t) && before == Fold(rules.own, OwnOf(ts))
      requires forall kind: nat :: Lists(earlier, kind) == FilledAll(rules.kinds(kind), ObjectsOf(ts, kind))
      ensures Holds(ts + One(t))
    {
      match t
      case None => assert ts + [] == ts;
      case Some(t) =>
        OwnSnoc(ts, t);
        assert !(t.Alone? || t.Masked?) ==> OwnOf(ts) + [] == OwnOf(ts);
        FoldSnoc(rules.own, OwnOf(ts), t.entry);
        forall kind: nat
          ensures Lists(lists, kind) == FilledAll(rules.kinds(kind), ObjectsOf(ts + [t], kind))
        {
          assert Lists(earlier, kind) == FilledAll(rules.kinds(kind), ObjectsOf(ts, kind));
          ObjectsSnoc(ts, t, kind);
          FilledGrows(rules.kinds(kind), ObjectsOf(ts, kind), t, kind);
        }
    }

    /** Every field of the document and of its objects holds what its items say, lists in order, others the last. */
    lemma FieldsMean(ts: seq<Token>, kind: nat, i: nat, name: string)
      requires rules.Proper() && Holds(ts)
      ensures Lookup(fields, name) == Expected(rules.own, OwnOf(ts), name)
      ensures |Lists(lists, kind)| == |ObjectsOf(ts, kind)|
      ensures i < |ObjectsOf(ts, kind)| ==>
        var o := ObjectsOf(ts, kind)[i];
        Lookup(Lists(lists, kind)[i], name) == Expected(rules.kinds(kind), [o.first] + o.parts, name)
    {
      FoldMeans(rules.own, OwnOf(ts), name);
      assert Lists(lists, kind) == FilledAll(rules.kinds(kind), ObjectsOf(ts, kind));
      if i < |ObjectsOf(ts, kind)| {
        var o := ObjectsOf(ts, kind)[i];
        FoldMeans(rules.kinds(kind), [o.first] + o.parts, name);
      }
    }

    method Read(it: TorDocumentReader) returns (r: Reading<()>)
      requires Valid() && it.Valid() && fields == map[] && lists == map[]
      modifies this, it
      ensures match Tokens(rules, old(Now()), old(it.Ahead()))
              case Ok(ts) => r.Ok? && Holds(ts)
              case Err(e) => r == Err(e)
    {
      ghost var tokens: seq<Token> := [];
      ghost var known, all := Now(), it.Ahead();
      MoreTokens([], None, Tokens(rules, known, all));
      while !it.Done()
        invariant Valid() && it.Valid()
        invariant Tokens(rules, known, all) == Before(tokens, Tokens(rules, Now(), it.Ahead()))
        invariant Holds(tokens)
        decreases |it.Ahead()|
      {
        ghost var now, ahead, before, earlier := Now(), it.Ahead(), fields, lists;
        var line := it.Next();
        assert ahead[0] == line && ahead[1..] == it.Ahead();
        var t := CheckItems(line, it);
        if t.Err? {
          return Err(t.error);
        }
        MoreTokens(tokens, t.value, Tokens(rules, Now(), it.Ahead()));
        HoldsMore(tokens, t.value, before, earlier);
        tokens := tokens + One(t.value);
      }
      assert tokens + [] == tokens;
      return Ok(());
    }
  }

  lemma MoreTokens(ts: seq<Token>, t: Option<Token>, r: Reading<seq<Token>>)
    ensures Before(ts, Before(One(t), r)) == Before(ts + One(t), r) && Before([], r) == r
  {
    if r.Ok? {
      assert ts + (One(t) + r.value) == ts + One(t) + r.value && [] + r.value == r.value;
    }
  }

  lemma {:induction false} OwnSnoc(ts: seq<Token>, t: Token)
    ensures OwnOf(ts + [t]) == OwnOf(ts) + (if t.Alone? || t.Masked? then [t.entry] else [])
  {
    var last := if t.Alone? || t.Masked? then [t.entry] else [];
    if ts == [] {
      assert [] + [t] == [t] && [t][1..] == [];
      assert last + [] == last && [] + last == last;
    } else {
      assert (ts + [t])[1..] == ts[1..] + [t];
      OwnSnoc(ts[1..], t);
      Assoc(if ts[0].Alone? || ts[0].Masked? then [ts[0].entry] else [], OwnOf(ts[1..]), last);
    }
  }

  lemma {:induction false} PartsSnoc(ts: seq<Token>, t: Token, kind: nat)
    ensures PartsOf(ts + [t], kind) ==
      PartsOf(ts, kind) + (if t.Belongs? && t.kind == kind && ObjectsOf(ts, kind) == [] then [t.entry] else [])
  {
    if ts == [] {
      assert [] + [t] == [t] && [t][1..] == [];
    } else {
      assert (ts + [t])[1..] == ts[1..] + [t];
      PartsSnoc(ts[1..], t, kind);
    }
  }

  lemma AddedBehind(o: Object, objects: seq<Object>, t: Token, kind: nat)
    requires t.Belongs? && t.kind == kind ==> objects != []
    ensures Added([o] + objects, t, kind) == [o] + Added(objects, t, kind)
  {
  }

  /** An item after the only start of its kind. */
  lemma {:induction false} NoneAdded(ts: seq<Token>, t: Token, kind: nat)
    requires ObjectsOf(ts, kind) == [] && t.Belongs?
    ensures ObjectsOf(ts + [t], kind) == []
  {
    if ts == [] {
      assert [] + [t] == [t] && [t][1..] == [];
    } else {
      assert (ts + [t])[1..] == ts[1..] + [t];
      NoneAdded(ts[1..], t, kind);
    }
  }

  /** Looking ahead for an object's items, and giving each item to the last object, come to the same. */
  lemma {:induction false} ObjectsSnoc(ts: seq<Token>, t: Token, kind: nat)
    requires t.Belongs? && t.kind == kind ==> ObjectsOf(ts, kind) != []
    ensures ObjectsOf(ts + [t], kind) == Added(ObjectsOf(ts, kind), t, kind)
  {
    if ts == [] {
      assert [] + [t] == [t] && [t][1..] == [];
    } else {
      var later := ts[1..];
      assert (ts + [t])[1..] == later + [t];
      if ts[0].Begins? && ts[0].kind == kind {
        PartsSnoc(later, t, kind);
        if t.Belongs? && t.kind == kind && ObjectsOf(later, kind) == [] {
          NoneAdded(later, t, kind);
        } else {
          ObjectsSnoc(later, t, kind);
          AddedBehind(Object(ts[0].entry, PartsOf(later, kind)), ObjectsOf(later, kind), t, kind);
          assert PartsOf(later, kind) + [] == PartsOf(later, kind);
        }
      } else {
        ObjectsSnoc(later, t, kind);
      }
    }
  }

  // ---- what each kind of line gives ----

  function EntryOf(line: Line, body: seq<Line>): (e: Entry) {
    Entry(Word(line), Arguments(line), body)
  }

  /** The tokens of a line and of what follows it, unless the line's own parser raises. */
  ghost predicate Gives(rules: Rules, k: Known, lines: seq<Line>, c: Class, t: Token, k': Known, rest: seq<Line>) {
    Tokens(rules, k, lines) == if c.parse(t.entry).None? then Err(BadValue) else Before([t], Tokens(rules, k', rest))
  }

  lemma FirstLine(line: Line, tail: seq<Line>)
    ensures ([line] + tail)[0] == line && ([line] + tail)[1..] == tail
  {
  }

  /** The document's own item: while the start line is due, only that; any of them ends the waiting. */
  lemma OwnLine(rules: Rules, k: Known, line: Line, start: bool, tail: seq<Line>)
    requires Word(line) in rules.byWord && rules.byWord[Word(line)] == Own(start, None)
    ensures if k.due && !start then Tokens(rules, k, [line] + tail) == Err(WrongStart)
            else Gives(rules, k, [line] + tail, rules.own, Alone(EntryOf(line, [])), Known(false, k.begun), tail)
  {
    FirstLine(line, tail);
  }

  /** An object's start line begins an object with its own word and arguments. */
  lemma ObjectLine(rules: Rules, k: Known, line: Line, kind: nat, tail: seq<Line>)
    requires Word(line) in rules.byWord && rules.byWord[Word(line)] == Start(kind)
    requires var v := rules.kinds(kind).parse(EntryOf(line, [])); v != Some(Single([])) && v != Some(Dict(map[]))
    ensures Gives(rules, k, [line] + tail, rules.kinds(kind), Begins(kind, EntryOf(line, [])), Known(k.due, k.begun + {kind}), tail)
  {
    FirstLine(line, tail);
  }

  /** It is the first of its object, whatever follows. */
  lemma ObjectBegins(kind: nat, e: Entry, ts: seq<Token>)
    ensures ObjectsOf([Begins(kind, e)] + ts, kind) == [Object(e, PartsOf(ts, kind))] + ObjectsOf(ts, kind)
  {
    assert ([Begins(kind, e)] + ts)[1..] == ts;
  }

  /** An object's item goes to an object that has begun, and is passed over before. */
  lemma PartLine(rules: Rules, k: Known, line: Line, kind: nat, tail: seq<Line>)
    requires Word(line) in rules.byWord && rules.byWord[Word(line)] == Part(kind, None)
    ensures if kind in k.begun then
              Gives(rules, k, [line] + tail, rules.kinds(kind), Belongs(kind, EntryOf(line, [])), k, tail)
            else Tokens(rules, k, [line] + tail) == Tokens(rules, k, tail)
  {
    FirstLine(line, tail);
    if kind !in k.begun {
      MoreTokens([], None, Tokens(rules, k, tail));
    }
  }

  /** A line that is left to the masks: no keyword, or one that began nothing. */
  predicate LeftToMasks(rules: Rules, line: Line) {
    Word(line) in rules.byWord ==>
      && rules.byWord[Word(line)].Start?
      && rules.kinds(rules.byWord[Word(line)].kind).parse(EntryOf(line, [])) in {Some(Single([])), Some(Dict(map[]))}
  }

  lemma {:induction false} FirstMaskAt(masks: seq<Mask>, word: string, i: nat)
    requires i <= |masks| && (forall j | 0 <= j < i :: !masks[j].matches(word))
    requires i < |masks| ==> masks[i].matches(word)
    ensures FirstMask(masks, word) == if i < |masks| then Some(masks[i]) else None
  {
    if i > 0 {
      FirstMaskAt(masks[1..], word, i - 1);
    }
  }

  /** The first mask that matches gives an entry of the whole line, with the lines up to its stop line. */
  lemma MaskedLine(rules: Rules, k: Known, line: Line, i: nat, body: seq<Line>, tail: seq<Line>)
    requires LeftToMasks(rules, line) && i < |rules.masks| && rules.masks[i].matches(Word(line))
    requires forall j | 0 <= j < i :: !rules.masks[j].matches(Word(line))
    ensures var m := rules.masks[i];
            match m.until(line)
            case None => Gives(rules, k, [line] + tail, rules.own, Masked(Entry(m.name, line, [])), k, tail)
            case Some(stop) =>
              stop !in body ==>
                Gives(rules, k, [line] + (body + [stop] + tail), rules.own, Masked(Entry(m.name, line, body)), k, tail)
  {
    FirstMaskAt(rules.masks, Word(line), i);
    FirstLine(line, tail);
    var stop := rules.masks[i].until(line);
    if stop.Some? {
      FirstLine(line, body + [stop.value] + tail);
      BlockRead(stop.value, body, tail);
    }
  }

  /** Any other line is passed over. */
  lemma OtherLine(rules: Rules, k: Known, line: Line, tail: seq<Line>)
    requires LeftToMasks(rules, line) && forall i | 0 <= i < |rules.masks| :: !rules.masks[i].matches(Word(line))
    ensures Tokens(rules, k, [line] + tail) == Tokens(rules, k, tail)
  {
    FirstMaskAt(rules.masks, Word(line), |rules.masks|);
    FirstLine(line, tail);
    MoreTokens([], None, Tokens(rules, k, tail));
  }

  /**
   Whatever the lines of a block look like, they become the value of its item and are not read as
   items themselves, except behind an item of an object that has not begun: there they are read as
   if that item were not there.
  */
  lemma BlockLines(rules: Rules, k: Known, line: Line, b: Block, body: seq<Line>, tail: seq<Line>)
    requires Word(line) in rules.byWord && b.end !in body
    ensures var lines := [line] + ([b.begin] + (body + [b.end] + tail));
            match rules.byWord[Word(line)]
            case Own(start, Some(b')) =>
              b == b' ==>
                if k.due && !start then Tokens(rules, k, lines) == Err(WrongStart)
                else Gives(rules, k, lines, rules.own, Alone(EntryOf(line, body)), Known(false, k.begun), tail)
            case Part(kind, Some(b')) =>
              b == b' ==>
                if kind in k.begun then Gives(rules, k, lines, rules.kinds(kind), Belongs(kind, EntryOf(line, body)), k, tail)
                else Tokens(rules, k, lines) == Tokens(rules, k, lines[1..])
            case _ => true
  {
    var inner := [b.begin] + (body + [b.end] + tail);
    FirstLine(line, inner);
    FirstLine(b.begin, body + [b.end] + tail);
    BlockRead(b.end, body, tail);
    MoreTokens([], None, Tokens(rules, k, inner));
  }

  /** A block that does not begin ends the reading; one that does not end is all the rest. */
  lemma BlockAmiss(rules: Rules, k: Known, line: Line, start: bool, b: Block, lines: seq<Line>)
    requires Word(line) in rules.byWord && rules.byWord[Word(line)] == Own(start, Some(b)) && (k.due ==> start)
    ensures lines == [] ==> Tokens(rules, k, [line] + lines) == Err(EndOfLines)
    ensures lines != [] && lines[0] != b.begin ==> Tokens(rules, k, [line] + lines) == Err(NoBeginLine)
    ensures lines != [] && lines[0] == b.begin && b.end !in lines[1..] ==>
      Gives(rules, k, [line] + lines, rules.own, Alone(EntryOf(line, lines[1..])), Known(false, k.begun), [])
  {
    FirstLine(line, lines);
    if lines != [] && b.end !in lines[1..] {
      BlockUnended(b.end, lines[1..]);
    }
  }

  // ---- when a document is refused for its first item ----

  /** What a line that is not an own item leaves: the kinds begun and the lines; None where reading ends. */
  function Passed(rules: Rules, begun: set<nat>, line: Line, lines: seq<Line>): (r: Option<(set<nat>, seq<Line>)>)
    requires Word(line) in rules.byWord ==> !rules.byWord[Word(line)].Own?
    ensures r.Some? ==> |r.value.1| <= |lines|
  {
    if LeftToMasks(rules, line) then
      match FirstMask(rules.masks, Word(line))
      case None => Some((begun, lines))
      case Some(m) =>
        var stop := m.until(line);
        var body, rest := if stop.None? then [] else TakeUntil(stop.value, lines), if stop.None? then lines else AfterUntil(stop.value, lines);
        if rules.own.parse(Entry(m.name, line, body)).None? then None else Some((begun, rest))
    else
      match rules.byWord[Word(line)]
      case Start(kind) => if rules.kinds(kind).parse(EntryOf(line, [])).None? then None else Some((begun + {kind}, lines))
      case Part(kind, block) =>
        if kind !in begun then Some((begun, lines))
        else if block.None? then
          if rules.kinds(kind).parse(EntryOf(line, [])).None? then None else Some((begun, lines))
        else if lines == [] || lines[0] != block.value.begin then None
        else if rules.kinds(kind).parse(EntryOf(line, TakeUntil(block.value.end, lines[1..]))).None? then None
        else Some((begun, AfterUntil(block.value.end, lines[1..])))
  }

  /** The first of the document's own items that is come upon is not its start line. */
  predicate OpensWrongly(rules: Rules, begun: set<nat>, lines: seq<Line>)
    decreases |lines|
  {
    lines != [] &&
    var word := Word(lines[0]);
    if word in rules.byWord && rules.byWord[word].Own? then !rules.byWord[word].start
    else
      match Passed(rules, begun, lines[0], lines[1..])
      case None => false
      case Some((begun', rest)) => OpensWrongly(rules, begun', rest)
  }

  lemma PassedIsRead(rules: Rules, k: Known, line: Line, lines: seq<Line>)
    requires Word(line) in rules.byWord ==> !rules.byWord[Word(line)].Own?
    ensures match Token1(rules, k, line, lines)
            case Err(e) => Passed(rules, k.begun, line, lines).None? && e != WrongStart
            case Ok((t, rest)) => Passed(rules, k.begun, line, lines) == Some((Learn(k, t).begun, rest)) && Learn(k, t).due == k.due
  {
  }

  /** Once a start line has been read, no document is refused for where it starts. */
  lemma {:induction false} StartedOnce(rules: Rules, k: Known, lines: seq<Line>)
    requires !k.due
    ensures Tokens(rules, k, lines) != Err(WrongStart)
    decreases |lines|
  {
    if lines != [] {
      match Token1(rules, k, lines[0], lines[1..])
      case Err(_) =>
      case Ok((t, rest)) => StartedOnce(rules, Learn(k, t), rest);
    }
  }

  /** A document is refused so if and only if an own item comes before its start line. */
  lemma {:induction false} WrongStartIff(rules: Rules, k: Known, lines: seq<Line>)
    requires k.due
    ensures Tokens(rules, k, lines) == Err(WrongStart) <==> OpensWrongly(rules, k.begun, lines)
    decreases |lines|
  {
    if lines != [] {
      var word := Word(lines[0]);
      if word in rules.byWord && rules.byWord[word].Own? {
        OwnFirst(rules, k, lines);
      } else {
        PassedIsRead(rules, k, lines[0], lines[1..]);
        match Token1(rules, k, lines[0], lines[1..])
        case Err(_) =>
        case Ok((t, rest)) => WrongStartIff(rules, Learn(k, t), rest);
      }
    }
  }

  lemma OwnFirst(rules: Rules, k: Known, lines: seq<Line>)
    requires k.due && lines != []
    requires Word(lines[0]) in rules.byWord && rules.byWord[Word(lines[0])].Own?
    ensures Tokens(rules, k, lines) == Err(WrongStart) <==> !rules.byWord[Word(lines[0])].start
  {
    match Token1(rules, k, lines[0], lines[1..])
    case Err(_) =>
    case Ok((t, rest)) => StartedOnce(rules, Learn(k, t), rest);
  }

  // ---- turning the collected fields into objects of their own class ----

  datatype Slot = Loose(fields: Fields) | Built(fields: Fields)

  /**
   Runs once for each keyword of the kind, always over the whole list, and leaves off at the first
   object that is built already. Without a list, which is to say without any object, it fails.
  */
  method FixObjects(list: array?<Slot>, keywords: nat) returns (ok: bool, converted: nat)
    requires list != null ==> forall i | 0 <= i < list.Length :: list[i].Loose?
    modifies if list == null then {} else {list}
    ensures ok <==> keywords == 0 || list != null
    ensures ok && keywords > 0 ==> forall i | 0 <= i < list.Length :: list[i] == Built(old(list[i].fields))
    ensures ok ==> converted == if keywords == 0 then 0 else list.Length
  {
    converted := 0;
    for pass := 0 to keywords
      invariant pass > 0 ==> list != null
      invariant list != null ==> converted == if pass == 0 then 0 else list.Length
      invariant list == null ==> converted == 0
      invariant list != null ==> forall i | 0 <= i < list.Length ::
        list[i] == if pass == 0 then old(list[i]) else Built(old(list[i].fields))
    {
      if list == null {
        return false, 0;
      }
      for i := 0 to list.Length
        invariant converted == if pass == 0 then i else list.Length
        invariant forall j | 0 <= j < list.Length ::
          list[j] == if pass == 0 && j >= i then old(list[j]) else Built(old(list[j].fields))
      {
        if list[i].Built? {
          break;
        }
        list[i] := Built(list[i].fields);
        converted := converted + 1;
      }
    }
    return true, converted;
  }
}
