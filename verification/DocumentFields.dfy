/**
 The fields that a document, or an object in it, gets from its items: lists grow, all other fields
 are replaced by what comes later.
*/
module DocumentFields {
  import opened Sequences
  import opened TextLines

  datatype Item = Item(outName: string, asList: bool)

  /** An item as it stands in the text. */
  datatype Entry = Entry(word: string, arguments: string, body: seq<Line>)

  /** What an item's parser returns: one value, or several under their own names. */
  datatype Value = Single(value: string) | Dict(entries: map<string, string>)

  datatype Field = Leaf(value: string) | Listed(values: seq<Value>)
  type Fields = map<string, Field>

  /** One class of documents or objects: its items by keyword, and their parsers, which may raise. */
  datatype Class = Class(items: map<string, Item>, parse: Entry -> Option<Value>)

  /** The item that an entry is for, and the value it gives. */
  function Effect(c: Class, e: Entry): (r: Option<(Item, Value)>) {
    if e.word in c.items && c.parse(e).Some? then Some((c.items[e.word], c.parse(e).value)) else None
  }

  function Written(item: Item, v: Value): (m: map<string, string>) {
    match v
    case Single(s) => map[item.outName := s]
    case Dict(m) => m
  }

  function ListOf(fs: Fields, name: string): (vs: seq<Value>) {
    if name in fs && fs[name].Listed? then fs[name].values else []
  }

  /** A list item is appended to its list; any other is written over what is there. */
  function Update(fs: Fields, item: Item, v: Value): (fs': Fields) {
    if item.asList then fs[item.outName := Listed(ListOf(fs, item.outName) + [v])]
    else fs + map k | k in Written(item, v) :: Leaf(Written(item, v)[k])
  }

  function UpdateBy(c: Class, fs: Fields, e: Entry): (fs': Fields) {
    match Effect(c, e)
    case None => fs
    case Some((item, v)) => Update(fs, item, v)
  }

  /** All entries of one document or object, in order. */
  function Fold(c: Class, es: seq<Entry>): (fs: Fields) {
    if es == [] then map[] else UpdateBy(c, Fold(c, es[..|es| - 1]), es[|es| - 1])
  }

  lemma FoldSnoc(c: Class, es: seq<Entry>, e: Entry)
    ensures Fold(c, es + [e]) == UpdateBy(c, Fold(c, es), e)
  {
    assert (es + [e])[..|es|] == es;
  }

  /** What one more entry does to each field. */
  lemma NextField(c: Class, es: seq<Entry>, e: Entry, item: Item, v: Value, name: string)
    requires e.word in c.items && c.items[e.word] == item && c.parse(e) == Some(v)
    ensures var before, after := Lookup(Fold(c, es), name), Lookup(Fold(c, es + [e]), name);
            if item.asList then
              if name != item.outName then after == before
              else
                match before
                case Some(Listed(vs)) => after == Some(Listed(vs + [v]))
                case _ => after == Some(Listed([v]))
            else
              match v
              case Single(s) => after == if name == item.outName then Some(Leaf(s)) else before
              case Dict(m) => after == if name in m then Some(Leaf(m[name])) else before
  {
    FoldSnoc(c, es, e);
    assert [] + [v] == [v];
  }

  // ---- what that leaves in each field ----

  /** The names that lists go by. */
  function ListNames(c: Class): (names: set<string>) {
    set w | w in c.items && c.items[w].asList :: c.items[w].outName
  }

  /** What an entry writes as plain values. */
  function Writes(c: Class, e: Entry): (m: map<string, string>) {
    match Effect(c, e)
    case Some((item, v)) => if item.asList then map[] else Written(item, v)
    case None => map[]
  }

  /** What it appends to the list of a name. */
  function Appends(c: Class, e: Entry, name: string): (vs: seq<Value>) {
    match Effect(c, e)
    case Some((item, v)) => if item.asList && item.outName == name then [v] else []
    case None => []
  }

  /** No item writes a plain value under a list's name: appending to that would raise. */
  ghost predicate Sound(c: Class) {
    forall e: Entry :: Writes(c, e).Keys !! ListNames(c)
  }

  /** The values appended to a list, in order. */
  function Appended(c: Class, es: seq<Entry>, name: string): (vs: seq<Value>) {
    if es == [] then [] else Appended(c, es[..|es| - 1], name) + Appends(c, es[|es| - 1], name)
  }

  /** The value that was written last. */
  function LastWritten(c: Class, es: seq<Entry>, name: string): (v: Option<string>) {
    if es == [] then None
    else
      var m := Writes(c, es[|es| - 1]);
      if name in m then Some(m[name]) else LastWritten(c, es[..|es| - 1], name)
  }

  /** A list holds every value that came for it, in order; any other field what came for it last. */
  function Expected(c: Class, es: seq<Entry>, name: string): (f: Option<Field>) {
    if name in ListNames(c) then
      (if Appended(c, es, name) == [] then None else Some(Listed(Appended(c, es, name))))
    else
      match LastWritten(c, es, name)
      case None => None
      case Some(s) => Some(Leaf(s))
  }

  function Lookup(fs: Fields, name: string): (f: Option<Field>) {
    if name in fs then Some(fs[name]) else None
  }

  /** One entry more, in terms of what the entries before it left. */
  lemma ExpectedSnoc(c: Class, front: seq<Entry>, e: Entry, name: string)
    ensures Appended(c, front + [e], name) == Appended(c, front, name) + Appends(c, e, name)
    ensures LastWritten(c, front + [e], name) ==
            if name in Writes(c, e) then Some(Writes(c, e)[name]) else LastWritten(c, front, name)
  {
    assert (front + [e])[..|front|] == front && (front + [e])[|front|] == e;
  }

  lemma SameMeans(c: Class, front: seq<Entry>, e: Entry, name: string)
    requires Effect(c, e).None?
    requires Lookup(Fold(c, front), name) == Expected(c, front, name)
    ensures Lookup(UpdateBy(c, Fold(c, front), e), name) == Expected(c, front + [e], name)
  {
    ExpectedSnoc(c, front, e, name);
    assert Appended(c, front, name) + [] == Appended(c, front, name);
  }

  lemma AppendMeans(c: Class, front: seq<Entry>, e: Entry, name: string)
    requires Effect(c, e).Some? && Effect(c, e).value.0.asList
    requires Lookup(Fold(c, front), name) == Expected(c, front, name)
    ensures Lookup(UpdateBy(c, Fold(c, front), e), name) == Expected(c, front + [e], name)
  {
    var (item, v) := Effect(c, e).value;
    var fs := Fold(c, front);
    ExpectedSnoc(c, front, e, name);
    assert item.outName in ListNames(c);
    assert Appended(c, front, name) + [] == Appended(c, front, name);
    if item.outName == name {
      assert ListOf(fs, name) == Appended(c, front, name);
      assert Appended(c, front + [e], name) != [];
    }
  }

  lemma WriteMeans(c: Class, front: seq<Entry>, e: Entry, name: string)
    requires Sound(c) && Effect(c, e).Some? && !Effect(c, e).value.0.asList
    requires Lookup(Fold(c, front), name) == Expected(c, front, name)
    ensures Lookup(UpdateBy(c, Fold(c, front), e), name) == Expected(c, front + [e], name)
  {
    ExpectedSnoc(c, front, e, name);
    assert Appended(c, front, name) + [] == Appended(c, front, name);
    assert Writes(c, e).Keys !! ListNames(c);
    if name in Writes(c, e) {
      assert name in Writes(c, e).Keys;
    }
  }

  lemma {:induction false} FoldMeans(c: Class, es: seq<Entry>, name: string)
    requires Sound(c)
    ensures Lookup(Fold(c, es), name) == Expected(c, es, name)
  {
    if es != [] {
      var front, e := es[..|es| - 1], es[|es| - 1];
      assert es == front + [e];
      FoldMeans(c, front, name);
      match Effect(c, e)
      case None => SameMeans(c, front, e, name);
      case Some((item, _)) =>
        if item.asList {
          AppendMeans(c, front, e, name);
        } else {
          WriteMeans(c, front, e, name);
        }
    }
  }

  /** Appending never meets a plain value. */
  lemma {:induction false} AppendsToLists(c: Class, es: seq<Entry>, name: string)
    requires Sound(c) && name in ListNames(c) && name in Fold(c, es)
    ensures Fold(c, es)[name].Listed?
  {
    FoldMeans(c, es, name);
  }
}
