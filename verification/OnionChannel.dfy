/**
 One direction of a circuit as an asynchronous network: hops that write layers, hops that
 read them, and the cells on the links in between. Each link is first-in first-out, but
 links run at their own speeds, so cells of different hops overtake nothing and yet
 interleave freely.
*/
module OnionChannel {
  import opened Sequences
  import opened Bytes
  import opened RelayFormat
  import opened Layers

  /**
   A cell on the wire. Its layers `outer..edge` are still on; `edge` is the hop at the far end
   of the conversation and `plain` what that end wrote or will read.
  */
  datatype Flight = Flight(outer: nat, edge: nat, plain: bytes, wire: bytes)

  datatype Note = Note(edge: nat, plain: bytes)

  /** `writer[h]` and `reader[h]` are the two ends of layer `h`; `flights` is in link order. */
  datatype Channel = Channel(writer: seq<Layer>, reader: seq<Layer>, flights: seq<Flight>,
                             sent: seq<Note>, got: seq<Note>)

  // ---- what the cells in flight will do to their readers ----

  /** How many of the cells still carry layer `h`. */
  function Count(fs: seq<Flight>, h: nat): (n: nat) {
    if fs == [] then 0 else (if fs[0].outer <= h <= fs[0].edge then 1 else 0) + Count(fs[1..], h)
  }

  /** The plaintexts exchanged with hop `h`, in order. */
  function Of(ns: seq<Note>, h: nat): (ps: seq<bytes>) {
    if ns == [] then [] else (if ns[0].edge == h then [ns[0].plain] else []) + Of(ns[1..], h)
  }

  function Notes(fs: seq<Flight>): (ns: seq<Note>)
    ensures |ns| == |fs|
  {
    seq(|fs|, i requires 0 <= i < |fs| => Note(fs[i].edge, fs[i].plain))
  }

  /** What a list of recognised cells adds to a running digest. */
  function History(ps: seq<bytes>): (b: bytes) {
    if ps == [] then [] else Fed(ps[0]) + History(ps[1..])
  }

  function Fed(p: bytes): (b: bytes) {
    if |p| == CELL_LEN then Cleared(p) else []
  }

  lemma {:induction false} CountAppend(a: seq<Flight>, b: seq<Flight>, h: nat)
    ensures Count(a + b, h) == Count(a, h) + Count(b, h)
  {
    if a == [] {
      assert a + b == b;
    } else {
      CountAppend(a[1..], b, h);
      assert (a + b)[1..] == a[1..] + b;
    }
  }

  lemma {:induction false} OfAppend(a: seq<Note>, b: seq<Note>, h: nat)
    ensures Of(a + b, h) == Of(a, h) + Of(b, h)
  {
    if a == [] {
      assert a + b == b;
    } else {
      OfAppend(a[1..], b, h);
      var x := if a[0].edge == h then [a[0].plain] else [];
      assert (a + b)[1..] == a[1..] + b;
      Assoc(x, Of(a[1..], h), Of(b, h));
    }
  }

  lemma {:induction false} HistoryAppend(a: seq<bytes>, b: seq<bytes>)
    ensures History(a + b) == History(a) + History(b)
  {
    if a == [] {
      assert a + b == b;
    } else {
      HistoryAppend(a[1..], b);
      assert (a + b)[1..] == a[1..] + b;
      Assoc(Fed(a[0]), History(a[1..]), History(b));
    }
  }

  /** Layer `h` as it will be when the cells `fs` have been read. */
  function Ahead(l: Layer, fs: seq<Flight>, h: nat): (l': Layer) {
    Layer(l.key, l.pos + CELL_LEN * Count(fs, h), l.hist + History(Of(Notes(fs), h)))
  }

  function Consume(ls: seq<Layer>, fs: seq<Flight>): (ls': seq<Layer>)
    ensures |ls'| == |ls|
  {
    seq(|ls|, h requires 0 <= h < |ls| => Ahead(ls[h], fs, h))
  }

  lemma AheadAppend(l: Layer, a: seq<Flight>, b: seq<Flight>, h: nat)
    ensures Ahead(l, a + b, h) == Ahead(Ahead(l, a, h), b, h)
  {
    assert Notes(a + b) == Notes(a) + Notes(b);
    CountAppend(a, b, h);
    OfAppend(Notes(a), Notes(b), h);
    var x, y := Of(Notes(a), h), Of(Notes(b), h);
    HistoryAppend(x, y);
    Assoc(l.hist, History(x), History(y));
  }

  lemma ConsumeAppend(ls: seq<Layer>, a: seq<Flight>, b: seq<Flight>)
    ensures Consume(ls, a + b) == Consume(Consume(ls, a), b)
  {
    forall h | 0 <= h < |ls|
      ensures Consume(ls, a + b)[h] == Consume(Consume(ls, a), b)[h]
    {
      AheadAppend(ls[h], a, b, h);
    }
  }

  /** One cell at one layer: keystream if it carries the layer, digest if the hop is its far end. */
  lemma AheadOne(l: Layer, f: Flight, h: nat)
    requires |f.plain| == CELL_LEN
    ensures Ahead(l, [f], h) == Layer(l.key, l.pos + (if f.outer <= h <= f.edge then CELL_LEN else 0),
                                      l.hist + (if f.edge == h then Cleared(f.plain) else []))
  {
    var n := Note(f.edge, f.plain);
    assert Notes([f]) == [n] && [n][1..] == [] && [f][1..] == [];
    var ps := Of([n], h);
    assert Of([n][1..], h) == [] && Count([f][1..], h) == 0;
    assert ps == if f.edge == h then [f.plain] else [];
    if f.edge == h {
      assert ps[1..] == [] && History(ps) == Cleared(f.plain);
    }
  }

  /** Reading one whole cell: keystream at each of its layers, digest at its far end. */
  lemma ConsumeOne(ls: seq<Layer>, f: Flight)
    requires f.outer <= f.edge < |ls| && |f.plain| == CELL_LEN
    ensures Consume(ls, [f]) == Absorb(Spend(ls, f.outer, f.edge + 1, CELL_LEN), f.edge, f.plain)
  {
    forall h | 0 <= h < |ls|
      ensures Consume(ls, [f])[h] == Absorb(Spend(ls, f.outer, f.edge + 1, CELL_LEN), f.edge, f.plain)[h]
    {
      AheadOne(ls[h], f, h);
    }
  }

  // ---- the invariant ----

  /** A cell that, read by `ls`, peels to a plaintext which its far end recognises. */
  ghost predicate Sealed(prim: Primitives, ls: seq<Layer>, f: Flight) {
    && f.outer <= f.edge < |ls|
    && Recognises(prim, ls[f.edge], f.plain)
    && f.wire == Wrap(prim, ls, f.outer, f.edge, f.plain)
  }

  /** A cell is sealed for its readers no matter what happened at hops it does not touch. */
  lemma SealedFrame(prim: Primitives, ls: seq<Layer>, ls': seq<Layer>, f: Flight)
    requires Sealed(prim, ls, f) && |ls| <= |ls'|
    requires forall h | f.outer <= h <= f.edge :: ls[h] == ls'[h]
    ensures Sealed(prim, ls', f)
  {
    WrapFrame(prim, ls, ls', f.outer, f.edge, f.plain);
  }

  ghost predicate AllSealed(prim: Primitives, ls: seq<Layer>, fs: seq<Flight>) {
    forall i {:trigger Sealed(prim, Consume(ls, fs[..i]), fs[i])} | 0 <= i < |fs| ::
      Sealed(prim, Consume(ls, fs[..i]), fs[i])
  }

  /** `b` is sealed for readers that first read `a`. */
  ghost predicate SealedAfter(prim: Primitives, ls: seq<Layer>, a: seq<Flight>, b: seq<Flight>) {
    forall i {:trigger Sealed(prim, Consume(ls, a + b[..i]), b[i])} | 0 <= i < |b| ::
      Sealed(prim, Consume(ls, a + b[..i]), b[i])
  }

  lemma AllSealedSplit(prim: Primitives, ls: seq<Layer>, a: seq<Flight>, b: seq<Flight>)
    ensures AllSealed(prim, ls, a + b) <==> AllSealed(prim, ls, a) && SealedAfter(prim, ls, a, b)
  {
    var fs := a + b;
    assert forall i | 0 <= i < |a| :: fs[..i] == a[..i] && fs[i] == a[i];
    assert forall i | 0 <= i < |b| :: fs[..|a| + i] == a + b[..i] && fs[|a| + i] == b[i];
    if AllSealed(prim, ls, fs) {
      forall i | 0 <= i < |b|
        ensures Sealed(prim, Consume(ls, a + b[..i]), b[i])
      {
        var j := |a| + i;
        assert Sealed(prim, Consume(ls, fs[..j]), fs[j]);
      }
      forall i | 0 <= i < |a|
        ensures Sealed(prim, Consume(ls, a[..i]), a[i])
      {
        assert Sealed(prim, Consume(ls, fs[..i]), fs[i]);
      }
    }
    if AllSealed(prim, ls, a) && SealedAfter(prim, ls, a, b) {
      forall i | 0 <= i < |fs|
        ensures Sealed(prim, Consume(ls, fs[..i]), fs[i])
      {
        if i >= |a| {
          assert fs[..|a| + (i - |a|)] == a + b[..i - |a|] && fs[|a| + (i - |a|)] == b[i - |a|];
        }
      }
    }
  }

  ghost predicate Avoid(fs: seq<Flight>, h: nat) {
    forall i | 0 <= i < |fs| :: (h < fs[i].outer || fs[i].edge < h) && fs[i].edge != h
  }

  lemma {:induction false} AvoidCounts(fs: seq<Flight>, h: nat)
    requires Avoid(fs, h)
    ensures Count(fs, h) == 0 && Of(Notes(fs), h) == []
  {
    if fs != [] {
      AvoidCounts(fs[1..], h);
      assert Notes(fs)[1..] == Notes(fs[1..]);
    }
  }

  /** Layers that none of the cells carry or end at are left alone. */
  lemma Untouched(l: Layer, fs: seq<Flight>, h: nat)
    requires Avoid(fs, h)
    ensures Ahead(l, fs, h) == l
  {
    AvoidCounts(fs, h);
    assert l.hist + [] == l.hist;
  }

  /**
   Cells that only use layers from `t` on stay sealed, and change those layers alike, when what
   is read before them is replaced by something that agrees from `t` on.
  */
  lemma TailFrame(prim: Primitives, t: nat, ls: seq<Layer>, x: seq<Flight>, ls': seq<Layer>, x': seq<Flight>, b: seq<Flight>)
    requires |ls| == |ls'| && SealedAfter(prim, ls, x, b)
    requires forall h | t <= h < |ls| :: Ahead(ls[h], x, h) == Ahead(ls'[h], x', h)
    requires forall i | 0 <= i < |b| :: t <= b[i].outer
    ensures SealedAfter(prim, ls', x', b)
    ensures forall h | t <= h < |ls| :: Consume(ls, x + b)[h] == Consume(ls', x' + b)[h]
  {
    forall i, h | 0 <= i <= |b| && t <= h < |ls|
      ensures Ahead(ls[h], x + b[..i], h) == Ahead(ls'[h], x' + b[..i], h)
    {
      AheadAppend(ls[h], x, b[..i], h);
      AheadAppend(ls'[h], x', b[..i], h);
    }
    forall i | 0 <= i < |b|
      ensures Sealed(prim, Consume(ls', x' + b[..i]), b[i])
    {
      SealedFrame(prim, Consume(ls, x + b[..i]), Consume(ls', x' + b[..i]), b[i]);
    }
    assert b[..|b|] == b;
  }

  /**
   Writers are ahead of readers by exactly the cells in flight, and every cell is sealed for the
   state its readers will have when it arrives.
  */
  ghost predicate Aligned(prim: Primitives, w: seq<Layer>, r: seq<Layer>, fs: seq<Flight>) {
    w == Consume(r, fs) && AllSealed(prim, r, fs)
  }

  /** Nothing is lost, duplicated or reordered between the two ends of any hop's conversation. */
  ghost predicate Conserved(sent: seq<Note>, got: seq<Note>, flying: seq<Note>) {
    forall h: nat :: Of(sent, h) == Of(got, h) + Of(flying, h)
  }

  ghost predicate InStep(prim: Primitives, c: Channel) {
    Aligned(prim, c.writer, c.reader, c.flights) && Conserved(c.sent, c.got, Notes(c.flights))
  }
}
