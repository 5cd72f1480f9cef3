/** What the client and the relays do to one direction of a circuit, and why each step keeps the two ends in step. */
module OnionSteps {
  import opened Bytes
  import opened RelayFormat
  import opened Layers
  import opened OnionChannel

  /** Anything a relay or the client may put in a cell. */
  datatype Message = Message(num: byte, streamId: nat, payload: bytes) {
    predicate Fits() {
      streamId < 0x1_0000 && |payload| <= MAX_PAYLOAD
    }
  }

  /** Where the queue of cells that have come as far as `hop` ends. */
  function LinkEnd(fs: seq<Flight>, hop: nat): (at: nat)
    ensures at <= |fs|
    ensures forall i | 0 <= i < at :: fs[i].outer <= hop
    ensures at < |fs| ==> fs[at].outer > hop
  {
    if fs == [] || fs[0].outer > hop then 0 else 1 + LinkEnd(fs[1..], hop)
  }

  /** The oldest cell whose outermost layer is `hop`'s; |fs| when that link is empty. */
  function LinkHead(fs: seq<Flight>, hop: nat): (at: nat)
    ensures at <= |fs|
    ensures forall i | 0 <= i < at :: fs[i].outer != hop
    ensures at < |fs| ==> fs[at].outer == hop
  {
    if fs == [] || fs[0].outer == hop then 0 else 1 + LinkHead(fs[1..], hop)
  }

  // ---- writing a new cell ----

  /** The holder of the writing ends `w` of `outer..edge` stamps a cell for `edge` and puts those layers on. */
  function Written(prim: Primitives, w: seq<Layer>, outer: nat, edge: nat, m: Message): (f: Flight)
    requires outer <= edge < |w| && m.Fits()
    ensures f.outer == outer && f.edge == edge && |f.plain| == CELL_LEN
  {
    var plain := Stamp(prim, w[edge], m.num, m.streamId, m.payload);
    Flight(outer, edge, plain, Wrap(prim, w, outer, edge, plain))
  }

  function Write(prim: Primitives, c: Channel, at: nat, outer: nat, edge: nat, m: Message): (c': Channel)
    requires at <= |c.flights| && outer <= edge < |c.writer| && m.Fits()
  {
    var f := Written(prim, c.writer, outer, edge, m);
    Channel(Absorb(Spend(c.writer, outer, edge + 1, CELL_LEN), edge, f.plain), c.reader,
            c.flights[..at] + [f] + c.flights[at..], c.sent + Notes([f]), c.got)
  }

  /** Below the layers that `b` uses, the writers are where the readers will be after `x`. */
  lemma WriterBefore(prim: Primitives, w: seq<Layer>, r: seq<Layer>, x: seq<Flight>, b: seq<Flight>, h: nat)
    requires Aligned(prim, w, r, x + b) && h < |r|
    requires forall i | 0 <= i < |b| :: h < b[i].outer
    ensures w[h] == Ahead(r[h], x, h)
  {
    AllSealedSplit(prim, r, x, b);
    forall i | 0 <= i < |b|
      ensures b[i].outer <= b[i].edge
    {
      assert Sealed(prim, Consume(r, x + b[..i]), b[i]);
    }
    AheadAppend(r[h], x, b, h);
    Untouched(Ahead(r[h], x, h), b, h);
  }

  /** The common core of all steps: `x` becomes `x'` in front of cells that only use layers from `t` on. */
  lemma Replace(prim: Primitives, t: nat, w: seq<Layer>, w': seq<Layer>, r: seq<Layer>, r': seq<Layer>,
                x: seq<Flight>, x': seq<Flight>, b: seq<Flight>)
    requires Aligned(prim, w, r, x + b) && |w'| == |w| && |r'| == |r|
    requires forall i | 0 <= i < |b| :: t <= b[i].outer
    requires AllSealed(prim, r', x')
    requires forall h | t <= h < |r| :: Ahead(r[h], x, h) == Ahead(r'[h], x', h) && w'[h] == w[h]
    requires forall h | 0 <= h < t && h < |r| :: w'[h] == Ahead(r'[h], x', h)
    ensures Aligned(prim, w', r', x' + b)
  {
    AllSealedSplit(prim, r, x, b);
    TailFrame(prim, t, r, x, r', x', b);
    AllSealedSplit(prim, r', x', b);
    forall h | 0 <= h < |r|
      ensures w'[h] == Ahead(r'[h], x' + b, h)
    {
      if t <= h {
        assert Consume(r, x + b)[h] == Consume(r', x' + b)[h];
      } else {
        forall i | 0 <= i < |b|
          ensures b[i].outer <= b[i].edge
        {
          assert Sealed(prim, Consume(r, x + b[..i]), b[i]);
        }
        AheadAppend(r'[h], x', b, h);
        Untouched(Ahead(r'[h], x', h), b, h);
      }
    }
  }

  /** One more cell behind `a`. */
  lemma SealedSnoc(prim: Primitives, r: seq<Layer>, a: seq<Flight>, f: Flight)
    ensures AllSealed(prim, r, a + [f]) <==> AllSealed(prim, r, a) && Sealed(prim, Consume(r, a), f)
  {
    AllSealedSplit(prim, r, a, [f]);
    assert a + [f][..0] == a;
    if SealedAfter(prim, r, a, [f]) {
      assert Sealed(prim, Consume(r, a + [f][..0]), [f][0]);
    }
  }

  lemma AheadSnoc(l: Layer, a: seq<Flight>, f: Flight, h: nat)
    requires |f.plain| == CELL_LEN
    ensures var l' := Ahead(l, a, h);
            Ahead(l, a + [f], h) == Layer(l'.key, l'.pos + (if f.outer <= h <= f.edge then CELL_LEN else 0),
                                          l'.hist + (if f.edge == h then Cleared(f.plain) else []))
  {
    AheadAppend(l, a, [f], h);
    AheadOne(Ahead(l, a, h), f, h);
  }

  /** A stamped and wrapped cell is sealed for readers in the writers' state. */
  lemma WrittenSealed(prim: Primitives, w: seq<Layer>, r: seq<Layer>, f: Flight, m: Message)
    requires m.Fits() && f.outer <= f.edge < |w| == |r|
    requires f.plain == Stamp(prim, w[f.edge], m.num, m.streamId, m.payload)
    requires f.wire == Wrap(prim, w, f.outer, f.edge, f.plain)
    requires forall h | 0 <= h <= f.edge :: w[h] == r[h]
    ensures Sealed(prim, r, f)
  {
    StampRecognised(prim, w[f.edge], m.num, m.streamId, m.payload);
    SealedFrame(prim, w, r, f);
  }

  lemma WriteAligned(prim: Primitives, w: seq<Layer>, r: seq<Layer>, a: seq<Flight>, f: Flight, b: seq<Flight>, m: Message)
    requires Aligned(prim, w, r, a + b)
    requires m.Fits() && f.outer <= f.edge < |w|
    requires f.plain == Stamp(prim, w[f.edge], m.num, m.streamId, m.payload)
    requires f.wire == Wrap(prim, w, f.outer, f.edge, f.plain)
    requires forall i | 0 <= i < |b| :: f.edge < b[i].outer
    ensures Aligned(prim, Absorb(Spend(w, f.outer, f.edge + 1, CELL_LEN), f.edge, f.plain), r, a + [f] + b)
  {
    var w' := Absorb(Spend(w, f.outer, f.edge + 1, CELL_LEN), f.edge, f.plain);
    AllSealedSplit(prim, r, a, b);
    forall h | 0 <= h < |r|
      ensures h <= f.edge ==> w[h] == Ahead(r[h], a, h)
      ensures h <= f.edge ==> w'[h] == Ahead(r[h], a + [f], h)
      ensures h > f.edge ==> Ahead(r[h], a, h) == Ahead(r[h], a + [f], h) && w'[h] == w[h]
    {
      if h <= f.edge {
        WriterBefore(prim, w, r, a, b, h);
      }
      AfterWrite(w, r[h], a, f, h);
    }
    WrittenSealed(prim, w, Consume(r, a), f, m);
    SealedSnoc(prim, r, a, f);
    Replace(prim, f.edge + 1, w, w', r, r, a, a + [f], b);
  }

  lemma AfterWrite(w: seq<Layer>, l: Layer, a: seq<Flight>, f: Flight, h: nat)
    requires h < |w| && f.outer <= f.edge < |w| && |f.plain| == CELL_LEN
    requires h <= f.edge ==> w[h] == Ahead(l, a, h)
    ensures var w' := Absorb(Spend(w, f.outer, f.edge + 1, CELL_LEN), f.edge, f.plain);
            if h <= f.edge then w'[h] == Ahead(l, a + [f], h)
            else w'[h] == w[h] && Ahead(l, a, h) == Ahead(l, a + [f], h)
  {
    AheadSnoc(l, a, f, h);
    assert Ahead(l, a, h).hist + [] == Ahead(l, a, h).hist;
  }

  lemma WriteKeeps(prim: Primitives, c: Channel, at: nat, outer: nat, edge: nat, m: Message)
    requires InStep(prim, c) && at <= |c.flights| && outer <= edge < |c.writer| && m.Fits()
    requires forall i | at <= i < |c.flights| :: c.flights[i].outer > edge
    ensures InStep(prim, Write(prim, c, at, outer, edge, m))
  {
    var a, f, b := c.flights[..at], Written(prim, c.writer, outer, edge, m), c.flights[at..];
    assert c.flights == a + b;
    WriteAligned(prim, c.writer, c.reader, a, f, b, m);
    WriteConserves(prim, c, a, f, b);
  }

  lemma WriteConserves(prim: Primitives, c: Channel, a: seq<Flight>, f: Flight, b: seq<Flight>)
    requires InStep(prim, c) && c.flights == a + b
    requires forall i | 0 <= i < |b| :: f.edge < b[i].outer
    ensures Conserved(c.sent + Notes([f]), c.got, Notes(a + [f] + b))
  {
    SealedRange(prim, c.reader, c.flights);
    forall i | 0 <= i < |b|
      ensures b[i].outer <= b[i].edge
    {
      assert b[i] == c.flights[|a| + i];
    }
    AvoidCounts(b, f.edge);
    forall h: nat
      ensures Of(c.sent + Notes([f]), h) == Of(c.got, h) + Of(Notes(a + [f] + b), h)
    {
      WriteConservesAt(c.sent, c.got, a, f, b, h);
    }
  }

  lemma SealedRange(prim: Primitives, ls: seq<Layer>, fs: seq<Flight>)
    requires AllSealed(prim, ls, fs)
    ensures forall i | 0 <= i < |fs| ::
      fs[i].outer <= fs[i].edge < |ls| && |fs[i].plain| == |fs[i].wire| == CELL_LEN
  {
    forall i | 0 <= i < |fs|
      ensures fs[i].outer <= fs[i].edge < |ls| && |fs[i].plain| == |fs[i].wire| == CELL_LEN
    {
      assert Sealed(prim, Consume(ls, fs[..i]), fs[i]);
    }
  }

  lemma NotesAppend(a: seq<Flight>, b: seq<Flight>)
    ensures Notes(a + b) == Notes(a) + Notes(b)
  {
  }

  lemma OfOne(f: Flight, h: nat)
    ensures Of(Notes([f]), h) == if f.edge == h then [f.plain] else []
  {
    assert Of(Notes([f])[1..], h) == [];
  }

  lemma WriteConservesAt(sent: seq<Note>, got: seq<Note>, a: seq<Flight>, f: Flight, b: seq<Flight>, h: nat)
    requires Of(sent, h) == Of(got, h) + Of(Notes(a + b), h)
    requires Of(Notes(b), f.edge) == []
    ensures Of(sent + Notes([f]), h) == Of(got, h) + Of(Notes(a + [f] + b), h)
  {
    NotesAppend(a, b);
    NotesAppend(a, [f]);
    NotesAppend(a + [f], b);
    OfAppend(sent, Notes([f]), h);
    OfAppend(Notes(a), Notes(b), h);
    OfAppend(Notes(a), Notes([f]), h);
    OfAppend(Notes(a + [f]), Notes(b), h);
    OfOne(f, h);
    var g, x, y, z := Of(got, h), Of(Notes(a), h), Of(Notes([f]), h), Of(Notes(b), h);
    Slip(g, x, y, z);
  }

  lemma Slip<T>(g: seq<T>, x: seq<T>, y: seq<T>, z: seq<T>)
    requires y == [] || z == []
    ensures g + (x + z) + y == g + (x + y + z)
  {
  }

  // ---- adding one more layer on the way (relays, towards the client) ----

  function Covered(prim: Primitives, w: seq<Layer>, f: Flight): (f': Flight)
    requires 0 < f.outer <= |w|
  {
    var h := f.outer - 1;
    f.(outer := h, wire := Crypt(prim, w[h].key, w[h].pos, f.wire))
  }

  function Cover(prim: Primitives, c: Channel, at: nat): (c': Channel)
    requires at < |c.flights| && 0 < c.flights[at].outer <= |c.writer|
  {
    var f := c.flights[at];
    Channel(Spend(c.writer, f.outer - 1, f.outer, |f.wire|), c.reader,
            c.flights[..at] + [Covered(prim, c.writer, f)] + c.flights[at + 1..], c.sent, c.got)
  }

  lemma NotesReplace(a: seq<Flight>, f: Flight, f': Flight, b: seq<Flight>)
    requires f.edge == f'.edge && f.plain == f'.plain
    ensures Notes(a + [f] + b) == Notes(a + [f'] + b)
  {
    NotesAppend(a + [f], b);
    NotesAppend(a, [f]);
    NotesAppend(a + [f'], b);
    NotesAppend(a, [f']);
    assert Notes([f]) == Notes([f']);
  }

  lemma CoverSealed(prim: Primitives, l: Layer, ls: seq<Layer>, f: Flight, f': Flight)
    requires Sealed(prim, ls, f) && 0 < f.outer
    requires f' == f.(outer := f.outer - 1, wire := Crypt(prim, l.key, l.pos, f.wire)) && ls[f.outer - 1] == l
    ensures Sealed(prim, ls, f')
  {
  }

  lemma CoverAligned(prim: Primitives, w: seq<Layer>, r: seq<Layer>, a: seq<Flight>, f: Flight, f': Flight, b: seq<Flight>)
    requires Aligned(prim, w, r, a + [f] + b) && 0 < f.outer <= f.edge < |w|
    requires |f.plain| == CELL_LEN
    requires f' == Covered(prim, w, f)
    requires forall i | 0 <= i < |b| :: f.outer <= b[i].outer
    ensures Aligned(prim, Spend(w, f'.outer, f.outer, CELL_LEN), r, a + [f'] + b)
  {
    var o, w' := f'.outer, Spend(w, f'.outer, f.outer, CELL_LEN);
    AllSealedSplit(prim, r, a + [f], b);
    SealedSnoc(prim, r, a, f);
    forall h | 0 <= h < |r|
      ensures h <= o ==> w'[h] == Ahead(r[h], a + [f'], h)
      ensures h > o ==> Ahead(r[h], a + [f], h) == Ahead(r[h], a + [f'], h) && w'[h] == w[h]
      ensures h == o ==> w[h] == Ahead(r[h], a, h)
    {
      if h <= o {
        WriterBefore(prim, w, r, a + [f], b, h);
      }
      AheadSnoc(r[h], a, f, h);
      AheadSnoc(r[h], a, f', h);
    }
    CoverSealed(prim, w[o], Consume(r, a), f, f');
    SealedSnoc(prim, r, a, f');
    Replace(prim, o + 1, w, w', r, r, a + [f], a + [f'], b);
  }

  lemma CoverKeeps(prim: Primitives, c: Channel, at: nat)
    requires InStep(prim, c) && at < |c.flights| && 0 < c.flights[at].outer <= |c.writer|
    requires forall i | at < i < |c.flights| :: c.flights[at].outer <= c.flights[i].outer
    ensures InStep(prim, Cover(prim, c, at))
  {
    SealedRange(prim, c.reader, c.flights);
    var a, f, b := Around(c.flights, at);
    var f' := Covered(prim, c.writer, f);
    CoverAligned(prim, c.writer, c.reader, a, f, f', b);
    NotesReplace(a, f, f', b);
  }

  lemma Around(fs: seq<Flight>, at: nat) returns (a: seq<Flight>, f: Flight, b: seq<Flight>)
    requires at < |fs|
    ensures a == fs[..at] && f == fs[at] && b == fs[at + 1..] && fs == a + [f] + b
    ensures forall i | 0 <= i < |b| :: b[i] == fs[at + 1 + i]
  {
    a, f, b := fs[..at], fs[at], fs[at + 1..];
  }

  // ---- reading a whole cell (the client, from the relays) ----

  function TakeVerdict(prim: Primitives, c: Channel): (v: Peeled)
    requires c.flights != []
  {
    Peel(prim, c.reader, 0, c.flights[0].wire)
  }

  function Take(prim: Primitives, c: Channel): (c': Channel)
    requires c.flights != []
  {
    var v := TakeVerdict(prim, c);
    Channel(c.writer, Settle(c.reader, |c.flights[0].wire|, v), c.flights[1..], c.sent,
            c.got + (if v.Recognised? then [Note(v.hop, v.plain)] else []))
  }

  lemma TakeAligned(prim: Primitives, w: seq<Layer>, r: seq<Layer>, f: Flight, b: seq<Flight>)
    requires Aligned(prim, w, r, [f] + b)
    ensures Sealed(prim, r, f) && Aligned(prim, w, Consume(r, [f]), b)
  {
    HeadSealed(prim, r, f, b);
    ConsumeAppend(r, [f], b);
    forall i | 0 <= i < |b|
      ensures Sealed(prim, Consume(Consume(r, [f]), b[..i]), b[i])
    {
      ConsumeAppend(r, [f], b[..i]);
      assert Sealed(prim, Consume(r, [f] + b[..i]), b[i]);
    }
  }

  /** The client reads the oldest cell: right hop, exact bytes, and both ends still in step. */
  lemma TakeKeeps(prim: Primitives, c: Channel)
    requires InStep(prim, c) && c.flights != [] && c.flights[0].outer == 0 && c.flights[0].edge < |c.reader|
    requires !Accident(prim, c.reader, 0, c.flights[0].edge, c.flights[0].wire)
    ensures TakeVerdict(prim, c) == Recognised(c.flights[0].edge, c.flights[0].plain)
    ensures InStep(prim, Take(prim, c))
  {
    var f, b := c.flights[0], c.flights[1..];
    assert c.flights == [f] + b;
    TakeAligned(prim, c.writer, c.reader, f, b);
    PeelFinds(prim, c.reader, 0, f.edge, f.plain);
    ConsumeOne(c.reader, f);
    assert [] + [f] + b == c.flights && [] + b == b;
    ReadConserves(c.sent, c.got, [], f, b);
    assert Notes([f]) == [Note(f.edge, f.plain)];
  }

  lemma HeadSealed(prim: Primitives, ls: seq<Layer>, f: Flight, b: seq<Flight>)
    requires AllSealed(prim, ls, [f] + b)
    ensures Sealed(prim, ls, f) && SealedAfter(prim, ls, [f], b)
  {
    AllSealedSplit(prim, ls, [f], b);
    assert [] + [f] == [f];
    SealedSnoc(prim, ls, [], f);
    forall h | 0 <= h < |ls|
      ensures Ahead(ls[h], [], h) == ls[h]
    {
      Untouched(ls[h], [], h);
    }
    assert Consume(ls, []) == ls;
  }

  /** A cell taken out of the queue from behind cells of other hops. */
  lemma ReadConserves(sent: seq<Note>, got: seq<Note>, a: seq<Flight>, f: Flight, b: seq<Flight>)
    requires Conserved(sent, got, Notes(a + [f] + b)) && Of(Notes(a), f.edge) == []
    ensures Conserved(sent, got + Notes([f]), Notes(a + b))
  {
    forall h: nat
      ensures Of(sent, h) == Of(got + Notes([f]), h) + Of(Notes(a + b), h)
    {
      ReadConservesAt(sent, got, a, f, b, h);
    }
  }

  lemma ReadConservesAt(sent: seq<Note>, got: seq<Note>, a: seq<Flight>, f: Flight, b: seq<Flight>, h: nat)
    requires Of(sent, h) == Of(got, h) + Of(Notes(a + [f] + b), h)
    requires Of(Notes(a), f.edge) == []
    ensures Of(sent, h) == Of(got + Notes([f]), h) + Of(Notes(a + b), h)
  {
    NotesAppend(a, b);
    NotesAppend(a, [f]);
    NotesAppend(a + [f], b);
    OfAppend(got, Notes([f]), h);
    OfAppend(Notes(a), Notes(b), h);
    OfAppend(Notes(a), Notes([f]), h);
    OfAppend(Notes(a + [f]), Notes(b), h);
    OfOne(f, h);
    SlipFront(Of(got, h), Of(Notes(a), h), Of(Notes([f]), h), Of(Notes(b), h));
  }

  lemma SlipFront<T>(g: seq<T>, x: seq<T>, y: seq<T>, z: seq<T>)
    requires x == [] || y == []
    ensures g + (x + y + z) == (g + y) + (x + z)
  {
  }

  // ---- removing one layer (relays, towards the far end) ----

  function Inside(prim: Primitives, r: seq<Layer>, f: Flight): (p: bytes)
    requires f.outer < |r|
    ensures |p| == |f.wire|
  {
    Crypt(prim, r[f.outer].key, r[f.outer].pos, f.wire)
  }

  /** A relay peels its layer: it keeps a cell it recognises and passes on any other, unless it is the last hop. */
  function Turn(prim: Primitives, r: seq<Layer>, f: Flight): (t: (seq<Layer>, seq<Flight>, seq<Note>))
    requires f.outer < |r|
  {
    var h, p := f.outer, Inside(prim, r, f);
    var r' := Spend(r, h, h + 1, |f.wire|);
    if Recognises(prim, r[h], p) then (Absorb(r', h, p), [], [Note(h, p)])
    else if h + 1 < |r| then (r', [f.(outer := h + 1, wire := p)], [])
    else (r', [], [])
  }

  function Shed(prim: Primitives, c: Channel, at: nat): (c': Channel)
    requires at < |c.flights| && c.flights[at].outer < |c.reader|
  {
    var (r', m, n) := Turn(prim, c.reader, c.flights[at]);
    Channel(c.writer, r', c.flights[..at] + m + c.flights[at + 1..], c.sent, c.got + n)
  }

  /** Before its far end the cell is still sealed; at its far end the relay sees the plaintext and recognises it. */
  lemma ShedSealed(prim: Primitives, r: seq<Layer>, a: seq<Flight>, f: Flight)
    requires Sealed(prim, Consume(r, a), f) && Avoid(a, f.outer)
    ensures var p := Inside(prim, r, f);
            if f.outer == f.edge then p == f.plain && Recognises(prim, r[f.outer], p)
            else Sealed(prim, Consume(r, a), f.(outer := f.outer + 1, wire := p))
  {
    var ls := Consume(r, a);
    Untouched(r[f.outer], a, f.outer);
    CryptTwice(prim, r[f.outer].key, r[f.outer].pos, Wrap(prim, ls, f.outer + 1, f.edge, f.plain));
  }

  /** A hop's own progress does not disturb cells that are past it. */
  lemma PastSealed(prim: Primitives, r: seq<Layer>, r': seq<Layer>, a: seq<Flight>, h: nat)
    requires |r| == |r'| && AllSealed(prim, r, a)
    requires forall k | 0 <= k < |r| && k != h :: r[k] == r'[k]
    requires forall i | 0 <= i < |a| :: h < a[i].outer
    ensures AllSealed(prim, r', a)
  {
    forall i | 0 <= i < |a|
      ensures Sealed(prim, Consume(r', a[..i]), a[i])
    {
      SealedFrame(prim, Consume(r, a[..i]), Consume(r', a[..i]), a[i]);
    }
  }

  /** What a relay's turn must come to for a cell that is sealed for it, unless it mistakes the cell for its own. */
  function Due(prim: Primitives, r: seq<Layer>, f: Flight): (t: (seq<Layer>, seq<Flight>, seq<Note>))
    requires f.outer <= f.edge < |r| && |f.plain| == CELL_LEN
  {
    var h := f.outer;
    var r' := Spend(r, h, h + 1, CELL_LEN);
    if h == f.edge then (Absorb(r', h, f.plain), [], [Note(h, f.plain)])
    else (r', [f.(outer := h + 1, wire := Inside(prim, r, f))], [])
  }

  lemma TurnIsDue(prim: Primitives, r: seq<Layer>, a: seq<Flight>, f: Flight)
    requires Sealed(prim, Consume(r, a), f) && Avoid(a, f.outer)
    requires f.outer < f.edge ==> !Recognises(prim, r[f.outer], Inside(prim, r, f))
    ensures Turn(prim, r, f) == Due(prim, r, f)
  {
    ShedSealed(prim, r, a, f);
  }

  /** Every reader is as far ahead with the cell still in flight as it is with the cell dealt with. */
  lemma DueAhead(prim: Primitives, r: seq<Layer>, a: seq<Flight>, f: Flight, k: nat)
    requires f.outer <= f.edge < |r| && |f.plain| == CELL_LEN && k < |r| && Avoid(a, f.outer)
    ensures var (r', m, _) := Due(prim, r, f);
            Ahead(r[k], a + [f], k) == Ahead(r'[k], a + m, k)
  {
    var (r', m, _) := Due(prim, r, f);
    AheadSnoc(r[k], a, f, k);
    if k == f.outer {
      Untouched(r[k], a, k);
      Untouched(r'[k], a, k);
    } else {
      assert r'[k] == r[k];
    }
    if m == [] {
      assert a + m == a;
      assert Ahead(r[k], a, k).hist + [] == Ahead(r[k], a, k).hist;
    } else {
      AheadSnoc(r'[k], a, m[0], k);
      assert a + m == a + [m[0]];
    }
  }

  lemma DueSealed(prim: Primitives, r: seq<Layer>, a: seq<Flight>, f: Flight)
    requires AllSealed(prim, r, a) && Sealed(prim, Consume(r, a), f) && |f.plain| == CELL_LEN
    requires forall i | 0 <= i < |a| :: f.outer < a[i].outer <= a[i].edge
    ensures var (r', m, _) := Due(prim, r, f);
            AllSealed(prim, r', a + m)
  {
    var (r', m, _) := Due(prim, r, f);
    PastSealed(prim, r, r', a, f.outer);
    if m == [] {
      assert a + m == a;
    } else {
      OnwardSealed(prim, r, r', a, f);
      SealedSnoc(prim, r', a, m[0]);
      assert a + m == a + [m[0]];
    }
  }

  /** A cell passed on is sealed for the hops behind. */
  lemma OnwardSealed(prim: Primitives, r: seq<Layer>, r': seq<Layer>, a: seq<Flight>, f: Flight)
    requires Sealed(prim, Consume(r, a), f) && Avoid(a, f.outer) && f.outer < f.edge && |r| == |r'|
    requires forall k | 0 <= k < |r| && k != f.outer :: r[k] == r'[k]
    ensures Sealed(prim, Consume(r', a), f.(outer := f.outer + 1, wire := Inside(prim, r, f)))
  {
    ShedSealed(prim, r, a, f);
    SealedFrame(prim, Consume(r, a), Consume(r', a), f.(outer := f.outer + 1, wire := Inside(prim, r, f)));
  }

  lemma DueAligned(prim: Primitives, w: seq<Layer>, r: seq<Layer>, a: seq<Flight>, f: Flight, b: seq<Flight>)
    requires Aligned(prim, w, r, a + [f] + b) && f.outer <= f.edge < |r| && |f.plain| == CELL_LEN
    requires forall i | 0 <= i < |a| :: f.outer < a[i].outer <= a[i].edge
    ensures var (r', m, _) := Due(prim, r, f);
            Aligned(prim, w, r', a + m + b)
  {
    var (r', m, _) := Due(prim, r, f);
    AllSealedSplit(prim, r, a + [f], b);
    SealedSnoc(prim, r, a, f);
    DueSealed(prim, r, a, f);
    forall k | 0 <= k < |r|
      ensures Ahead(r[k], a + [f], k) == Ahead(r'[k], a + m, k)
    {
      DueAhead(prim, r, a, f, k);
    }
    Replace(prim, 0, w, w, r, r', a + [f], a + m, b);
  }

  lemma DueConserves(prim: Primitives, r: seq<Layer>, sent: seq<Note>, got: seq<Note>, a: seq<Flight>, f: Flight, b: seq<Flight>)
    requires f.outer <= f.edge < |r| && |f.plain| == CELL_LEN
    requires Conserved(sent, got, Notes(a + [f] + b))
    requires forall i | 0 <= i < |a| :: f.outer < a[i].outer <= a[i].edge
    ensures var (_, m, n) := Due(prim, r, f);
            Conserved(sent, got + n, Notes(a + m + b))
  {
    var (_, m, n) := Due(prim, r, f);
    if m == [] {
      AvoidCounts(a, f.edge);
      ReadConserves(sent, got, a, f, b);
      assert Notes([f]) == n && a + [] == a;
    } else {
      NotesReplace(a, f, m[0], b);
      assert got + [] == got;
    }
  }

  /** One relay's turn: the far end, and only it, keeps the cell, with its exact bytes, and both ends stay in step. */
  lemma ShedKeeps(prim: Primitives, c: Channel, at: nat)
    requires InStep(prim, c) && at < |c.flights| && c.flights[at].outer < |c.reader|
    requires forall i | 0 <= i < at :: c.flights[at].outer < c.flights[i].outer
    requires var f := c.flights[at];
             f.outer < f.edge ==> !Recognises(prim, c.reader[f.outer], Inside(prim, c.reader, f))
    ensures var f, c' := c.flights[at], Shed(prim, c, at);
            && c'.got == c.got + (if f.outer == f.edge then [Note(f.edge, f.plain)] else [])
            && InStep(prim, c')
  {
    SealedRange(prim, c.reader, c.flights);
    var a, f, b := Around(c.flights, at);
    FlightSealed(prim, c.reader, a, f, b);
    TurnIsDue(prim, c.reader, a, f);
    DueAligned(prim, c.writer, c.reader, a, f, b);
    DueConserves(prim, c.reader, c.sent, c.got, a, f, b);
  }

  lemma FlightSealed(prim: Primitives, r: seq<Layer>, a: seq<Flight>, f: Flight, b: seq<Flight>)
    requires AllSealed(prim, r, a + [f] + b)
    ensures Sealed(prim, Consume(r, a), f)
  {
    AllSealedSplit(prim, r, a + [f], b);
    SealedSnoc(prim, r, a, f);
  }
}
