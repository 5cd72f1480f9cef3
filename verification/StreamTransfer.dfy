/** A byte string sent on a stream: cut into cells, sealed, carried over the circuit, read at the far end. */
module StreamTransfer {
  import opened Sequences
  import opened Bytes
  import opened RelayFormat
  import opened Layers
  import opened RelayBodies
  import opened OnionChannel
  import opened OnionSteps
  import opened OnionRun
  import opened RelayCrypto

  const DATA_NUM: byte := 2

  /** Successive pieces of `n` bytes, the last one perhaps shorter. */
  function Chunks(data: bytes, n: nat): (cs: seq<bytes>)
    requires n > 0
    ensures forall i | 0 <= i < |cs| :: 0 < |cs[i]| <= n
  {
    if data == [] then [] else if |data| <= n then [data] else [data[..n]] + Chunks(data[n..], n)
  }

  function Concat(cs: seq<bytes>): (d: bytes) {
    if cs == [] then [] else cs[0] + Concat(cs[1..])
  }

  lemma ConcatCons(c: bytes, cs: seq<bytes>)
    ensures Concat([c] + cs) == c + Concat(cs)
  {
    assert ([c] + cs)[1..] == cs;
  }

  /** The pieces are the data again. */
  lemma {:induction false} ChunksConcat(data: bytes, n: nat)
    requires n > 0
    ensures Concat(Chunks(data, n)) == data
  {
    if |data| > n {
      ChunksConcat(data[n..], n);
      ConcatCons(data[..n], Chunks(data[n..], n));
    } else if data != [] {
      ConcatCons(data, []);
      assert [data] + [] == [data];
    }
  }

  /** As few cells as the payload limit allows. */
  lemma {:induction false} ChunksCount(data: bytes)
    ensures |Chunks(data, 498)| == (|data| + 497) / 498
  {
    if |data| > 498 {
      ChunksCount(data[498..]);
    }
  }

  /** The piece that `range(0, len, n)` cuts at `i`, and the pieces after it. */
  lemma ChunksAt(data: bytes, i: nat)
    requires i < |data|
    ensures var c := if i + 498 <= |data| then data[i..i + 498] else data[i..];
            Chunks(Rest(data, i), 498) == [c] + Chunks(Rest(data, i + 498), 498)
  {
    var d := data[i..];
    assert Rest(data, i) == d;
    if |d| > 498 {
      assert d[498..] == Rest(data, i + 498);
      assert d[..498] == data[i..i + 498];
    } else {
      assert Chunks(Rest(data, i + 498), 498) == [];
      assert |d| == 498 ==> data[i..i + 498] == d;
    }
  }

  class TorStream {
    const id: nat
    const circuit: TorCircuit

    constructor (id: nat, circuit: TorCircuit)
      ensures this.id == id && this.circuit == circuit
    {
      this.id, this.circuit := id, circuit;
    }

    /** One chunk: a step of the last hop's package window, then a relay cell. */
    method SendData(chunk: bytes) returns (wire: bytes)
      requires circuit.Valid() && |circuit.nodes| > 0 && id < 0x1_0000 && |chunk| <= MAX_PAYLOAD
      modifies circuit.nodes, circuit.LastWindow()`package
      ensures circuit.Valid() && circuit.Backward() == old(circuit.Backward())
      ensures (circuit.Forward(), wire) == Seal(circuit.prim, old(circuit.Forward()), DATA_NUM, id, chunk)
      ensures var w := circuit.LastWindow(); w.package == old(w.package) - 1
    {
      circuit.LastWindow().PackageDec();
      var r := circuit.SendRelay(Data(chunk), id);
      wire := r.value;
    }

    /** The data up to `i` has been sent. */
    ghost predicate SentUpTo(data: bytes, i: nat, ls: seq<Layer>, wires: seq<bytes>)
      reads this, circuit, circuit.nodes
    {
      && circuit.Valid() && |ls| > 0 && id < 0x1_0000
      && Resumes(circuit.prim, ls, circuit.Forward(), id, Chunks(data, MAX_PAYLOAD), wires, Chunks(Rest(data, i), MAX_PAYLOAD))
    }

    lemma SendingStarts(data: bytes)
      requires circuit.Valid() && |circuit.nodes| > 0 && id < 0x1_0000
      ensures SentUpTo(data, 0, circuit.Forward(), [])
    {
      assert Rest(data, 0) == data;
      ResumesStart(circuit.prim, circuit.Forward(), id, Chunks(data, MAX_PAYLOAD));
    }

    lemma SendingEnds(data: bytes, i: nat, ls: seq<Layer>, wires: seq<bytes>)
      requires SentUpTo(data, i, ls, wires) && i >= |data|
      ensures (circuit.Forward(), wires) == SealAll(circuit.prim, ls, id, Chunks(data, MAX_PAYLOAD))
      ensures |wires| == |Chunks(data, MAX_PAYLOAD)|
    {
      assert Chunks(Rest(data, i), MAX_PAYLOAD) == [];
      ResumesEnd(circuit.prim, ls, circuit.Forward(), id, Chunks(data, MAX_PAYLOAD), wires);
    }

    method SendNext(data: bytes, i: nat, wires: seq<bytes>, ghost ls: seq<Layer>) returns (wires': seq<bytes>)
      requires SentUpTo(data, i, ls, wires) && i < |data| && |circuit.nodes| > 0
      modifies circuit.nodes, circuit.LastWindow()`package
      ensures SentUpTo(data, i + MAX_PAYLOAD, ls, wires') && |wires'| == |wires| + 1
      ensures circuit.Backward() == old(circuit.Backward())
      ensures var w := circuit.LastWindow(); w.package == old(w.package) - 1
    {
      var chunk := if i + MAX_PAYLOAD <= |data| then data[i..i + MAX_PAYLOAD] else data[i..];
      ChunksAt(data, i);
      ghost var before := circuit.Forward();
      var wire := SendData(chunk);
      wires' := wires + [wire];
      ResumesNext(circuit.prim, ls, before, id, Chunks(data, MAX_PAYLOAD), wires, chunk,
                  Chunks(Rest(data, i + MAX_PAYLOAD), MAX_PAYLOAD));
    }

    method SendAll(data: bytes) returns (wires: seq<bytes>, ghost end: nat)
      requires circuit.Valid() && |circuit.nodes| > 0 && id < 0x1_0000
      modifies circuit.nodes, circuit.LastWindow()`package
      ensures end >= |data| && SentUpTo(data, end, old(circuit.Forward()), wires)
      ensures circuit.Backward() == old(circuit.Backward())
      ensures var w := circuit.LastWindow(); w.package == old(w.package) - |wires|
    {
      wires := [];
      var i := 0;
      ghost var ls, w := circuit.Forward(), circuit.LastWindow();
      SendingStarts(data);
      while i < |data|
        invariant 0 <= i && SentUpTo(data, i, ls, wires) && circuit.Backward() == old(circuit.Backward())
        invariant w.package == old(w.package) - |wires|
        decreases |data| - i
      {
        wires := SendNext(data, i, wires, ls);
        i := i + MAX_PAYLOAD;
      }
      end := i;
    }

    /** One relay cell per chunk, and one step of the package window for each. */
    method Send(data: bytes) returns (wires: seq<bytes>)
      requires circuit.Valid() && |circuit.nodes| > 0 && id < 0x1_0000
      modifies circuit.nodes, circuit.LastWindow()`package
      ensures circuit.Valid() && circuit.Backward() == old(circuit.Backward())
      ensures (circuit.Forward(), wires)
           == SealAll(circuit.prim, old(circuit.Forward()), id, Chunks(data, MAX_PAYLOAD))
      ensures var w := circuit.LastWindow();
              w.package == old(w.package) - |Chunks(data, MAX_PAYLOAD)|
    {
      ghost var ls, end := circuit.Forward(), 0;
      wires, end := SendAll(data);
      SendingEnds(data, end, ls, wires);
    }
  }

  function Rest(data: bytes, i: nat): (d: bytes) {
    if i <= |data| then data[i..] else []
  }

  predicate Fit(cs: seq<bytes>) {
    forall i | 0 <= i < |cs| :: |cs[i]| <= MAX_PAYLOAD
  }

  /** The layers and the wire bytes after sealing one data cell for each of `cs`. */
  function SealAll(prim: Primitives, ls: seq<Layer>, id: nat, cs: seq<bytes>): (r: (seq<Layer>, seq<bytes>))
    requires |ls| > 0 && id < 0x1_0000 && Fit(cs)
    ensures |r.0| == |ls| && |r.1| == |cs|
    decreases |cs|
  {
    if cs == [] then (ls, [])
    else
      var (ls1, w) := Seal(prim, ls, DATA_NUM, id, cs[0]);
      var (ls2, ws) := SealAll(prim, ls1, id, cs[1..]);
      (ls2, [w] + ws)
  }

  /** Sealing `cs` from `ls` is what has been sent so far, followed by sealing `todo` from `now`. */
  ghost predicate Resumes(prim: Primitives, ls: seq<Layer>, now: seq<Layer>, id: nat, cs: seq<bytes>,
                          sent: seq<bytes>, todo: seq<bytes>)
    requires |ls| > 0 && id < 0x1_0000 && Fit(cs)
  {
    && |now| == |ls| && Fit(todo)
    && SealAll(prim, ls, id, cs) == (SealAll(prim, now, id, todo).0, sent + SealAll(prim, now, id, todo).1)
  }

  lemma ResumesStart(prim: Primitives, ls: seq<Layer>, id: nat, cs: seq<bytes>)
    requires |ls| > 0 && id < 0x1_0000 && Fit(cs)
    ensures Resumes(prim, ls, ls, id, cs, [], cs)
  {
    assert [] + SealAll(prim, ls, id, cs).1 == SealAll(prim, ls, id, cs).1;
  }

  lemma ResumesEnd(prim: Primitives, ls: seq<Layer>, now: seq<Layer>, id: nat, cs: seq<bytes>, sent: seq<bytes>)
    requires |ls| > 0 && id < 0x1_0000 && Fit(cs) && Resumes(prim, ls, now, id, cs, sent, [])
    ensures SealAll(prim, ls, id, cs) == (now, sent)
  {
    assert sent + [] == sent;
  }

  lemma ResumesNext(prim: Primitives, ls: seq<Layer>, now: seq<Layer>, id: nat, cs: seq<bytes>,
                    sent: seq<bytes>, c: bytes, todo: seq<bytes>)
    requires |ls| > 0 && id < 0x1_0000 && Fit(cs) && |c| <= MAX_PAYLOAD && Fit(todo)
    requires Resumes(prim, ls, now, id, cs, sent, [c] + todo)
    ensures var (next, w) := Seal(prim, now, DATA_NUM, id, c);
            Resumes(prim, ls, next, id, cs, sent + [w], todo)
  {
    assert ([c] + todo)[1..] == todo;
    var (next, w) := Seal(prim, now, DATA_NUM, id, c);
    var ws := SealAll(prim, next, id, todo).1;
    assert sent + ([w] + ws) == (sent + [w]) + ws;
  }

  // ---- what the far end of a stream reads ----

  /** The bytes of one stream's data cells, in order. */
  function StreamData(ps: seq<bytes>, id: nat): (d: bytes) {
    if ps == [] then [] else CellData(ps[0], id) + StreamData(ps[1..], id)
  }

  function CellData(p: bytes, id: nat): (d: bytes) {
    if |p| != CELL_LEN then []
    else
      var h := ParseHeader(p);
      if h.num == DATA_NUM && h.streamId == id then Payload(h) else []
  }

  /** The data that the client sends on one stream during a run, cell by cell. */
  function SentOn(es: seq<Event>, id: nat): (cs: seq<bytes>) {
    if es == [] then [] else EventData(es[0], id) + SentOn(es[1..], id)
  }

  function EventData(e: Event, id: nat): (cs: seq<bytes>) {
    if e.Send? && e.m.num == DATA_NUM && e.m.streamId == id then [e.m.payload] else []
  }

  lemma {:induction false} StreamDataSnoc(ps: seq<bytes>, p: bytes, id: nat)
    ensures StreamData(ps + [p], id) == StreamData(ps, id) + CellData(p, id)
  {
    if ps == [] {
      assert [] + [p] == [p] && [p][1..] == [];
      assert CellData(p, id) + [] == [] + CellData(p, id);
    } else {
      assert (ps + [p])[1..] == ps[1..] + [p];
      StreamDataSnoc(ps[1..], p, id);
      Assoc(CellData(ps[0], id), StreamData(ps[1..], id), CellData(p, id));
    }
  }

  lemma {:induction false} StreamDataPrefix(ps: seq<bytes>, qs: seq<bytes>, id: nat)
    requires ps <= qs
    ensures StreamData(ps, id) <= StreamData(qs, id)
    decreases |qs|
  {
    if ps < qs {
      var n := |qs| - 1;
      StreamDataPrefix(ps, qs[..n], id);
      StreamDataSnoc(qs[..n], qs[n], id);
      assert qs == qs[..n] + [qs[n]];
    } else {
      assert ps == qs;
    }
  }

  /** A stamped data cell carries its payload. */
  lemma StampedData(prim: Primitives, l: Layer, m: Message, id: nat)
    requires m.Fits()
    ensures CellData(Stamp(prim, l, m.num, m.streamId, m.payload), id) == Concat(EventData(Send(m), id))
  {
    ParsePack(m.num, m.streamId, Digest4(prim, l.hist + Pack(m.num, m.streamId, NO_DIGEST, m.payload, [])), m.payload, []);
    var cs := EventData(Send(m), id);
    if cs != [] {
      assert cs[1..] == [] && m.payload + [] == m.payload;
    }
  }

  lemma {:induction false} ConcatAppend(a: seq<bytes>, b: seq<bytes>)
    ensures Concat(a + b) == Concat(a) + Concat(b)
  {
    if a == [] {
      assert a + b == b;
    } else {
      assert (a + b)[1..] == a[1..] + b;
      ConcatAppend(a[1..], b);
      Assoc(a[0], Concat(a[1..]), Concat(b));
    }
  }

  /** What has been sent on a stream to hop `h`. */
  function SentData(c: Channel, h: nat, id: nat): (d: bytes) {
    StreamData(Of(c.sent, h), id)
  }

  /** The chunks among them that go to hop `h`: those sent while it is the last of `n` hops. */
  function SentTo(n: nat, es: seq<Event>, h: nat, id: nat): (cs: seq<bytes>)
    decreases |es|
  {
    if es == [] then []
    else
      (if n == h + 1 then EventData(es[0], id) else [])
      + SentTo(if es[0].Extend? then n + 1 else n, es[1..], h, id)
  }

  /** No extension of the circuit comes before the last chunk. */
  predicate Uninterrupted(es: seq<Event>, id: nat)
    decreases |es|
  {
    es == [] || (if es[0].Extend? then SentOn(es[1..], id) == [] else Uninterrupted(es[1..], id))
  }

  lemma {:induction false} SentToNone(n: nat, es: seq<Event>, h: nat, id: nat)
    requires n > h + 1
    ensures SentTo(n, es, h, id) == []
    decreases |es|
  {
    if es != [] {
      SentToNone(if es[0].Extend? then n + 1 else n, es[1..], h, id);
    }
  }

  lemma {:induction false} SentToPart(es: seq<Event>, h: nat, id: nat)
    ensures SentTo(h + 1, es, h, id) <= SentOn(es, id)
    ensures SentTo(h + 1, es, h, id) == SentOn(es, id) <==> Uninterrupted(es, id)
    decreases |es|
  {
    if es != [] {
      if es[0].Extend? {
        SentToNone(h + 2, es[1..], h, id);
        assert EventData(es[0], id) == [] && [] + SentOn(es[1..], id) == SentOn(es[1..], id);
      } else {
        SentToPart(es[1..], h, id);
        SamePrefix(EventData(es[0], id), SentTo(h + 1, es[1..], h, id), SentOn(es[1..], id));
      }
    }
  }

  lemma SamePrefix<T>(a: seq<T>, b: seq<T>, c: seq<T>)
    requires b <= c
    ensures a + b <= a + c && (a + b == a + c <==> b == c)
  {
    if a + b == a + c {
      assert (a + b)[|a|..] == b && (a + c)[|a|..] == c;
    }
  }

  lemma SentOne(f: Flight, c: Channel, h: nat, id: nat)
    ensures SentData(c.(sent := c.sent + Notes([f])), h, id) ==
            SentData(c, h, id) + (if f.edge == h then CellData(f.plain, id) else [])
  {
    OfAppend(c.sent, Notes([f]), h);
    OfOne(f, h);
    if f.edge == h {
      StreamDataSnoc(Of(c.sent, h), f.plain, id);
    } else {
      assert Of(c.sent, h) + [] == Of(c.sent, h);
    }
  }

  /** What an event adds to that, with `n` hops in the circuit. */
  function Added(n: nat, e: Event, h: nat, id: nat): (d: bytes) {
    if n == h + 1 then Concat(EventData(e, id)) else []
  }

  lemma SendSends(prim: Primitives, c: Channel, m: Message, h: nat, id: nat)
    requires |c.writer| > 0 && m.Fits()
    ensures SentData(Write(prim, c, |c.flights|, 0, |c.writer| - 1, m), h, id) ==
            SentData(c, h, id) + Added(|c.writer|, Send(m), h, id)
  {
    var last := |c.writer| - 1;
    var f := Written(prim, c.writer, 0, last, m);
    var added := if last == h then CellData(f.plain, id) else [];
    assert SentData(Write(prim, c, |c.flights|, 0, last, m), h, id) == SentData(c, h, id) + added by {
      SentOne(f, c, h, id);
    }
    assert added == Added(|c.writer|, Send(m), h, id) by {
      StampedData(prim, c.writer[last], m, id);
    }
  }

  lemma OthersSend(prim: Primitives, s: Circuit, e: Event, h: nat, id: nat)
    requires Enabled(s, e) && !e.Send?
    ensures Step(prim, s, e).fwd.sent == s.fwd.sent
    ensures Added(|s.fwd.writer|, e, h, id) == []
  {
    assert Concat(EventData(e, id)) == [];
  }

  lemma HopsAfter(prim: Primitives, s: Circuit, e: Event)
    requires Enabled(s, e)
    ensures |Step(prim, s, e).fwd.writer| == if e.Extend? then |s.fwd.writer| + 1 else |s.fwd.writer|
  {
  }

  lemma SentSame(c: Channel, c': Channel, d: bytes, h: nat, id: nat)
    requires c.sent == c'.sent && d == []
    ensures SentData(c', h, id) == SentData(c, h, id) + d
  {
  }

  lemma StepSends(prim: Primitives, s: Circuit, e: Event, h: nat, id: nat)
    requires Enabled(s, e)
    ensures SentData(Step(prim, s, e).fwd, h, id) == SentData(s.fwd, h, id) + Added(|s.fwd.writer|, e, h, id)
  {
    if e.Send? {
      SendSends(prim, s.fwd, e.m, h, id);
    } else {
      OthersSend(prim, s, e, h, id);
      SentSame(s.fwd, Step(prim, s, e).fwd, Added(|s.fwd.writer|, e, h, id), h, id);
    }
  }

  lemma AddedFirst(n: nat, es: seq<Event>, h: nat, id: nat)
    requires es != []
    ensures Concat(SentTo(n, es, h, id)) ==
            Added(n, es[0], h, id) + Concat(SentTo(if es[0].Extend? then n + 1 else n, es[1..], h, id))
  {
    var now := if n == h + 1 then EventData(es[0], id) else [];
    ConcatAppend(now, SentTo(if es[0].Extend? then n + 1 else n, es[1..], h, id));
  }

  /** Over any run, extensions included, each hop is sent the chunks of the time when it was the last. */
  lemma {:induction false} RunSends(prim: Primitives, s: Circuit, es: seq<Event>, t: Circuit, h: nat, id: nat)
    requires IsRun(prim, s, es, t)
    ensures SentData(t.fwd, h, id) == SentData(s.fwd, h, id) + Concat(SentTo(|s.fwd.writer|, es, h, id))
    decreases |es|
  {
    if es == [] {
      assert SentData(s.fwd, h, id) + [] == SentData(s.fwd, h, id);
    } else {
      var u :| Goes(prim, s, es[0], u) && IsRun(prim, u, es[1..], t);
      StepSends(prim, s, es[0], h, id);
      HopsAfter(prim, s, es[0]);
      RunSends(prim, u, es[1..], t, h, id);
      AddedFirst(|s.fwd.writer|, es, h, id);
      Assoc(SentData(s.fwd, h, id), Added(|s.fwd.writer|, es[0], h, id), Concat(SentTo(|u.fwd.writer|, es[1..], h, id)));
    }
  }

  predicate AllFull(cs: seq<bytes>) {
    forall i | 0 <= i < |cs| :: cs[i] != []
  }

  /** A front part of non-empty pieces has a front part of the bytes, and all of them only if it is the whole. */
  lemma ConcatPart(cs: seq<bytes>, ds: seq<bytes>)
    requires cs <= ds && AllFull(ds)
    ensures Concat(cs) <= Concat(ds) && (Concat(cs) == Concat(ds) <==> cs == ds)
  {
    var rest := ds[|cs|..];
    assert ds == cs + rest;
    ConcatAppend(cs, rest);
    if rest != [] {
      assert rest[0] == ds[|cs|] && Concat(rest) != [];
      assert cs != ds;
    } else {
      assert cs + rest == cs;
    }
  }

  lemma Reached(prim: Primitives, before: seq<Event>, s: Circuit, es: seq<Event>, t: Circuit, h: nat)
    requires IsRun(prim, NO_CIRCUIT, before, s) && IsRun(prim, s, es, t)
    ensures Of(t.fwd.got, h) <= Of(t.fwd.sent, h)
    ensures t.fwd.flights == [] ==> Of(t.fwd.got, h) == Of(t.fwd.sent, h)
  {
    NoCircuitGood(prim);
    RunKeeps(prim, NO_CIRCUIT, before, s);
    RunKeeps(prim, s, es, t);
    Quiet(prim, t.fwd, h);
  }

  /** What a transfer hands over for hop `h`: a front part of the data, all of it if and only if no extension cuts in. */
  lemma TransferSends(prim: Primitives, s: Circuit, es: seq<Event>, t: Circuit, h: nat, id: nat, data: bytes)
    requires |s.fwd.writer| == h + 1 && IsRun(prim, s, es, t) && SentOn(es, id) == Chunks(data, MAX_PAYLOAD)
    ensures SentData(t.fwd, h, id) <= SentData(s.fwd, h, id) + data
    ensures SentData(t.fwd, h, id) == SentData(s.fwd, h, id) + data <==> Uninterrupted(es, id)
  {
    RunSends(prim, s, es, t, h, id);
    SentToPart(es, h, id);
    var cs, ds := SentTo(h + 1, es, h, id), Chunks(data, MAX_PAYLOAD);
    assert AllFull(ds);
    ConcatPart(cs, ds);
    ChunksConcat(data, MAX_PAYLOAD);
    SamePrefix(SentData(s.fwd, h, id), Concat(cs), data);
  }

  /**
   End to end: whatever else happens on the circuit meanwhile, the far end of a stream reads a prefix
   of what was sent on it; once the links have drained it has all of it, if and only if the circuit
   was not extended before the last chunk.
  */
  lemma StreamDelivered(prim: Primitives, before: seq<Event>, s: Circuit, es: seq<Event>, t: Circuit, h: nat, id: nat, data: bytes)
    requires IsRun(prim, NO_CIRCUIT, before, s) && |s.fwd.writer| == h + 1 && IsRun(prim, s, es, t)
    requires SentOn(es, id) == Chunks(data, MAX_PAYLOAD)
    ensures var read, sent := StreamData(Of(t.fwd.got, h), id), SentData(s.fwd, h, id) + data;
            read <= sent && (t.fwd.flights == [] ==> (read == sent <==> Uninterrupted(es, id)))
  {
    TransferSends(prim, s, es, t, h, id, data);
    Reached(prim, before, s, es, t, h);
    StreamDataPrefix(Of(t.fwd.got, h), Of(t.fwd.sent, h), id);
  }
}
