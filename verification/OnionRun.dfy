/**
 A whole circuit over unbounded runs: the client, its relays, both directions of every link,
 cells of all hops in flight at once, and extension to new hops while they are.
*/
module OnionRun {
  import opened Bytes
  import opened Layers
  import opened OnionChannel
  import opened OnionSteps

  /** `fwd` is written by the client and read by the relays; `back` the other way round. */
  datatype Circuit = Circuit(fwd: Channel, back: Channel)

  datatype Event =
    | Send(m: Message)              // the client, under its send lock, to the last hop
    | Pass(hop: nat)                // a relay takes the oldest cell that comes from the client's side
    | Reply(hop: nat, m: Message)   // a relay originates a cell for the client
    | Hand(hop: nat)                // a relay takes the oldest cell that comes from the next relay
    | Receive                       // the client reads its socket
    | Extend(secret: bytes)         // the circuit gains a hop with a fresh shared secret

  const SECRET_LEN: nat := 72

  /** Df, Db, Kf, Kb: the first 72 bytes of the key material. */
  function ForwardLayer(secret: bytes): (l: Layer)
    requires |secret| == SECRET_LEN
  {
    Layer(secret[40..56], 0, secret[..20])
  }

  function BackwardLayer(secret: bytes): (l: Layer)
    requires |secret| == SECRET_LEN
  {
    Layer(secret[56..72], 0, secret[20..40])
  }

  /** What a handshake gives a hop: digest seed and cipher key forward, and the same backward. */
  datatype KeyMaterial = KeyMaterial(df: bytes, db: bytes, kf: bytes, kb: bytes) {
    predicate Sized() {
      |df| == |db| == 20 && |kf| == |kb| == 16
    }

    /** The order in which they stand in the secret. */
    function Secret(): (s: bytes) {
      df + db + kf + kb
    }
  }

  /** Forward with Kf over Df, backward with Kb over Db, each from the start of its key stream. */
  lemma KeysInOrder(k: KeyMaterial)
    requires k.Sized()
    ensures |k.Secret()| == SECRET_LEN
    ensures ForwardLayer(k.Secret()) == Layer(k.kf, 0, k.df) && BackwardLayer(k.Secret()) == Layer(k.kb, 0, k.db)
  {
    var s := k.Secret();
    assert s[..20] == k.df && s[20..40] == k.db && s[40..56] == k.kf && s[56..72] == k.kb;
  }

  /** An extended circuit has these at both ends of the new hop, in both directions, and all else as it was. */
  lemma ExtendedKeys(prim: Primitives, s: Circuit, k: KeyMaterial)
    requires k.Sized()
    ensures Enabled(s, Extend(k.Secret()))
    ensures var t, fwd, back := Step(prim, s, Extend(k.Secret())), Layer(k.kf, 0, k.df), Layer(k.kb, 0, k.db);
            && t.fwd == s.fwd.(writer := s.fwd.writer + [fwd], reader := s.fwd.reader + [fwd])
            && t.back == s.back.(writer := s.back.writer + [back], reader := s.back.reader + [back])
  {
    KeysInOrder(k);
  }

  function Grow(c: Channel, l: Layer): (c': Channel) {
    c.(writer := c.writer + [l], reader := c.reader + [l])
  }

  const NO_CIRCUIT: Circuit := Circuit(Channel([], [], [], [], []), Channel([], [], [], [], []))

  predicate Enabled(s: Circuit, e: Event) {
    match e
    case Send(m) => |s.fwd.writer| > 0 && m.Fits()
    case Pass(h) => LinkHead(s.fwd.flights, h) < |s.fwd.flights| && h < |s.fwd.reader|
    case Reply(h, m) => h < |s.back.writer| && m.Fits()
    case Hand(h) => LinkHead(s.back.flights, h + 1) < |s.back.flights| && h < |s.back.writer|
    case Receive => s.back.flights != [] && s.back.flights[0].outer == 0
    case Extend(secret) => |secret| == SECRET_LEN
  }

  function Step(prim: Primitives, s: Circuit, e: Event): (s': Circuit)
    requires Enabled(s, e)
  {
    match e
    case Send(m) => s.(fwd := Write(prim, s.fwd, |s.fwd.flights|, 0, |s.fwd.writer| - 1, m))
    case Pass(h) => s.(fwd := Shed(prim, s.fwd, LinkHead(s.fwd.flights, h)))
    case Reply(h, m) => s.(back := Write(prim, s.back, LinkEnd(s.back.flights, h), h, h, m))
    case Hand(h) => s.(back := Cover(prim, s.back, LinkHead(s.back.flights, h + 1)))
    case Receive => s.(back := Take(prim, s.back))
    case Extend(secret) => Circuit(Grow(s.fwd, ForwardLayer(secret)), Grow(s.back, BackwardLayer(secret)))
  }

  /**
   The one hypothesis: no hop in front of a cell's far end finds, by a coincidence of two zero
   bytes and a four-byte digest, that it recognises the cell.
  */
  predicate NoAccident(prim: Primitives, s: Circuit, e: Event)
    requires Enabled(s, e)
  {
    match e
    case Pass(h) =>
      var f := s.fwd.flights[LinkHead(s.fwd.flights, h)];
      h < f.edge ==> !Recognises(prim, s.fwd.reader[h], Inside(prim, s.fwd.reader, f))
    case Receive =>
      var f := s.back.flights[0];
      f.edge < |s.back.reader| ==> !Accident(prim, s.back.reader, 0, f.edge, f.wire)
    case _ => true
  }

  /** Links are first-in first-out: nearer the reader is older. */
  ghost predicate Falling(fs: seq<Flight>) {
    forall i, j | 0 <= i < j < |fs| :: fs[i].outer >= fs[j].outer
  }

  ghost predicate Rising(fs: seq<Flight>) {
    forall i, j | 0 <= i < j < |fs| :: fs[i].outer <= fs[j].outer
  }

  ghost predicate Good(prim: Primitives, s: Circuit) {
    && InStep(prim, s.fwd) && Falling(s.fwd.flights)
    && InStep(prim, s.back) && Rising(s.back.flights)
    && |s.fwd.reader| == |s.back.reader|
  }

  lemma GrowKeeps(prim: Primitives, c: Channel, l: Layer)
    requires InStep(prim, c)
    ensures InStep(prim, Grow(c, l))
  {
    SealedRange(prim, c.reader, c.flights);
    GrowAligned(prim, c.writer, c.reader, c.flights, l);
  }

  lemma GrowAligned(prim: Primitives, w: seq<Layer>, r: seq<Layer>, fs: seq<Flight>, l: Layer)
    requires Aligned(prim, w, r, fs)
    requires forall i | 0 <= i < |fs| :: fs[i].edge < |r|
    ensures Aligned(prim, w + [l], r + [l], fs)
  {
    Untouched(l, fs, |r|);
    assert Consume(r + [l], fs) == Consume(r, fs) + [l];
    forall i | 0 <= i < |fs|
      ensures Sealed(prim, Consume(r + [l], fs[..i]), fs[i])
    {
      assert Sealed(prim, Consume(r, fs[..i]), fs[i]);
      GrowSealed(prim, r, l, fs[..i], fs[i]);
    }
  }

  lemma GrowSealed(prim: Primitives, r: seq<Layer>, l: Layer, before: seq<Flight>, f: Flight)
    requires Sealed(prim, Consume(r, before), f)
    ensures Sealed(prim, Consume(r + [l], before), f)
  {
    SealedFrame(prim, Consume(r, before), Consume(r + [l], before), f);
  }

  lemma FallingMiddle(a: seq<Flight>, f: Flight, m: seq<Flight>, b: seq<Flight>)
    requires Falling(a + [f] + b) && |m| <= 1
    requires m != [] ==> f.outer <= m[0].outer && forall i | 0 <= i < |a| :: m[0].outer <= a[i].outer
    ensures Falling(a + m + b)
  {
    var fs, gs := a + [f] + b, a + m + b;
    forall i, j | 0 <= i < j < |gs|
      ensures gs[i].outer >= gs[j].outer
    {
      var i', j' := Old(i, |a|, |m|, 1), Old(j, |a|, |m|, 1);
      assert fs[i'].outer >= fs[j'].outer;
    }
  }

  /** Where an element of `a + m + b` was in a list that had `n` elements instead of `m`. */
  function Old(i: nat, a: nat, m: nat, n: nat): (j: nat) {
    if i < a + m then i else i - m + n
  }

  lemma RisingMiddle(a: seq<Flight>, m: seq<Flight>, m': seq<Flight>, b: seq<Flight>)
    requires Rising(a + m + b) && |m'| == 1
    requires forall i | 0 <= i < |a| :: a[i].outer <= m'[0].outer
    requires forall i | 0 <= i < |b| :: m'[0].outer <= b[i].outer
    ensures Rising(a + m' + b)
  {
    var fs, gs := a + m + b, a + m' + b;
    forall i, j | 0 <= i < j < |gs|
      ensures gs[i].outer <= gs[j].outer
    {
      var i', j' := Old(i, |a|, 1, |m|), Old(j, |a|, 1, |m|);
      if i != |a| && j != |a| {
        assert fs[i'].outer <= fs[j'].outer;
      }
    }
  }

  lemma SendKeeps(prim: Primitives, c: Channel, m: Message)
    requires InStep(prim, c) && Falling(c.flights) && |c.writer| > 0 && m.Fits()
    ensures var c' := Write(prim, c, |c.flights|, 0, |c.writer| - 1, m); InStep(prim, c') && Falling(c'.flights)
  {
    WriteKeeps(prim, c, |c.flights|, 0, |c.writer| - 1, m);
  }

  lemma PassKeeps(prim: Primitives, c: Channel, h: nat)
    requires InStep(prim, c) && Falling(c.flights) && LinkHead(c.flights, h) < |c.flights| && h < |c.reader|
    requires var f := c.flights[LinkHead(c.flights, h)];
             h < f.edge ==> !Recognises(prim, c.reader[h], Inside(prim, c.reader, f))
    ensures var c' := Shed(prim, c, LinkHead(c.flights, h)); InStep(prim, c') && Falling(c'.flights)
  {
    var at := LinkHead(c.flights, h);
    ShedKeeps(prim, c, at);
    var a, f, b := Around(c.flights, at);
    FallingMiddle(a, f, Turn(prim, c.reader, f).1, b);
  }

  lemma BeyondLinkEnd(fs: seq<Flight>, h: nat, at: nat)
    requires Rising(fs) && at <= |fs| && (at < |fs| ==> fs[at].outer > h)
    ensures forall i | at <= i < |fs| :: fs[i].outer > h
  {
  }

  lemma RisingInsert(fs: seq<Flight>, f: Flight, at: nat)
    requires Rising(fs) && at <= |fs|
    requires forall i | 0 <= i < at :: fs[i].outer <= f.outer
    requires forall i | at <= i < |fs| :: fs[i].outer > f.outer
    ensures Rising(fs[..at] + [f] + fs[at..])
  {
    assert fs == fs[..at] + [] + fs[at..];
    RisingMiddle(fs[..at], [], [f], fs[at..]);
  }

  lemma ReplyKeeps(prim: Primitives, c: Channel, h: nat, m: Message)
    requires InStep(prim, c) && Rising(c.flights) && h < |c.writer| && m.Fits()
    ensures var c' := Write(prim, c, LinkEnd(c.flights, h), h, h, m); InStep(prim, c') && Rising(c'.flights)
  {
    var at := LinkEnd(c.flights, h);
    BeyondLinkEnd(c.flights, h, at);
    RisingInsert(c.flights, Written(prim, c.writer, h, h, m), at);
    WriteKeeps(prim, c, at, h, h, m);
  }

  lemma HandRising(fs: seq<Flight>, h: nat, f': Flight)
    requires Rising(fs) && LinkHead(fs, h + 1) < |fs| && f'.outer == h
    ensures var at := LinkHead(fs, h + 1);
            Rising(fs[..at] + [f'] + fs[at + 1..]) && forall i | at < i < |fs| :: h + 1 <= fs[i].outer
  {
    var at := LinkHead(fs, h + 1);
    var a, f, b := Around(fs, at);
    forall i | 0 <= i < at
      ensures a[i].outer <= h
    {
      assert fs[i].outer <= fs[at].outer;
    }
    forall i | at < i < |fs|
      ensures h + 1 <= fs[i].outer
    {
      assert fs[at].outer <= fs[i].outer;
    }
    RisingMiddle(a, [f], [f'], b);
  }

  lemma HandKeeps(prim: Primitives, c: Channel, h: nat)
    requires InStep(prim, c) && Rising(c.flights) && LinkHead(c.flights, h + 1) < |c.flights| && h < |c.writer|
    ensures var c' := Cover(prim, c, LinkHead(c.flights, h + 1)); InStep(prim, c') && Rising(c'.flights)
  {
    HandRises(prim, c, h);
    CoverKeeps(prim, c, LinkHead(c.flights, h + 1));
  }

  lemma HandRises(prim: Primitives, c: Channel, h: nat)
    requires Rising(c.flights) && LinkHead(c.flights, h + 1) < |c.flights| && h < |c.writer|
    ensures Rising(Cover(prim, c, LinkHead(c.flights, h + 1)).flights)
  {
    HandRising(c.flights, h, Covered(prim, c.writer, c.flights[LinkHead(c.flights, h + 1)]));
  }

  lemma ReceiveKeeps(prim: Primitives, c: Channel)
    requires InStep(prim, c) && Rising(c.flights) && c.flights != [] && c.flights[0].outer == 0
    requires c.flights[0].edge < |c.reader| ==> !Accident(prim, c.reader, 0, c.flights[0].edge, c.flights[0].wire)
    ensures InStep(prim, Take(prim, c)) && Rising(Take(prim, c).flights)
  {
    SealedRange(prim, c.reader, c.flights);
    TakeKeeps(prim, c);
  }

  lemma FwdKept(prim: Primitives, s: Circuit, c: Channel)
    requires Good(prim, s) && InStep(prim, c) && Falling(c.flights) && |c.reader| == |s.fwd.reader|
    ensures Good(prim, s.(fwd := c))
  {
  }

  lemma ForwardKeeps(prim: Primitives, s: Circuit, e: Event)
    requires Good(prim, s) && Enabled(s, e) && NoAccident(prim, s, e) && (e.Send? || e.Pass?)
    ensures Good(prim, Step(prim, s, e))
  {
    match e
    case Send(m) => SendKeeps(prim, s.fwd, m);
    case Pass(h) => PassKeeps(prim, s.fwd, h);
    FwdKept(prim, s, Step(prim, s, e).fwd);
  }

  lemma BackKept(prim: Primitives, s: Circuit, c: Channel)
    requires Good(prim, s) && InStep(prim, c) && Rising(c.flights) && |c.reader| == |s.back.reader|
    ensures Good(prim, s.(back := c))
  {
  }

  lemma BackwardKeeps(prim: Primitives, s: Circuit, e: Event)
    requires Good(prim, s) && Enabled(s, e) && NoAccident(prim, s, e) && (e.Reply? || e.Hand? || e.Receive?)
    ensures Good(prim, Step(prim, s, e))
  {
    match e
    case Reply(h, m) => ReplyKeeps(prim, s.back, h, m);
    case Hand(h) => HandKeeps(prim, s.back, h);
    case Receive => ReceiveKeeps(prim, s.back);
    BackKept(prim, s, Step(prim, s, e).back);
  }

  /** Every step of the protocol keeps both directions of every hop in step. */
  lemma StepKeeps(prim: Primitives, s: Circuit, e: Event)
    requires Good(prim, s) && Enabled(s, e) && NoAccident(prim, s, e)
    ensures Good(prim, Step(prim, s, e))
  {
    match e
    case Send(_) | Pass(_) => ForwardKeeps(prim, s, e);
    case Extend(secret) =>
      GrowKeeps(prim, s.fwd, ForwardLayer(secret));
      GrowKeeps(prim, s.back, BackwardLayer(secret));
    case _ => BackwardKeeps(prim, s, e);
  }

  // ---- whole runs ----

  ghost predicate IsRun(prim: Primitives, s: Circuit, es: seq<Event>, t: Circuit)
    decreases |es|
  {
    if es == [] then s == t
    else exists u :: Goes(prim, s, es[0], u) && IsRun(prim, u, es[1..], t)
  }

  /** One step without an accident. */
  ghost predicate Goes(prim: Primitives, s: Circuit, e: Event, t: Circuit) {
    Enabled(s, e) && NoAccident(prim, s, e) && t == Step(prim, s, e)
  }

  lemma NoCircuitGood(prim: Primitives)
    ensures Good(prim, NO_CIRCUIT)
  {
  }

  lemma {:induction false} RunKeeps(prim: Primitives, s: Circuit, es: seq<Event>, t: Circuit)
    requires Good(prim, s) && IsRun(prim, s, es, t)
    ensures Good(prim, t)
    decreases |es|
  {
    if es != [] {
      var u :| Goes(prim, s, es[0], u) && IsRun(prim, u, es[1..], t);
      StepKeeps(prim, s, es[0]);
      RunKeeps(prim, u, es[1..], t);
    }
  }

  /**
   Backward correctness in every reachable state: the next cell the client reads is
   attributed to the hop that sent it, with the exact bytes that hop wrote.
  */
  lemma NextReceived(prim: Primitives, es: seq<Event>, s: Circuit)
    requires IsRun(prim, NO_CIRCUIT, es, s) && Enabled(s, Receive) && NoAccident(prim, s, Receive)
    ensures var v := TakeVerdict(prim, s.back);
            && v.Recognised?
            && v.plain == s.back.flights[0].plain && v.hop == s.back.flights[0].edge
            && Of(s.back.got, v.hop) + [v.plain] <= Of(s.back.sent, v.hop)
  {
    NoCircuitGood(prim);
    RunKeeps(prim, NO_CIRCUIT, es, s);
    SealedRange(prim, s.back.reader, s.back.flights);
    TakeKeeps(prim, s.back);
    var v := TakeVerdict(prim, s.back);
    OfAppend(s.back.got, [Note(v.hop, v.plain)], v.hop);
    var t := Take(prim, s.back);
    assert Of(s.back.sent, v.hop) == Of(t.got, v.hop) + Of(Notes(t.flights), v.hop);
    assert [Note(v.hop, v.plain)][1..] == [];
  }

  /** In every reachable state each hop has received a prefix of what was sent to it, and the client of what it sent. */
  lemma Delivery(prim: Primitives, es: seq<Event>, s: Circuit, h: nat)
    requires IsRun(prim, NO_CIRCUIT, es, s)
    ensures Of(s.fwd.got, h) <= Of(s.fwd.sent, h)
    ensures Of(s.back.got, h) <= Of(s.back.sent, h)
    ensures s.fwd.flights == [] ==> Of(s.fwd.got, h) == Of(s.fwd.sent, h) && s.fwd.writer == s.fwd.reader
    ensures s.back.flights == [] ==> Of(s.back.got, h) == Of(s.back.sent, h) && s.back.writer == s.back.reader
  {
    NoCircuitGood(prim);
    RunKeeps(prim, NO_CIRCUIT, es, s);
    Quiet(prim, s.fwd, h);
    Quiet(prim, s.back, h);
  }

  /** With nothing in flight the two ends hold the same cipher positions and the same digest histories. */
  lemma Quiet(prim: Primitives, c: Channel, h: nat)
    requires InStep(prim, c)
    ensures Of(c.got, h) <= Of(c.sent, h)
    ensures c.flights == [] ==> Of(c.got, h) == Of(c.sent, h) && c.writer == c.reader
  {
    if c.flights == [] {
      assert Notes(c.flights) == [];
      forall k | 0 <= k < |c.reader|
        ensures c.writer[k] == c.reader[k]
      {
        Untouched(c.reader[k], [], k);
      }
    }
  }

  lemma ForwardMoves(prim: Primitives, s: Circuit, i: nat)
    requires Good(prim, s) && i < |s.fwd.flights|
    ensures Enabled(s, Pass(s.fwd.flights[i].outer))
  {
    SealedRange(prim, s.fwd.reader, s.fwd.flights);
    assert s.fwd.flights[i].outer <= s.fwd.flights[i].edge < |s.fwd.reader|;
  }

  lemma BackwardMoves(prim: Primitives, s: Circuit, i: nat)
    requires Good(prim, s) && i < |s.back.flights|
    ensures var h := s.back.flights[i].outer; Enabled(s, if h == 0 then Receive else Hand(h - 1))
  {
    SealedRange(prim, s.back.reader, s.back.flights);
    assert s.back.flights[i].outer <= s.back.flights[i].edge < |s.back.reader|;
    assert i > 0 ==> s.back.flights[0].outer <= s.back.flights[i].outer;
  }

  /**
   In no reachable state does anything stand still: every cell in flight is on a link whose oldest
   cell can be taken, any hop can be written to or reply, and the circuit can always be extended.
  */
  lemma NeverStuck(prim: Primitives, es: seq<Event>, s: Circuit, h: nat, m: Message, secret: bytes)
    requires IsRun(prim, NO_CIRCUIT, es, s)
    ensures forall i | 0 <= i < |s.fwd.flights| :: Enabled(s, Pass(s.fwd.flights[i].outer))
    ensures forall i | 0 <= i < |s.back.flights| ::
      var from := s.back.flights[i].outer; Enabled(s, if from == 0 then Receive else Hand(from - 1))
    ensures h < |s.fwd.writer| && m.streamId < 0x1_0000 && |m.payload| <= 498 ==>
      Enabled(s, Send(m)) && Enabled(s, Reply(h, m))
    ensures |secret| == 72 ==> Enabled(s, Extend(secret))
  {
    NoCircuitGood(prim);
    RunKeeps(prim, NO_CIRCUIT, es, s);
    SameHops(prim, s);
    forall i | 0 <= i < |s.fwd.flights|
      ensures Enabled(s, Pass(s.fwd.flights[i].outer))
    {
      ForwardMoves(prim, s, i);
    }
    forall i | 0 <= i < |s.back.flights|
      ensures var from := s.back.flights[i].outer; Enabled(s, if from == 0 then Receive else Hand(from - 1))
    {
      BackwardMoves(prim, s, i);
    }
  }

  lemma SameHops(prim: Primitives, s: Circuit)
    requires Good(prim, s)
    ensures |s.fwd.writer| == |s.fwd.reader| == |s.back.writer| == |s.back.reader|
  {
  }
}
