/**
 The receiver thread's loop over the hops, which are in a list that another thread may append to
 meanwhile: every schedule of it, with threads that send and relays at work, is one of `SendLock`.
*/
module ReceiveLoop {
  import opened Sequences
  import opened Bytes
  import opened RelayFormat
  import opened Layers
  import opened OnionChannel
  import opened OnionSteps
  import opened OnionRun
  import Lock = SendLock

  /** Where the receiver thread is in `_decrypt`: the cell's bytes after the hops before `next`, or the loop's verdict. */
  datatype Receiver =
    | Idle
    | Peeling(next: nat, data: bytes)
    | Decided(v: Peeled)

  /** The cell under way counts as on its link until the loop is through; nobody else takes cells from that link. */
  datatype System = System(sys: Lock.System, rec: Receiver)

  datatype Move =
    | Begin
    | PeelHop
    | Finish
    | Base(mv: Lock.Move)

  const START: System := System(Lock.START, Idle)

  /** The iterator looks at the list as it is: it goes on to a hop that was appended after it began. */
  predicate Can(s: System, mv: Move) {
    match mv
    case Begin => s.rec.Idle? && Enabled(s.sys.net, Receive)
    case PeelHop => s.rec.Peeling? && s.rec.next < |s.sys.net.back.reader|
    case Finish =>
      && s.sys.net.back.flights != []
      && (s.rec.Decided? || (s.rec.Peeling? && s.rec.next == |s.sys.net.back.reader|))
    case Base(mv) => Lock.Can(s.sys, mv) && mv != Lock.Other(Receive)
  }

  function SetReader(s: Lock.System, ls: seq<Layer>): (s': Lock.System) {
    s.(net := s.net.(back := s.net.back.(reader := ls)))
  }

  /** The cell leaves its link; what was recognised is handed on. */
  function Taken(c: Channel, v: Peeled): (c': Channel)
    requires c.flights != []
  {
    Channel(c.writer, c.reader, c.flights[1..], c.sent, c.got + (if v.Recognised? then [Note(v.hop, v.plain)] else []))
  }

  function Verdict(r: Receiver): (v: Peeled)
    requires !r.Idle?
  {
    if r.Decided? then r.v else Unrecognised(r.data)
  }

  function Next(prim: Primitives, s: System, mv: Move): (s': System)
    requires Can(s, mv)
  {
    match mv
    case Begin => s.(rec := Peeling(0, s.sys.net.back.flights[0].wire))
    case PeelHop =>
      var ls, i := s.sys.net.back.reader, s.rec.next;
      var (l, v) := PeelAt(prim, ls[i], i, s.rec.data);
      System(SetReader(s.sys, ls[i := l]), if v.Unrecognised? then Peeling(i + 1, v.rest) else Decided(v))
    case Finish =>
      System(s.sys.(net := s.sys.net.(back := Taken(s.sys.net.back, Verdict(s.rec)))), Idle)
    case Base(mv) => s.(sys := Lock.Next(prim, s.sys, mv))
  }

  /** The hypothesis of the circuit: for the receiver, when it takes up a cell. */
  predicate Lucky(prim: Primitives, s: System, mv: Move)
    requires Can(s, mv)
  {
    match mv
    case Begin => NoAccident(prim, s.sys.net, Receive)
    case Base(mv) => Lock.Lucky(prim, s.sys, mv)
    case _ => true
  }

  // ---- a state of the loop, and the state in which it has not begun ----

  /** However many hops are appended, the loop on `wire` gets to hop `i` with `data`. */
  ghost predicate GetsTo(prim: Primitives, ls: seq<Layer>, wire: bytes, i: nat, data: bytes) {
    && i <= |ls| && |data| == |wire|
    && forall more: seq<Layer> :: Peel(prim, ls + more, 0, wire) == Peel(prim, ls + more, i, data)
  }

  ghost predicate Decides(prim: Primitives, ls: seq<Layer>, wire: bytes, v: Peeled) {
    && !v.Unrecognised? && v.hop < |ls| && (v.Recognised? ==> |v.plain| == CELL_LEN)
    && forall more: seq<Layer> :: Peel(prim, ls + more, 0, wire) == v
  }

  /** `ls` are the layers that the loop has changed, `rs` those as they were. */
  ghost predicate InLoop(prim: Primitives, rs: seq<Layer>, wire: bytes, ls: seq<Layer>, r: Receiver) {
    match r
    case Idle => ls == rs
    case Peeling(i, data) => GetsTo(prim, rs, wire, i, data) && ls == Spend(rs, 0, i, |wire|)
    case Decided(v) => Decides(prim, rs, wire, v) && ls == Settle(rs, |wire|, v)
  }

  /** `a` is `s` with the loop not begun. */
  ghost predicate Matches(prim: Primitives, s: System, a: Lock.System) {
    && Lock.Inv(a) && Good(prim, Lock.Abstract(prim, a))
    && s.sys == SetReader(a, s.sys.net.back.reader)
    && (s.rec.Idle? ==> s.sys == a)
    && (!s.rec.Idle? ==>
          && Enabled(a.net, Receive) && NoAccident(prim, a.net, Receive)
          && InLoop(prim, a.net.back.reader, a.net.back.flights[0].wire, s.sys.net.back.reader, s.rec))
  }

  // ---- the loop's own moves ----

  lemma BeginsAt(prim: Primitives, rs: seq<Layer>, wire: bytes)
    ensures InLoop(prim, rs, wire, rs, Peeling(0, wire))
  {
    assert Spend(rs, 0, 0, |wire|) == rs;
  }

  lemma PeelsOn(prim: Primitives, rs: seq<Layer>, wire: bytes, ls: seq<Layer>, i: nat, data: bytes)
    requires InLoop(prim, rs, wire, ls, Peeling(i, data)) && i < |rs|
    ensures var (l, v) := PeelAt(prim, ls[i], i, data);
            InLoop(prim, rs, wire, ls[i := l], if v.Unrecognised? then Peeling(i + 1, v.rest) else Decided(v))
  {
    var (l, v) := PeelAt(prim, rs[i], i, data);
    PeelUnfolds(prim, rs, i, data);
    forall more: seq<Layer>
      ensures if v.Unrecognised? then Peel(prim, rs + more, 0, wire) == Peel(prim, rs + more, i + 1, v.rest)
              else Peel(prim, rs + more, 0, wire) == v
    {
      assert (rs + more)[i] == rs[i];
      PeelUnfolds(prim, rs + more, i, data);
    }
  }

  lemma LoopEnds(prim: Primitives, rs: seq<Layer>, wire: bytes, ls: seq<Layer>, r: Receiver)
    requires !r.Idle? && InLoop(prim, rs, wire, ls, r) && (r.Peeling? ==> r.next == |rs|)
    ensures Verdict(r) == Peel(prim, rs, 0, wire) && ls == Settle(rs, |wire|, Peel(prim, rs, 0, wire))
  {
    assert rs + [] == rs;
    assert Peel(prim, rs + [], 0, wire) == Peel(prim, rs, 0, wire);
  }

  lemma GetsToGrows(prim: Primitives, rs: seq<Layer>, wire: bytes, i: nat, data: bytes, l: Layer)
    requires GetsTo(prim, rs, wire, i, data)
    ensures GetsTo(prim, rs + [l], wire, i, data)
  {
    forall more: seq<Layer>
      ensures Peel(prim, rs + [l] + more, 0, wire) == Peel(prim, rs + [l] + more, i, data)
    {
      Assoc(rs, [l], more);
      assert Peel(prim, rs + ([l] + more), 0, wire) == Peel(prim, rs + ([l] + more), i, data);
    }
  }

  lemma DecidesGrows(prim: Primitives, rs: seq<Layer>, wire: bytes, v: Peeled, l: Layer)
    requires Decides(prim, rs, wire, v)
    ensures Decides(prim, rs + [l], wire, v)
  {
    forall more: seq<Layer>
      ensures Peel(prim, rs + [l] + more, 0, wire) == v
    {
      Assoc(rs, [l], more);
      assert Peel(prim, rs + ([l] + more), 0, wire) == v;
    }
  }

  /** A hop appended while the loop runs is what it would have been before. */
  lemma LoopGrows(prim: Primitives, rs: seq<Layer>, wire: bytes, ls: seq<Layer>, r: Receiver, l: Layer)
    requires InLoop(prim, rs, wire, ls, r)
    ensures InLoop(prim, rs + [l], wire, ls + [l], r)
  {
    match r
    case Idle =>
    case Peeling(i, data) => GetsToGrows(prim, rs, wire, i, data, l);
    case Decided(v) => DecidesGrows(prim, rs, wire, v, l);
  }

  // ---- the others' moves ----

  /** What the machine of `SendLock` does for a move. */
  function Image(mv: Move): (ms: seq<Lock.Move>) {
    match mv
    case Finish => [Lock.Other(Receive)]
    case Base(mv) => [mv]
    case _ => []
  }

  lemma StillGood(prim: Primitives, a: Lock.System, mv: Lock.Move)
    requires Lock.Inv(a) && Good(prim, Lock.Abstract(prim, a)) && Lock.Can(a, mv) && Lock.Lucky(prim, a, mv)
    ensures Lock.Inv(Lock.Next(prim, a, mv)) && Good(prim, Lock.Abstract(prim, Lock.Next(prim, a, mv)))
  {
    Lock.MoveRefines(prim, a, mv);
    match Lock.Image(a, mv)
    case None =>
    case Some(e) => StepKeeps(prim, Lock.Abstract(prim, a), e);
  }

  /** The cell that the receiver holds stays first on its link. */
  lemma HeadStays(prim: Primitives, c: Circuit, e: Event)
    requires Enabled(c, Receive) && Enabled(c, e) && e != Receive
    ensures var fs := Step(prim, c, e).back.flights; fs != [] && fs[0] == c.back.flights[0]
  {
    match e
    case Reply(h, m) =>
      var at := LinkEnd(c.back.flights, h);
      assert at > 0;
    case Hand(h) =>
      var at := LinkHead(c.back.flights, h + 1);
      assert at > 0;
    case _ =>
  }

  lemma {:induction false} AccidentFrame(prim: Primitives, rs: seq<Layer>, l: Layer, lo: nat, edge: nat, data: bytes)
    requires edge < |rs|
    ensures Accident(prim, rs + [l], lo, edge, data) == Accident(prim, rs, lo, edge, data)
    decreases edge - lo
  {
    if lo < edge {
      AccidentFrame(prim, rs, l, lo + 1, edge, Crypt(prim, rs[lo].key, rs[lo].pos, data));
    }
  }

  lemma EdgeInRange(prim: Primitives, a: Lock.System)
    requires Lock.Inv(a) && Good(prim, Lock.Abstract(prim, a)) && a.net.back.flights != []
    ensures a.net.back.flights[0].edge < |a.net.back.reader|
  {
    SealedRange(prim, a.net.back.reader, a.net.back.flights);
  }

  /** An event that is not a receipt does the same to circuits that differ in the layers read backward only. */
  lemma ReaderApart(prim: Primitives, c: Circuit, ls: seq<Layer>, e: Event)
    requires e != Receive && Enabled(c, e)
    ensures var d := c.(back := c.back.(reader := ls));
            && Enabled(d, e)
            && Step(prim, d, e) == Step(prim, c, e).(back := Step(prim, c, e).back.(reader := Step(prim, d, e).back.reader))
            && Step(prim, d, e).back.reader == (if e.Extend? then ls + [BackwardLayer(e.secret)] else ls)
            && Step(prim, c, e).back.reader == (if e.Extend? then c.back.reader + [BackwardLayer(e.secret)] else c.back.reader)
  {
  }

  lemma BaseCommutes(prim: Primitives, a: Lock.System, ls: seq<Layer>, mv: Lock.Move)
    requires mv != Lock.Other(Receive) && Lock.Can(SetReader(a, ls), mv)
    ensures Lock.Can(a, mv)
    ensures Lock.Lucky(prim, SetReader(a, ls), mv) == Lock.Lucky(prim, a, mv)
    ensures var t, b := Lock.Next(prim, SetReader(a, ls), mv), Lock.Next(prim, a, mv);
            && t == SetReader(b, t.net.back.reader)
            && if mv.Other? && mv.e.Extend? then
                 && t.net.back.reader == ls + [BackwardLayer(mv.e.secret)]
                 && b.net.back.reader == a.net.back.reader + [BackwardLayer(mv.e.secret)]
               else t.net.back.reader == ls && b.net.back.reader == a.net.back.reader
  {
    match mv
    case Other(e) =>
      var c := SetReader(a, ls).net;
      assert c.(back := c.back.(reader := a.net.back.reader)) == a.net;
      ReaderApart(prim, a.net, ls, e);
    case _ =>
  }

  lemma BaseHead(prim: Primitives, a: Lock.System, mv: Lock.Move)
    requires Enabled(a.net, Receive) && Lock.Can(a, mv) && mv != Lock.Other(Receive)
    ensures var fs := Lock.Next(prim, a, mv).net.back.flights; fs != [] && fs[0] == a.net.back.flights[0]
  {
    if mv.Other? {
      HeadStays(prim, a.net, mv.e);
    }
  }

  lemma BaseMatches(prim: Primitives, s: System, a: Lock.System, mv: Lock.Move)
    requires Matches(prim, s, a) && Can(s, Base(mv)) && Lucky(prim, s, Base(mv))
    ensures Lock.Can(a, mv) && Lock.Lucky(prim, a, mv)
    ensures Matches(prim, Next(prim, s, Base(mv)), Lock.Next(prim, a, mv))
  {
    var ls, rs := s.sys.net.back.reader, a.net.back.reader;
    BaseCommutes(prim, a, ls, mv);
    StillGood(prim, a, mv);
    if !s.rec.Idle? {
      BaseHead(prim, a, mv);
      var f := a.net.back.flights[0];
      if mv.Other? && mv.e.Extend? {
        var l := BackwardLayer(mv.e.secret);
        LoopGrows(prim, rs, f.wire, ls, s.rec, l);
        EdgeInRange(prim, a);
        AccidentFrame(prim, rs, l, 0, f.edge, f.wire);
      }
    }
  }

  lemma PeelMatches(prim: Primitives, s: System, a: Lock.System)
    requires Matches(prim, s, a) && Can(s, PeelHop)
    ensures Matches(prim, Next(prim, s, PeelHop), a)
  {
    PeelsOn(prim, a.net.back.reader, a.net.back.flights[0].wire, s.sys.net.back.reader, s.rec.next, s.rec.data);
  }

  /** When the loop ends, its verdict is the sender and the exact bytes, whatever was appended meanwhile. */
  lemma VerdictRight(prim: Primitives, s: System, a: Lock.System)
    requires Matches(prim, s, a) && Can(s, Finish)
    ensures var f := s.sys.net.back.flights[0]; Verdict(s.rec) == Recognised(f.edge, f.plain)
  {
    var c := a.net.back;
    LoopEnds(prim, c.reader, c.flights[0].wire, s.sys.net.back.reader, s.rec);
    EdgeInRange(prim, a);
    assert Lock.Abstract(prim, a).back == c;
    TakeKeeps(prim, c);
  }

  /** And then the whole loop was one `Receive`. */
  lemma FinishMatches(prim: Primitives, s: System, a: Lock.System)
    requires Matches(prim, s, a) && Can(s, Finish)
    ensures Lock.Can(a, Lock.Other(Receive)) && Lock.Lucky(prim, a, Lock.Other(Receive))
    ensures Matches(prim, Next(prim, s, Finish), Lock.Next(prim, a, Lock.Other(Receive)))
  {
    var c := a.net.back;
    LoopEnds(prim, c.reader, c.flights[0].wire, s.sys.net.back.reader, s.rec);
    StillGood(prim, a, Lock.Other(Receive));
    assert Take(prim, c) == Taken(s.sys.net.back, Verdict(s.rec));
  }

  // ---- every schedule ----

  ghost predicate IsSchedule(prim: Primitives, s: System, ms: seq<Move>)
    decreases |ms|
  {
    ms == [] || (Can(s, ms[0]) && Lucky(prim, s, ms[0]) && IsSchedule(prim, Next(prim, s, ms[0]), ms[1..]))
  }

  ghost function After(prim: Primitives, s: System, ms: seq<Move>): (t: System)
    requires IsSchedule(prim, s, ms)
    decreases |ms|
  {
    if ms == [] then s else After(prim, Next(prim, s, ms[0]), ms[1..])
  }

  /** The same schedule with each loop over the hops as one move, where it ends. */
  function Whole(ms: seq<Move>): (r: seq<Lock.Move>) {
    if ms == [] then [] else Image(ms[0]) + Whole(ms[1..])
  }

  lemma MoveMatches(prim: Primitives, s: System, a: Lock.System, mv: Move) returns (b: Lock.System)
    requires Matches(prim, s, a) && Can(s, mv) && Lucky(prim, s, mv)
    ensures Matches(prim, Next(prim, s, mv), b)
    ensures Image(mv) == [] ==> b == a
    ensures Image(mv) != [] ==>
      Lock.Can(a, Image(mv)[0]) && Lock.Lucky(prim, a, Image(mv)[0]) && b == Lock.Next(prim, a, Image(mv)[0])
  {
    match mv
    case Begin =>
      BeginsAt(prim, a.net.back.reader, a.net.back.flights[0].wire);
      b := a;
    case PeelHop =>
      PeelMatches(prim, s, a);
      b := a;
    case Finish =>
      FinishMatches(prim, s, a);
      b := Lock.Next(prim, a, Lock.Other(Receive));
    case Base(m) =>
      BaseMatches(prim, s, a, m);
      b := Lock.Next(prim, a, m);
  }

  lemma LockFirst(prim: Primitives, a: Lock.System, m: Lock.Move, ms: seq<Lock.Move>)
    requires Lock.Can(a, m) && Lock.Lucky(prim, a, m) && Lock.IsSchedule(prim, Lock.Next(prim, a, m), ms)
    ensures Lock.IsSchedule(prim, a, [m] + ms)
    ensures Lock.After(prim, a, [m] + ms) == Lock.After(prim, Lock.Next(prim, a, m), ms)
  {
    assert ([m] + ms)[0] == m && ([m] + ms)[1..] == ms;
  }

  lemma {:induction false} ScheduleMatches(prim: Primitives, s: System, a: Lock.System, ms: seq<Move>)
    requires Matches(prim, s, a) && IsSchedule(prim, s, ms)
    ensures Lock.IsSchedule(prim, a, Whole(ms))
    ensures Matches(prim, After(prim, s, ms), Lock.After(prim, a, Whole(ms)))
    decreases |ms|
  {
    if ms != [] {
      var b := MoveMatches(prim, s, a, ms[0]);
      ScheduleMatches(prim, Next(prim, s, ms[0]), b, ms[1..]);
      if Image(ms[0]) == [] {
        assert Whole(ms) == Whole(ms[1..]);
      } else {
        assert Whole(ms) == [Image(ms[0])[0]] + Whole(ms[1..]);
        LockFirst(prim, a, Image(ms[0])[0], Whole(ms[1..]));
      }
    }
  }

  lemma StartMatches(prim: Primitives)
    ensures Matches(prim, START, Lock.START)
  {
    Lock.StartInv(prim);
    NoCircuitGood(prim);
  }

  /**
   Every schedule of threads that send, of the receiver's turns, of relays and of hops appended at any
   moment is a schedule of `SendLock`: between two cells the state is the same, and while a cell is
   being decrypted it is the one in which that has not begun.
  */
  lemma EverySchedule(prim: Primitives, ms: seq<Move>, s: System)
    requires IsSchedule(prim, START, ms) && s == After(prim, START, ms)
    ensures Lock.IsSchedule(prim, Lock.START, Whole(ms))
    ensures Matches(prim, s, Lock.After(prim, Lock.START, Whole(ms)))
    ensures s.rec.Idle? ==> s.sys == Lock.After(prim, Lock.START, Whole(ms))
    ensures Can(s, Finish) ==> var f := s.sys.net.back.flights[0]; Verdict(s.rec) == Recognised(f.edge, f.plain)
  {
    StartMatches(prim);
    ScheduleMatches(prim, START, Lock.START, ms);
    if Can(s, Finish) {
      VerdictRight(prim, s, Lock.After(prim, Lock.START, Whole(ms)));
    }
  }

  /** The receiver always has a move: to begin with the oldest cell when there is one, to go on, or to end the loop. */
  lemma NeverStuck(prim: Primitives, ms: seq<Move>, s: System)
    requires IsSchedule(prim, START, ms) && s == After(prim, START, ms)
    ensures s.rec.Idle? && s.sys.net.back.flights != [] && s.sys.net.back.flights[0].outer == 0 ==> Can(s, Begin)
    ensures !s.rec.Idle? ==> Can(s, PeelHop) || Can(s, Finish)
  {
    EverySchedule(prim, ms, s);
    var a := Lock.After(prim, Lock.START, Whole(ms));
    assert Matches(prim, s, a);
  }
}
