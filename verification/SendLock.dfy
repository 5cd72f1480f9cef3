/**
 Threads that send on one circuit. Encryption goes hop by hop over the shared layers, but under the
 send lock; relays, the receiver and extensions move in between. Every schedule is a run of the circuit.
*/
module SendLock {
  import opened Sequences
  import opened Bytes
  import opened RelayFormat
  import opened Layers
  import opened OnionChannel
  import opened OnionSteps
  import opened OnionRun

  /** A cell that its last hop has stamped: the plaintext, and the bytes under the layers put on so far. */
  datatype Cell = Cell(plain: bytes, wire: bytes)

  /** Where a thread is in `send_relay`. */
  datatype Thread =
    | Outside
    | Entered(m: Message)                                                  // holds the lock
    | Encrypting(m: Message, hops: nat, left: nat, cell: Option<Cell>)     // over the hops it saw at the start
    | Leaving                                                              // written, or failed

  /** `net.fwd.writer` are the layers as they are in place; `wire` is all that was ever written. */
  datatype System = System(net: Circuit, lock: Option<nat>, threads: map<nat, Thread>, wire: seq<bytes>)

  datatype Move =
    | Acquire(t: nat, m: Message)
    | Snapshot(t: nat)
    | EncryptHop(t: nat)
    | Fail(t: nat)
    | Put(t: nat)
    | Release(t: nat)
    | Other(e: Event)

  const START: System := System(NO_CIRCUIT, None, map[], [])

  function At(s: System, t: nat): (p: Thread) {
    if t in s.threads then s.threads[t] else Outside
  }

  /** Only `Acquire` looks at the lock; all else follows from where the thread is. */
  predicate Can(s: System, mv: Move) {
    match mv
    case Acquire(t, _) => At(s, t) == Outside && s.lock == None
    case Snapshot(t) => At(s, t).Entered? && |s.net.fwd.writer| > 0
    case EncryptHop(t) =>
      var p := At(s, t);
      p.Encrypting? && 0 < p.left <= |s.net.fwd.writer| && p.m.Fits()
    case Fail(t) => At(s, t).Encrypting? && At(s, t).left == At(s, t).hops && !At(s, t).m.Fits()
    case Put(t) => At(s, t).Encrypting? && At(s, t).left == 0 && At(s, t).hops > 0 && At(s, t).cell.Some?
    case Release(t) => At(s, t).Leaving?
    case Other(e) => !e.Send? && Enabled(s.net, e)
  }

  /** One hop's turn: the first to get the cell stamps it, and each adds its layer. */
  function Hop(prim: Primitives, l: Layer, m: Message, c: Option<Cell>): (r: (Layer, Cell))
    requires m.Fits()
  {
    match c
    case None =>
      var plain := Stamp(prim, l, m.num, m.streamId, m.payload);
      (Layer(l.key, l.pos + CELL_LEN, l.hist + Cleared(plain)), Cell(plain, Crypt(prim, l.key, l.pos, plain)))
    case Some(c) => (l.(pos := l.pos + |c.wire|), c.(wire := Crypt(prim, l.key, l.pos, c.wire)))
  }

  function Queued(f: Channel, hops: nat, c: Cell): (f': Channel)
    requires hops > 0
  {
    f.(flights := f.flights + [Flight(0, hops - 1, c.plain, c.wire)], sent := f.sent + [Note(hops - 1, c.plain)])
  }

  function Moved(s: System, t: nat, p: Thread): (s': System) {
    s.(threads := s.threads[t := p])
  }

  function Next(prim: Primitives, s: System, mv: Move): (s': System)
    requires Can(s, mv)
  {
    match mv
    case Acquire(t, m) => Moved(s, t, Entered(m)).(lock := Some(t))
    case Snapshot(t) =>
      var n := |s.net.fwd.writer|;
      Moved(s, t, Encrypting(At(s, t).m, n, n, None))
    case EncryptHop(t) =>
      var Encrypting(m, hops, left, cell) := At(s, t);
      var w := s.net.fwd.writer;
      var (l, c) := Hop(prim, w[left - 1], m, cell);
      Moved(s, t, Encrypting(m, hops, left - 1, Some(c)))
        .(net := s.net.(fwd := s.net.fwd.(writer := w[left - 1 := l])))
    case Fail(t) => Moved(s, t, Leaving)
    case Put(t) =>
      var Encrypting(_, hops, _, cell) := At(s, t);
      Moved(s, t, Leaving)
        .(net := s.net.(fwd := Queued(s.net.fwd, hops, cell.value)), wire := s.wire + [cell.value.wire])
    case Release(t) => Moved(s, t, Outside).(lock := None)
    case Other(e) => s.(net := Step(prim, s.net, e))
  }

  // ---- the state as if the section under way were through ----

  /** The turns of the hops `0..left`, last one first. */
  function Rest(prim: Primitives, ls: seq<Layer>, m: Message, left: nat, c: Option<Cell>): (r: (seq<Layer>, Option<Cell>))
    requires m.Fits() && left <= |ls|
    ensures |r.0| == |ls| && (left > 0 || c.Some? ==> r.1.Some?)
    decreases left
  {
    if left == 0 then (ls, c)
    else
      var (l, c') := Hop(prim, ls[left - 1], m, c);
      Rest(prim, ls[left - 1 := l], m, left - 1, Some(c'))
  }

  predicate Sane(p: Thread, n: nat) {
    p.Encrypting? ==>
      && p.left <= p.hops <= n && p.hops > 0 && (p.cell.None? <==> p.left == p.hops)
      && (p.cell.Some? ==> p.m.Fits() && |p.cell.value.wire| == CELL_LEN)
  }

  /** Mutual exclusion, and sense in what the thread inside has. */
  ghost predicate Inv(s: System) {
    && (forall t: nat :: At(s, t) != Outside ==> s.lock == Some(t))
    && (forall t: nat :: Sane(At(s, t), |s.net.fwd.writer|))
  }

  /** The cell on its way to the wire. */
  function Pending(s: System): (p: Thread) {
    if s.lock.Some? then At(s, s.lock.value) else Outside
  }

  predicate Midway(p: Thread) {
    p.Encrypting? && p.m.Fits()
  }

  function Finished(prim: Primitives, f: Channel, p: Thread): (f': Channel)
    requires Midway(p) && Sane(p, |f.writer|)
  {
    var (ls, c) := Rest(prim, f.writer, p.m, p.left, p.cell);
    Queued(f.(writer := ls), p.hops, c.value)
  }

  function Abstract(prim: Primitives, s: System): (c: Circuit)
    requires Sane(Pending(s), |s.net.fwd.writer|)
  {
    if Midway(Pending(s)) then s.net.(fwd := Finished(prim, s.net.fwd, Pending(s))) else s.net
  }

  /** The event of the circuit that a move is. */
  function Image(s: System, mv: Move): (e: Option<Event>) {
    match mv
    case Snapshot(t) => if At(s, t).Entered? && At(s, t).m.Fits() then Some(Send(At(s, t).m)) else None
    case Other(e) => Some(e)
    case _ => None
  }

  // ---- every move is an event of the circuit, or nothing ----

  /** From the last hop's stamp on, the hops that remain give the wrapping of the whole. */
  lemma {:induction false} RestWraps(prim: Primitives, w: seq<Layer>, ls: seq<Layer>, m: Message, left: nat, plain: bytes)
    requires m.Fits() && left < |w| == |ls| && |plain| == CELL_LEN && forall k | 0 <= k < left :: ls[k] == w[k]
    ensures Rest(prim, ls, m, left, Some(Cell(plain, Wrap(prim, w, left, |w| - 1, plain)))) ==
            (Spend(ls, 0, left, CELL_LEN), Some(Cell(plain, Wrap(prim, w, 0, |w| - 1, plain))))
    decreases left
  {
    if left > 0 {
      var (l, c) := Hop(prim, ls[left - 1], m, Some(Cell(plain, Wrap(prim, w, left, |w| - 1, plain))));
      var ls' := ls[left - 1 := l];
      RestWraps(prim, w, ls', m, left - 1, plain);
      assert Spend(ls', 0, left - 1, CELL_LEN) == Spend(ls, 0, left, CELL_LEN);
    } else {
      assert Spend(ls, 0, 0, CELL_LEN) == ls;
    }
  }

  lemma RestIsWrite(prim: Primitives, w: seq<Layer>, m: Message)
    requires m.Fits() && |w| > 0
    ensures var f := Written(prim, w, 0, |w| - 1, m);
            Rest(prim, w, m, |w|, None) ==
            (Absorb(Spend(w, 0, |w|, CELL_LEN), |w| - 1, f.plain), Some(Cell(f.plain, f.wire)))
  {
    var n := |w|;
    var plain := Stamp(prim, w[n - 1], m.num, m.streamId, m.payload);
    var (l, c) := Hop(prim, w[n - 1], m, None);
    var ls := w[n - 1 := l];
    assert c == Cell(plain, Wrap(prim, w, n - 1, n - 1, plain));
    RestWraps(prim, w, ls, m, n - 1, plain);
    assert Spend(ls, 0, n - 1, CELL_LEN) == Absorb(Spend(w, 0, n, CELL_LEN), n - 1, plain);
  }

  lemma {:induction false} RestFrame(prim: Primitives, ls: seq<Layer>, more: Layer, m: Message, left: nat, c: Option<Cell>)
    requires m.Fits() && left <= |ls|
    ensures Rest(prim, ls + [more], m, left, c) ==
            (Rest(prim, ls, m, left, c).0 + [more], Rest(prim, ls, m, left, c).1)
    decreases left
  {
    if left > 0 {
      var (l, c') := Hop(prim, ls[left - 1], m, c);
      assert (ls + [more])[left - 1 := l] == ls[left - 1 := l] + [more];
      RestFrame(prim, ls[left - 1 := l], more, m, left - 1, Some(c'));
    }
  }

  /** What is assumed of a move: the hypothesis of the circuit, where it makes one. */
  predicate Lucky(prim: Primitives, s: System, mv: Move)
    requires Can(s, mv)
  {
    mv.Other? ==> NoAccident(prim, s.net, mv.e)
  }

  lemma StartInv(prim: Primitives)
    ensures Inv(START) && Abstract(prim, START) == NO_CIRCUIT && Pending(START) == Outside
  {
  }

  lemma MoveInv(prim: Primitives, s: System, mv: Move)
    requires Inv(s) && Can(s, mv)
    ensures Inv(Next(prim, s, mv))
  {
    var s' := Next(prim, s, mv);
    assert |s.net.fwd.writer| <= |s'.net.fwd.writer|;
    forall t: nat
      ensures At(s', t) != Outside ==> s'.lock == Some(t)
      ensures Sane(At(s', t), |s'.net.fwd.writer|)
    {
      assert Sane(At(s, t), |s.net.fwd.writer|);
      assert At(s, t) != Outside ==> s.lock == Some(t);
    }
  }

  /** The whole loop begins: as if it were through, this is `Send`. */
  lemma SnapshotIsSend(prim: Primitives, s: System, t: nat)
    requires Inv(s) && Can(s, Snapshot(t)) && At(s, t).m.Fits()
    requires Sane(Pending(Next(prim, s, Snapshot(t))), |Next(prim, s, Snapshot(t)).net.fwd.writer|)
    ensures Goes(prim, Abstract(prim, s), Send(At(s, t).m), Abstract(prim, Next(prim, s, Snapshot(t))))
  {
    var m, f := At(s, t).m, s.net.fwd;
    RestIsWrite(prim, f.writer, m);
    assert f.flights[..|f.flights|] == f.flights && f.flights[|f.flights|..] == [];
  }

  lemma InsideIsQuiet(prim: Primitives, s: System, mv: Move)
    requires Inv(s) && Can(s, mv) && !mv.Other? && Image(s, mv).None?
    requires Sane(Pending(Next(prim, s, mv)), |Next(prim, s, mv).net.fwd.writer|)
    ensures Abstract(prim, Next(prim, s, mv)) == Abstract(prim, s)
  {
    match mv
    case EncryptHop(t) =>
      var Encrypting(m, hops, left, cell) := At(s, t);
      var (l, c) := Hop(prim, s.net.fwd.writer[left - 1], m, cell);
      assert Rest(prim, s.net.fwd.writer, m, left, cell) ==
             Rest(prim, s.net.fwd.writer[left - 1 := l], m, left - 1, Some(c));
    case _ =>
  }

  lemma {:induction false} LinkHeadFrame(fs: seq<Flight>, f: Flight, h: nat)
    requires LinkHead(fs, h) < |fs|
    ensures LinkHead(fs + [f], h) == LinkHead(fs, h)
  {
    if fs[0].outer != h {
      LinkHeadFrame(fs[1..], f, h);
      assert (fs + [f])[1..] == fs[1..] + [f];
    }
  }

  /** A relay's turn and the cell to come do not meet. */
  lemma PassCommutes(prim: Primitives, s: System, h: nat)
    requires Inv(s) && Can(s, Other(Pass(h))) && Lucky(prim, s, Other(Pass(h))) && Midway(Pending(s))
    requires Sane(Pending(s), |s.net.fwd.writer|)
    ensures Goes(prim, Abstract(prim, s), Pass(h), Abstract(prim, Next(prim, s, Other(Pass(h)))))
  {
    var f, g := s.net.fwd, Finished(prim, s.net.fwd, Pending(s));
    var last := g.flights[|f.flights|];
    LinkHeadFrame(f.flights, last, h);
    var at := LinkHead(f.flights, h);
    assert g.flights == f.flights + [last];
    var t := Turn(prim, f.reader, f.flights[at]);
    assert g.flights[..at] == f.flights[..at];
    assert g.flights[at + 1..] == f.flights[at + 1..] + [last];
    assert g.flights[..at] + t.1 + g.flights[at + 1..] == (f.flights[..at] + t.1 + f.flights[at + 1..]) + [last];
  }

  /** A hop that is added while a cell is half sealed is none of its business. */
  lemma ExtendCommutes(prim: Primitives, s: System, secret: bytes)
    requires Inv(s) && Can(s, Other(Extend(secret))) && Midway(Pending(s))
    requires Sane(Pending(s), |s.net.fwd.writer|)
    ensures Sane(Pending(s), |s.net.fwd.writer| + 1)
    ensures Goes(prim, Abstract(prim, s), Extend(secret), Abstract(prim, Next(prim, s, Other(Extend(secret)))))
  {
    var p := Pending(s);
    RestFrame(prim, s.net.fwd.writer, ForwardLayer(secret), p.m, p.left, p.cell);
  }

  lemma OthersCommute(prim: Primitives, s: System, e: Event)
    requires Inv(s) && Can(s, Other(e)) && Lucky(prim, s, Other(e))
    requires Sane(Pending(s), |s.net.fwd.writer|)
    requires Sane(Pending(s), |Step(prim, s.net, e).fwd.writer|)
    ensures Goes(prim, Abstract(prim, s), e, Abstract(prim, Next(prim, s, Other(e))))
  {
    if Midway(Pending(s)) {
      match e
      case Pass(h) => PassCommutes(prim, s, h);
      case Extend(secret) => ExtendCommutes(prim, s, secret);
      case _ =>
    }
  }

  /** Whatever thread moves, the circuit takes the move's event, or does not notice. */
  lemma MoveRefines(prim: Primitives, s: System, mv: Move)
    requires Inv(s) && Can(s, mv) && Lucky(prim, s, mv)
    ensures Inv(Next(prim, s, mv))
    ensures var a, b := Abstract(prim, s), Abstract(prim, Next(prim, s, mv));
            match Image(s, mv)
            case None => a == b
            case Some(e) => Goes(prim, a, e, b)
  {
    MoveInv(prim, s, mv);
    match Image(s, mv)
    case None => InsideIsQuiet(prim, s, mv);
    case Some(_) =>
      match mv
      case Snapshot(t) => SnapshotIsSend(prim, s, t);
      case Other(e) => OthersCommute(prim, s, e);
  }

  // ---- every schedule ----

  ghost predicate IsSchedule(prim: Primitives, s: System, ms: seq<Move>)
    decreases |ms|
  {
    ms == [] || (Can(s, ms[0]) && Lucky(prim, s, ms[0]) && IsSchedule(prim, Next(prim, s, ms[0]), ms[1..]))
  }

  function After(prim: Primitives, s: System, ms: seq<Move>): (s': System)
    requires IsSchedule(prim, s, ms)
    decreases |ms|
  {
    if ms == [] then s else After(prim, Next(prim, s, ms[0]), ms[1..])
  }

  /** The events of the circuit that a schedule amounts to. */
  function Events(prim: Primitives, s: System, ms: seq<Move>): (es: seq<Event>)
    requires IsSchedule(prim, s, ms)
    decreases |ms|
  {
    if ms == [] then []
    else Listed(s, ms[0]) + Events(prim, Next(prim, s, ms[0]), ms[1..])
  }

  function Listed(s: System, mv: Move): (es: seq<Event>) {
    match Image(s, mv)
    case None => []
    case Some(e) => [e]
  }

  lemma {:induction false} ScheduleIsRun(prim: Primitives, s: System, ms: seq<Move>)
    requires Inv(s) && IsSchedule(prim, s, ms)
    ensures Inv(After(prim, s, ms))
    ensures IsRun(prim, Abstract(prim, s), Events(prim, s, ms), Abstract(prim, After(prim, s, ms)))
    decreases |ms|
  {
    if ms != [] {
      MoveRefines(prim, s, ms[0]);
      var u := Next(prim, s, ms[0]);
      ScheduleIsRun(prim, u, ms[1..]);
      var es, rest := Events(prim, s, ms), Events(prim, u, ms[1..]);
      match Image(s, ms[0])
      case None => assert es == rest;
      case Some(e) => assert es[0] == e && es[1..] == rest;
    }
  }

  // ---- the order on the wire ----

  /** The client's forward layers over an event, and what it has to put on the wire. */
  function SealEvent(prim: Primitives, ls: seq<Layer>, e: Event): (r: (seq<Layer>, seq<bytes>)) {
    if e.Send? && |ls| > 0 && e.m.Fits() then
      var (ls', w) := Seal(prim, ls, e.m.num, e.m.streamId, e.m.payload);
      (ls', [w])
    else if e.Extend? && |e.secret| == SECRET_LEN then (ls + [ForwardLayer(e.secret)], [])
    else (ls, [])
  }

  /** One message sealed after the other, over the layers that the one before left. */
  function Sealing(prim: Primitives, ls: seq<Layer>, es: seq<Event>): (ws: seq<bytes>)
    decreases |es|
  {
    if es == [] then []
    else
      var (ls', w) := SealEvent(prim, ls, es[0]);
      w + Sealing(prim, ls', es[1..])
  }

  /** The cell that the thread inside has yet to write. */
  function Coming(prim: Primitives, s: System): (ws: seq<bytes>)
    requires Sane(Pending(s), |s.net.fwd.writer|)
  {
    var p := Pending(s);
    if Midway(p) then [Rest(prim, s.net.fwd.writer, p.m, p.left, p.cell).1.value.wire] else []
  }

  lemma TurnComes(prim: Primitives, s: System, t: nat)
    requires Inv(s) && Can(s, EncryptHop(t)) && Inv(Next(prim, s, EncryptHop(t)))
    ensures Coming(prim, Next(prim, s, EncryptHop(t))) == Coming(prim, s)
  {
    var Encrypting(m, hops, left, cell) := At(s, t);
    var (l, c) := Hop(prim, s.net.fwd.writer[left - 1], m, cell);
    assert Rest(prim, s.net.fwd.writer, m, left, cell) ==
           Rest(prim, s.net.fwd.writer[left - 1 := l], m, left - 1, Some(c));
  }

  lemma QuietWrites(prim: Primitives, s: System, mv: Move)
    requires Inv(s) && Can(s, mv) && Inv(Next(prim, s, mv)) && Image(s, mv).None?
    ensures Next(prim, s, mv).wire + Coming(prim, Next(prim, s, mv)) == s.wire + Coming(prim, s)
  {
    match mv
    case EncryptHop(t) => TurnComes(prim, s, t);
    case _ =>
  }

  lemma SnapshotWrites(prim: Primitives, s: System, t: nat)
    requires Inv(s) && Can(s, Snapshot(t)) && At(s, t).m.Fits() && Inv(Next(prim, s, Snapshot(t)))
    ensures var (ls, w) := SealEvent(prim, s.net.fwd.writer, Send(At(s, t).m));
            && Abstract(prim, s) == s.net && Coming(prim, s) == []
            && Coming(prim, Next(prim, s, Snapshot(t))) == w
            && Abstract(prim, Next(prim, s, Snapshot(t))).fwd.writer == ls
  {
    RestIsWrite(prim, s.net.fwd.writer, At(s, t).m);
  }

  lemma OtherWrites(prim: Primitives, s: System, e: Event)
    requires Inv(s) && Can(s, Other(e)) && Inv(Next(prim, s, Other(e)))
    ensures var s' := Next(prim, s, Other(e));
            && Coming(prim, s') == Coming(prim, s)
            && SealEvent(prim, Abstract(prim, s).fwd.writer, e) == (Abstract(prim, s').fwd.writer, [])
  {
    if e.Extend? && Midway(Pending(s)) {
      var p := Pending(s);
      RestFrame(prim, s.net.fwd.writer, ForwardLayer(e.secret), p.m, p.left, p.cell);
    }
  }

  lemma MoveWrites(prim: Primitives, s: System, mv: Move, e: Event)
    requires Inv(s) && Can(s, mv) && Inv(Next(prim, s, mv)) && Image(s, mv) == Some(e)
    ensures var s', (ls, w) := Next(prim, s, mv), SealEvent(prim, Abstract(prim, s).fwd.writer, e);
            s'.wire + Coming(prim, s') == s.wire + Coming(prim, s) + w && Abstract(prim, s').fwd.writer == ls
  {
    match mv
    case Snapshot(t) =>
      SnapshotWrites(prim, s, t);
      assert s.wire + [] == s.wire;
    case Other(_) =>
      OtherWrites(prim, s, e);
      var ws := s.wire + Coming(prim, s);
      assert ws + [] == ws;
  }

  lemma {:induction false} WireInOrder(prim: Primitives, s: System, ms: seq<Move>)
    requires Inv(s) && IsSchedule(prim, s, ms)
    ensures Inv(After(prim, s, ms))
    ensures var t := After(prim, s, ms);
            t.wire + Coming(prim, t) ==
            s.wire + Coming(prim, s) + Sealing(prim, Abstract(prim, s).fwd.writer, Events(prim, s, ms))
    decreases |ms|
  {
    if ms != [] {
      var u := Next(prim, s, ms[0]);
      MoveRefines(prim, s, ms[0]);
      WireInOrder(prim, u, ms[1..]);
      var es, rest := Events(prim, s, ms), Events(prim, u, ms[1..]);
      var ls := Abstract(prim, s).fwd.writer;
      match Image(s, ms[0])
      case None =>
        assert es == rest;
        QuietWrites(prim, s, ms[0]);
      case Some(e) =>
        assert es[0] == e && es[1..] == rest;
        MoveWrites(prim, s, ms[0], e);
        var (ls', w) := SealEvent(prim, ls, e);
        Assoc(s.wire + Coming(prim, s), w, Sealing(prim, ls', rest));
    }
  }

  // ---- the order of the lock ----

  /** The messages of the threads that took the lock, in that order. */
  function Acquired(ms: seq<Move>): (r: seq<Message>) {
    if ms == [] then []
    else (if ms[0].Acquire? && ms[0].m.Fits() then [ms[0].m] else []) + Acquired(ms[1..])
  }

  function Sends(es: seq<Event>): (r: seq<Message>) {
    if es == [] then [] else (if es[0].Send? then [es[0].m] else []) + Sends(es[1..])
  }

  /** The message of a thread that has the lock and has not begun. */
  function Waiting(s: System): (r: seq<Message>) {
    var p := Pending(s);
    if p.Entered? && p.m.Fits() then [p.m] else []
  }

  lemma MoveWaits(prim: Primitives, s: System, mv: Move)
    requires Inv(s) && Can(s, mv)
    ensures var got := if mv.Acquire? && mv.m.Fits() then [mv.m] else [];
            Waiting(s) + got == Sends(Listed(s, mv)) + Waiting(Next(prim, s, mv))
  {
    var es := Listed(s, mv);
    assert es != [] ==> es[1..] == [];
  }

  lemma SendsAppend(es: seq<Event>, rest: seq<Event>)
    requires |es| <= 1
    ensures Sends(es + rest) == Sends(es) + Sends(rest)
  {
    if es == [] {
      assert es + rest == rest;
    } else {
      assert es[1..] == [] && (es + rest)[1..] == rest;
    }
  }

  lemma Chained<T>(a: seq<T>, b: seq<T>, c: seq<T>, d: seq<T>, x: seq<T>, y: seq<T>, z: seq<T>)
    requires a + b == d + x && x + c == y + z
    ensures a + (b + c) == (d + y) + z
  {
    Assoc(a, b, c);
    Assoc(d, x, c);
    Assoc(d, y, z);
  }

  lemma {:induction false} AcquisitionOrder(prim: Primitives, s: System, ms: seq<Move>)
    requires Inv(s) && IsSchedule(prim, s, ms)
    ensures Waiting(s) + Acquired(ms) == Sends(Events(prim, s, ms)) + Waiting(After(prim, s, ms))
    decreases |ms|
  {
    if ms == [] {
      assert Waiting(s) + [] == [] + Waiting(s);
    } else {
      var u := Next(prim, s, ms[0]);
      MoveInv(prim, s, ms[0]);
      MoveWaits(prim, s, ms[0]);
      AcquisitionOrder(prim, u, ms[1..]);
      var got := if ms[0].Acquire? && ms[0].m.Fits() then [ms[0].m] else [];
      var es, rest := Listed(s, ms[0]), Events(prim, u, ms[1..]);
      SendsAppend(es, rest);
      Chained(Waiting(s), got, Acquired(ms[1..]), Sends(es), Waiting(u), Sends(rest), Waiting(After(prim, s, ms)));
    }
  }

  /** At most one thread is inside, and when none is sealing the circuit is as it stands. */
  lemma OneInside(prim: Primitives, s: System)
    requires Inv(s)
    ensures forall t: nat, u: nat | At(s, t) != Outside && At(s, u) != Outside :: t == u
    ensures !Midway(Pending(s)) ==> Abstract(prim, s) == s.net && Coming(prim, s) == []
  {
  }

  lemma WireFromStart(prim: Primitives, ms: seq<Move>)
    requires IsSchedule(prim, START, ms)
    ensures Inv(After(prim, START, ms))
    ensures var s := After(prim, START, ms);
            s.wire + Coming(prim, s) == Sealing(prim, [], Events(prim, START, ms))
  {
    StartInv(prim);
    WireInOrder(prim, START, ms);
    var ws := Sealing(prim, [], Events(prim, START, ms));
    assert [] + [] + ws == ws;
  }

  lemma OrderFromStart(prim: Primitives, ms: seq<Move>)
    requires IsSchedule(prim, START, ms)
    ensures Acquired(ms) == Sends(Events(prim, START, ms)) + Waiting(After(prim, START, ms))
  {
    StartInv(prim);
    AcquisitionOrder(prim, START, ms);
    assert [] + Acquired(ms) == Acquired(ms);
  }

  lemma RunFromStart(prim: Primitives, ms: seq<Move>)
    requires IsSchedule(prim, START, ms)
    ensures Inv(After(prim, START, ms))
    ensures var c := Abstract(prim, After(prim, START, ms));
            IsRun(prim, NO_CIRCUIT, Events(prim, START, ms), c) && Good(prim, c)
  {
    StartInv(prim);
    ScheduleIsRun(prim, START, ms);
    NoCircuitGood(prim);
    RunKeeps(prim, NO_CIRCUIT, Events(prim, START, ms), Abstract(prim, After(prim, START, ms)));
  }

  /**
   Every schedule: at most one thread is inside; the whole is a run of the circuit, in which each
   section is one `Send` in the order of the lock; the wire carries the cells as sealed in that order.
  */
  lemma EverySchedule(prim: Primitives, ms: seq<Move>, s: System, es: seq<Event>)
    requires IsSchedule(prim, START, ms) && s == After(prim, START, ms) && es == Events(prim, START, ms)
    ensures Inv(s) && forall t: nat, u: nat | At(s, t) != Outside && At(s, u) != Outside :: t == u
    ensures IsRun(prim, NO_CIRCUIT, es, Abstract(prim, s)) && Good(prim, Abstract(prim, s))
    ensures Acquired(ms) == Sends(es) + Waiting(s)
    ensures s.wire + Coming(prim, s) == Sealing(prim, [], es)
    ensures !Midway(Pending(s)) ==> Good(prim, s.net) && s.wire == Sealing(prim, [], es)
  {
    RunFromStart(prim, ms);
    WireFromStart(prim, ms);
    OrderFromStart(prim, ms);
    OneInside(prim, s);
    assert s.wire + [] == s.wire;
  }

  // ---- the lock is never stuck ----

  /** The lock is held by somebody inside. */
  predicate Engaged(s: System) {
    s.lock.Some? ==> At(s, s.lock.value) != Outside
  }

  lemma {:induction false} StaysEngaged(prim: Primitives, s: System, ms: seq<Move>)
    requires Inv(s) && Engaged(s) && IsSchedule(prim, s, ms)
    ensures Engaged(After(prim, s, ms))
    decreases |ms|
  {
    if ms != [] {
      MoveInv(prim, s, ms[0]);
      StaysEngaged(prim, Next(prim, s, ms[0]), ms[1..]);
    }
  }

  /**
   On a circuit that has a hop, at any time in any schedule: a lock that is free can be taken by any
   thread with any message, and the thread that holds it has a move to make.
  */
  lemma NeverStuck(prim: Primitives, ms: seq<Move>, s: System)
    requires IsSchedule(prim, START, ms) && s == After(prim, START, ms) && |s.net.fwd.writer| > 0
    ensures match s.lock
            case None => forall t: nat, m: Message :: Can(s, Acquire(t, m))
            case Some(t) =>
              || Can(s, Snapshot(t)) || Can(s, EncryptHop(t)) || Can(s, Fail(t)) || Can(s, Put(t)) || Can(s, Release(t))
  {
    StartInv(prim);
    ScheduleIsRun(prim, START, ms);
    StaysEngaged(prim, START, ms);
    if s.lock.Some? {
      assert Sane(At(s, s.lock.value), |s.net.fwd.writer|);
    }
  }

  // ---- why the lock is there ----

  /** What the hops from `lo` on together add to byte `i` of a cell. */
  function Joint(prim: Primitives, ls: seq<Layer>, lo: nat, i: nat): (b: byte)
    requires lo <= |ls|
    decreases |ls| - lo
  {
    if lo == |ls| then 0 else XorByte(prim.aes(ls[lo].key, ls[lo].pos + i), Joint(prim, ls, lo + 1, i))
  }

  /** The key stream of all hops that a cell is encrypted with. */
  function KeyStream(prim: Primitives, ls: seq<Layer>): (k: seq<int>)
    ensures |k| == CELL_LEN
  {
    seq(CELL_LEN, i requires 0 <= i < CELL_LEN => Joint(prim, ls, 0, i) as int)
  }

  lemma {:induction false} WrapIsJoint(prim: Primitives, ls: seq<Layer>, lo: nat, plain: bytes, i: nat)
    requires 0 < |ls| && lo <= |ls| && i < |plain|
    ensures Wrap(prim, ls, lo, |ls| - 1, plain)[i] == XorByte(plain[i], Joint(prim, ls, lo, i))
    decreases |ls| - lo
  {
    if lo == |ls| {
      XorBitsZero(8, plain[i]);
    } else {
      WrapIsJoint(prim, ls, lo + 1, plain, i);
      XorBitsTwice(8, plain[i], Joint(prim, ls, lo + 1, i), prim.aes(ls[lo].key, ls[lo].pos + i));
    }
  }

  lemma WrapsAlike(prim: Primitives, ls: seq<Layer>, ls': seq<Layer>, plain: bytes)
    requires 0 < |ls| == |ls'| && |plain| == CELL_LEN
    ensures Wrap(prim, ls, 0, |ls| - 1, plain) == Wrap(prim, ls', 0, |ls| - 1, plain)
      <==> KeyStream(prim, ls) == KeyStream(prim, ls')
  {
    var w, w', k, k' := Wrap(prim, ls, 0, |ls| - 1, plain), Wrap(prim, ls', 0, |ls| - 1, plain),
                        KeyStream(prim, ls), KeyStream(prim, ls');
    forall i | 0 <= i < CELL_LEN
      ensures w[i] == w'[i] <==> k[i] == k'[i]
    {
      WrapIsJoint(prim, ls, 0, plain, i);
      WrapIsJoint(prim, ls', 0, plain, i);
      if w[i] == w'[i] {
        XorBitsInjective(8, plain[i], k[i], k'[i]);
      }
    }
  }

  predicate AllFit(ms: seq<Message>) {
    forall i | 0 <= i < |ms| :: ms[i].Fits()
  }

  /** The layers when messages have been sealed, each of them further on by a cell's key stream for each message. */
  function Past(prim: Primitives, w: seq<Layer>, ms: seq<Message>): (w': seq<Layer>)
    requires 0 < |w| && AllFit(ms)
    ensures |w'| == |w|
    ensures forall h | 0 <= h < |w| :: w'[h].key == w[h].key && w'[h].pos == w[h].pos + CELL_LEN * |ms|
    decreases |ms|
  {
    if ms == [] then w
    else
      var m := ms[0];
      assert m.Fits();
      Past(prim, Seal(prim, w, m.num, m.streamId, m.payload).0, ms[1..])
  }

  /** When a cell made with some layers is sealed for readers with others. */
  lemma SealedElsewhere(prim: Primitives, w: seq<Layer>, other: seq<Layer>, m: Message)
    requires 0 < |w| == |other| && m.Fits()
    ensures var last := |w| - 1;
            var f := Written(prim, other, 0, last, m);
            Sealed(prim, w, f) <==>
              && KeyStream(prim, w) == KeyStream(prim, other)
              && Digest4(prim, w[last].hist + Cleared(f.plain)) == Digest4(prim, other[last].hist + Cleared(f.plain))
  {
    var f := Written(prim, other, 0, |w| - 1, m);
    WrittenSealed(prim, other, other, f, m);
    WrapsAlike(prim, w, other, f.plain);
  }

  /**
   Without the lock: a cell that is written before the cells of `ms`, though it was stamped and
   encrypted after them, is sealed for its readers if and only if the key stream repeats and the
   digest does not tell the difference.
  */
  lemma OutOfTurn(prim: Primitives, w: seq<Layer>, ms: seq<Message>, m: Message)
    requires 0 < |w| && m.Fits() && AllFit(ms)
    ensures var behind, last := Past(prim, w, ms), |w| - 1;
            var f := Written(prim, behind, 0, last, m);
            Sealed(prim, w, f) <==>
              && KeyStream(prim, w) == KeyStream(prim, behind)
              && Digest4(prim, w[last].hist + Cleared(f.plain)) == Digest4(prim, behind[last].hist + Cleared(f.plain))
  {
    SealedElsewhere(prim, w, Past(prim, w, ms), m);
  }
}
