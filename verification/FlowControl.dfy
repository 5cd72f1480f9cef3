/**
 SENDME flow control: the client's windows, a peer that follows sections 7.3 and 7.4 of
 tor-spec.txt, and the cells between them.
*/
module FlowControl {

  datatype Params = Params(start: nat, increment: nat) {
    predicate Valid() {
      0 < increment <= start
    }
  }

  /** The client's window object; each method runs under the window's lock. */
  class TorWindow {
    const p: Params
    var deliver: int
    var package: int

    constructor (p: Params)
      ensures this.p == p && deliver == package == p.start
    {
      this.p := p;
      deliver, package := p.start, p.start;
    }

    method NeedSendme() returns (need: bool)
      modifies this`deliver
      ensures (deliver, need) == Check(p, old(deliver))
    {
      if deliver > p.start - p.increment {
        return false;
      }
      deliver := deliver + p.increment;
      return true;
    }

    method DeliverDec()
      modifies this`deliver
      ensures deliver == old(deliver) - 1
    {
      deliver := deliver - 1;
    }

    method PackageDec()
      modifies this`package
      ensures package == old(package) - 1
    {
      package := package - 1;
    }

    method PackageInc()
      modifies this`package
      ensures package == old(package) + p.increment
    {
      package := package + p.increment;
    }
  }

  /** A check of the deliver window: its new value and whether a SENDME is due. */
  function Check(p: Params, deliver: int): (r: (int, bool)) {
    if deliver > p.start - p.increment then (deliver, false) else (deliver + p.increment, true)
  }

  datatype CellKind = DataCell | SendMeCell | OtherCell

  /**
   The circuit's part in handling a stream cell from the hop with window `w`: whether the cell
   ends here, and whether a circuit SENDME goes out.
  */
  method SendmeProcess(w: TorWindow, kind: CellKind, streamId: nat) returns (handled: bool, sendme: bool)
    modifies w
    ensures handled == (kind == SendMeCell && streamId == 0)
    ensures handled ==> w.package == old(w.package) + w.p.increment && w.deliver == old(w.deliver) && !sendme
    ensures kind == DataCell ==> (w.deliver, sendme) == Check(w.p, old(w.deliver) - 1) && w.package == old(w.package)
    ensures !handled && kind != DataCell ==> unchanged(w) && !sendme
  {
    if kind == SendMeCell && streamId == 0 {
      w.PackageInc();
      return true, false;
    }
    sendme := false;
    if kind == DataCell {
      w.DeliverDec();
      sendme := w.NeedSendme();
    }
    return false, sendme;
  }

  /**
   One flow-controlled lane, the circuit or a stream: the client's deliver window, the peer's
   package window, and how many cells the client has counted and SENDMEs it has issued.
  */
  datatype Lane = Lane(deliver: int, peer: int, received: nat, issued: nat)

  datatype Ack = CircuitAck | StreamAck(id: nat)

  /**
   `down` and `up` are the links; their order does not matter to the windows, so none is assumed.
   What is proved of every run holds for first-in first-out links in particular: their runs are
   among these, and one that cannot go on has empty links all the same. A cell
   that arrived is first counted on the circuit, then waits for the circuit's check (`unchecked`)
   and for its stream (`handing`); once counted there it waits for the stream's check
   (`checking`). Any number of threads may be between these steps.
  */
  datatype State = State(circ: Lane, unchecked: nat,
                         streams: map<nat, Lane>, open: set<nat>, handing: multiset<nat>, checking: multiset<nat>,
                         down: multiset<nat>, up: multiset<Ack>)

  datatype Step =
    | Open(id: nat)
    | Close(id: nat)
    | PeerSend(id: nat)
    | Arrive(id: nat)
    | CircuitCheck
    | Hand(id: nat)
    | StreamCheck(id: nat)
    | AckArrives(a: Ack)

  datatype Config = Config(circ: Params, stream: Params)

  function Fresh(p: Params): (l: Lane) {
    Lane(p.start, p.start, 0, 0)
  }

  function Initial(c: Config): (s: State) {
    State(Fresh(c.circ), 0, map[], {}, multiset{}, multiset{}, multiset{}, multiset{})
  }

  predicate Enabled(s: State, e: Step) {
    match e
    case Open(id) => id !in s.streams
    case Close(id) => id in s.open
    case PeerSend(id) => id in s.streams && s.circ.peer > 0 && s.streams[id].peer > 0
    case Arrive(id) => id in s.down
    case CircuitCheck => s.unchecked > 0
    case Hand(id) => id in s.handing
    case StreamCheck(id) => id in s.checking && id in s.streams
    case AckArrives(a) => a in s.up && (a.StreamAck? ==> a.id in s.streams)
  }

  function Counted(l: Lane): (l': Lane) {
    l.(deliver := l.deliver - 1, received := l.received + 1)
  }

  function Checked(p: Params, l: Lane): (l': Lane) {
    var (d, due) := Check(p, l.deliver);
    l.(deliver := d, issued := l.issued + (if due then 1 else 0))
  }

  function Due(p: Params, l: Lane): (n: nat) {
    if Check(p, l.deliver).1 then 1 else 0
  }

  function DoSend(s: State, id: nat): (s': State)
    requires id in s.streams
  {
    var l := s.streams[id];
    s.(circ := s.circ.(peer := s.circ.peer - 1), streams := s.streams[id := l.(peer := l.peer - 1)],
       down := s.down + multiset{id})
  }

  function DoArrive(s: State, id: nat): (s': State) {
    s.(circ := Counted(s.circ), unchecked := s.unchecked + 1, handing := s.handing + multiset{id},
       down := s.down - multiset{id})
  }

  function DoCircuitCheck(c: Config, s: State): (s': State)
    requires s.unchecked > 0
  {
    s.(circ := Checked(c.circ, s.circ), unchecked := s.unchecked - 1,
       up := if Due(c.circ, s.circ) == 1 then s.up + multiset{CircuitAck} else s.up)
  }

  /** A cell of a stream that is closed, or was never opened, is dropped. */
  function DoHand(s: State, id: nat): (s': State) {
    if id in s.open && id in s.streams then
      s.(streams := s.streams[id := Counted(s.streams[id])],
         handing := s.handing - multiset{id}, checking := s.checking + multiset{id})
    else
      s.(handing := s.handing - multiset{id})
  }

  function DoStreamCheck(c: Config, s: State, id: nat): (s': State)
    requires id in s.streams
  {
    var l := s.streams[id];
    s.(streams := s.streams[id := Checked(c.stream, l)], checking := s.checking - multiset{id},
       up := if Due(c.stream, l) == 1 then s.up + multiset{StreamAck(id)} else s.up)
  }

  function DoAck(c: Config, s: State, a: Ack): (s': State)
    requires a.StreamAck? ==> a.id in s.streams
  {
    var up := s.up - multiset{a};
    match a
    case CircuitAck => s.(circ := s.circ.(peer := s.circ.peer + c.circ.increment), up := up)
    case StreamAck(id) =>
      var l := s.streams[id];
      s.(streams := s.streams[id := l.(peer := l.peer + c.stream.increment)], up := up)
  }

  function Next(c: Config, s: State, e: Step): (s': State)
    requires Enabled(s, e)
  {
    match e
    case Open(id) => s.(streams := s.streams[id := Fresh(c.stream)], open := s.open + {id})
    case Close(id) => s.(open := s.open - {id})
    case PeerSend(id) => DoSend(s, id)
    case Arrive(id) => DoArrive(s, id)
    case CircuitCheck => DoCircuitCheck(c, s)
    case Hand(id) => DoHand(s, id)
    case StreamCheck(id) => DoStreamCheck(c, s, id)
    case AckArrives(a) => DoAck(c, s, a)
  }

  // ---- invariants ----

  /** The deliver window counts cells and SENDMEs, and strays below its mark only by unfinished checks. */
  ghost predicate Paced(p: Params, l: Lane, unfinished: nat) {
    && p.start - p.increment - unfinished < l.deliver <= p.start
    && l.deliver == p.start - l.received + p.increment * l.issued
    && l.peer >= 0
  }

  /** Everything about one lane: its windows, and what is under way for it. */
  datatype View = View(lane: Lane, unfinished: nat, cells: nat, acks: nat, open: bool)

  /** What the peer may still send, plus cells and permissions on their way, against the deliver window. */
  ghost predicate LaneOk(p: Params, v: View) {
    var outstanding := v.lane.peer + v.cells + p.increment * v.acks;
    && Paced(p, v.lane, v.unfinished)
    && outstanding <= v.lane.deliver
    && (v.open ==> outstanding == v.lane.deliver)
  }

  /** What a step of the system is for one lane. */
  datatype Action = Idle | Sent | Count | Drop | Finish | Refill | Shut

  predicate Can(v: View, a: Action) {
    match a
    case Sent => v.lane.peer > 0
    case Count => v.cells > 0
    case Drop => v.cells > 0 && !v.open
    case Finish => v.unfinished > 0
    case Refill => v.acks > 0
    case _ => true
  }

  function Act(p: Params, v: View, a: Action): (v': View)
    requires Can(v, a)
  {
    match a
    case Idle => v
    case Sent => v.(lane := v.lane.(peer := v.lane.peer - 1), cells := v.cells + 1)
    case Count => v.(lane := Counted(v.lane), cells := v.cells - 1, unfinished := v.unfinished + 1)
    case Drop => v.(cells := v.cells - 1)
    case Finish => v.(lane := Checked(p, v.lane), unfinished := v.unfinished - 1, acks := v.acks + Due(p, v.lane))
    case Refill => v.(lane := v.lane.(peer := v.lane.peer + p.increment), acks := v.acks - 1)
    case Shut => v.(open := false)
  }

  lemma MulNext(i: nat, n: nat)
    ensures i * (n + 1) == i * n + i
  {
  }

  /** The heart of flow control: every action on a lane keeps its balance. */
  lemma ActKeeps(p: Params, v: View, a: Action)
    requires p.Valid() && LaneOk(p, v) && Can(v, a)
    ensures LaneOk(p, Act(p, v, a))
  {
    if a == Finish {
      MulNext(p.increment, v.acks);
      MulNext(p.increment, v.lane.issued);
    } else if a == Refill {
      MulNext(p.increment, v.acks - 1);
    }
  }

  function CircuitView(s: State): (v: View) {
    View(s.circ, s.unchecked, |s.down|, s.up[CircuitAck], true)
  }

  function StreamView(s: State, id: nat): (v: View)
    requires id in s.streams
  {
    View(s.streams[id], s.checking[id], s.down[id] + s.handing[id], s.up[StreamAck(id)], id in s.open)
  }

  lemma Plus<T>(m: multiset<T>, x: T, y: T)
    ensures (m + multiset{x})[y] == m[y] + (if x == y then 1 else 0)
  {
  }

  lemma Minus<T>(m: multiset<T>, x: T, y: T)
    requires x in m
    ensures (m - multiset{x})[y] == m[y] - (if x == y then 1 else 0)
    ensures |m - multiset{x}| == |m| - 1
  {
  }

  // Each system step is, for the circuit and for every stream, the action it stands for.

  lemma SendActs(c: Config, s: State, x: nat, id: nat)
    requires Enabled(s, PeerSend(x)) && id in s.streams
    ensures CircuitView(DoSend(s, x)) == Act(c.circ, CircuitView(s), Sent)
    ensures StreamView(DoSend(s, x), id) == Act(c.stream, StreamView(s, id), if id == x then Sent else Idle)
  {
    Plus(s.down, x, id);
  }

  lemma ArriveActs(c: Config, s: State, x: nat)
    requires x in s.down
    ensures CircuitView(DoArrive(s, x)) == Act(c.circ, CircuitView(s), Count)
    ensures forall id <- s.streams :: StreamView(DoArrive(s, x), id) == StreamView(s, id)
  {
    Minus(s.down, x, x);
    forall id <- s.streams
      ensures StreamView(DoArrive(s, x), id) == StreamView(s, id)
    {
      Minus(s.down, x, id);
      Plus(s.handing, x, id);
    }
  }

  lemma CircuitCheckActs(c: Config, s: State)
    requires s.unchecked > 0
    ensures CircuitView(DoCircuitCheck(c, s)) == Act(c.circ, CircuitView(s), Finish)
    ensures forall id <- s.streams :: StreamView(DoCircuitCheck(c, s), id) == StreamView(s, id)
  {
    Plus(s.up, CircuitAck, CircuitAck);
    forall id <- s.streams
      ensures StreamView(DoCircuitCheck(c, s), id) == StreamView(s, id)
    {
      Plus(s.up, CircuitAck, StreamAck(id));
    }
  }

  lemma HandActs(c: Config, s: State, x: nat, id: nat)
    requires x in s.handing && id in s.streams && s.open <= s.streams.Keys
    ensures CircuitView(DoHand(s, x)) == CircuitView(s)
    ensures StreamView(DoHand(s, x), id)
         == Act(c.stream, StreamView(s, id), if id != x then Idle else if id in s.open then Count else Drop)
  {
    Minus(s.handing, x, id);
    Plus(s.checking, x, id);
  }

  lemma StreamCheckActs(c: Config, s: State, x: nat, id: nat)
    requires x in s.checking && x in s.streams && id in s.streams
    ensures CircuitView(DoStreamCheck(c, s, x)) == CircuitView(s)
    ensures StreamView(DoStreamCheck(c, s, x), id) == Act(c.stream, StreamView(s, id), if id == x then Finish else Idle)
  {
    Plus(s.up, StreamAck(x), StreamAck(id));
    Plus(s.up, StreamAck(x), CircuitAck);
    Minus(s.checking, x, id);
  }

  lemma AckActs(c: Config, s: State, a: Ack, id: nat)
    requires Enabled(s, AckArrives(a))
    ensures CircuitView(DoAck(c, s, a)) == Act(c.circ, CircuitView(s), if a == CircuitAck then Refill else Idle)
    ensures id in s.streams ==>
      StreamView(DoAck(c, s, a), id) == Act(c.stream, StreamView(s, id), if a == StreamAck(id) then Refill else Idle)
  {
    Minus(s.up, a, StreamAck(id));
    Minus(s.up, a, CircuitAck);
  }

  /** Nothing is under way for a stream that was never opened. */
  ghost predicate Silent(s: State, id: nat) {
    s.down[id] == s.handing[id] == s.checking[id] == s.up[StreamAck(id)] == 0
  }

  ghost predicate Known(s: State) {
    s.open <= s.streams.Keys && forall id: nat :: id in s.streams || Silent(s, id)
  }

  ghost predicate Inv(c: Config, s: State) {
    && c.circ.Valid() && c.stream.Valid() && Known(s)
    && LaneOk(c.circ, CircuitView(s))
    && (forall id <- s.streams :: LaneOk(c.stream, StreamView(s, id)))
  }

  lemma SilentOnCells(c: Config, s: State, e: Step, x: nat, id: nat)
    requires Silent(s, id) && Enabled(s, e) && id !in s.streams
    requires e == PeerSend(x) || e == Arrive(x) || e == Hand(x)
    ensures Silent(Next(c, s, e), id)
  {
    Plus(s.down, x, id);
    Plus(s.handing, x, id);
    Plus(s.checking, x, id);
    if x in s.down {
      Minus(s.down, x, id);
    }
    if x in s.handing {
      Minus(s.handing, x, id);
    }
  }

  lemma SilentOnCheck(c: Config, s: State, x: nat, id: nat)
    requires Silent(s, id) && x in s.checking && x in s.streams && id !in s.streams
    ensures Silent(DoStreamCheck(c, s, x), id)
  {
    Minus(s.checking, x, id);
    Plus(s.up, StreamAck(x), StreamAck(id));
  }

  lemma SilentOnAck(c: Config, s: State, a: Ack, id: nat)
    requires Silent(s, id) && Enabled(s, AckArrives(a))
    ensures Silent(DoAck(c, s, a), id)
  {
    Minus(s.up, a, StreamAck(id));
  }

  lemma SilentKeeps(c: Config, s: State, e: Step, id: nat)
    requires Silent(s, id) && Enabled(s, e) && id !in s.streams
    ensures Silent(Next(c, s, e), id)
  {
    match e
    case PeerSend(x) => SilentOnCells(c, s, e, x, id);
    case Arrive(x) => SilentOnCells(c, s, e, x, id);
    case Hand(x) => SilentOnCells(c, s, e, x, id);
    case CircuitCheck => Plus(s.up, CircuitAck, StreamAck(id));
    case StreamCheck(x) => SilentOnCheck(c, s, x, id);
    case AckArrives(a) => SilentOnAck(c, s, a, id);
    case _ =>
  }

  lemma KnownKeeps(c: Config, s: State, e: Step)
    requires Known(s) && Enabled(s, e)
    ensures Known(Next(c, s, e))
  {
    var t := Next(c, s, e);
    forall id: nat | id !in t.streams
      ensures Silent(t, id)
    {
      assert Silent(s, id) && id !in s.streams;
      SilentKeeps(c, s, e, id);
    }
  }

  lemma OpensFresh(c: Config, s: State, id: nat)
    requires Known(s) && id !in s.streams
    ensures StreamView(Next(c, s, Open(id)), id) == View(Fresh(c.stream), 0, 0, 0, true)
  {
  }

  lemma CircuitKeeps(c: Config, s: State, e: Step)
    requires Inv(c, s) && Enabled(s, e)
    ensures LaneOk(c.circ, CircuitView(Next(c, s, e)))
  {
    var v := CircuitView(s);
    match e
    case PeerSend(x) => SendActs(c, s, x, x); ActKeeps(c.circ, v, Sent);
    case Arrive(x) => ArriveActs(c, s, x); ActKeeps(c.circ, v, Count);
    case CircuitCheck => CircuitCheckActs(c, s); ActKeeps(c.circ, v, Finish);
    case Hand(x) => HandActs(c, s, x, x);
    case StreamCheck(x) => StreamCheckActs(c, s, x, x);
    case AckArrives(a) => AckActs(c, s, a, 0); ActKeeps(c.circ, v, if a == CircuitAck then Refill else Idle);
    case _ =>
  }

  lemma StreamKeeps(c: Config, s: State, e: Step, id: nat)
    requires Inv(c, s) && Enabled(s, e) && id in s.streams
    ensures id in Next(c, s, e).streams && LaneOk(c.stream, StreamView(Next(c, s, e), id))
  {
    var v := StreamView(s, id);
    match e
    case Open(_) =>
    case Close(x) => ActKeeps(c.stream, v, if id == x then Shut else Idle);
    case PeerSend(x) => SendActs(c, s, x, id); ActKeeps(c.stream, v, if id == x then Sent else Idle);
    case Arrive(x) => ArriveActs(c, s, x);
    case CircuitCheck => CircuitCheckActs(c, s);
    case Hand(x) =>
      HandActs(c, s, x, id);
      ActKeeps(c.stream, v, if id != x then Idle else if id in s.open then Count else Drop);
    case StreamCheck(x) => StreamCheckActs(c, s, x, id); ActKeeps(c.stream, v, if id == x then Finish else Idle);
    case AckArrives(a) => AckActs(c, s, a, id); ActKeeps(c.stream, v, if a == StreamAck(id) then Refill else Idle);
  }

  /** The invariant survives every step of every thread, of the peer and of the links. */
  lemma StepKeeps(c: Config, s: State, e: Step)
    requires Inv(c, s) && Enabled(s, e)
    ensures Inv(c, Next(c, s, e))
  {
    KnownKeeps(c, s, e);
    CircuitKeeps(c, s, e);
    var t := Next(c, s, e);
    forall id <- t.streams
      ensures LaneOk(c.stream, StreamView(t, id))
    {
      if id in s.streams {
        StreamKeeps(c, s, e, id);
      } else {
        OpensFresh(c, s, id);
      }
    }
  }

  // ---- whole runs ----

  ghost predicate IsRun(c: Config, s: State, es: seq<Step>, t: State)
    decreases |es|
  {
    if es == [] then s == t else exists u :: Goes(c, s, es[0], u) && IsRun(c, u, es[1..], t)
  }

  ghost predicate Goes(c: Config, s: State, e: Step, t: State) {
    Enabled(s, e) && t == Next(c, s, e)
  }

  lemma {:induction false} RunKeeps(c: Config, s: State, es: seq<Step>, t: State)
    requires Inv(c, s) && IsRun(c, s, es, t)
    ensures Inv(c, t)
    decreases |es|
  {
    if es != [] {
      var u :| Goes(c, s, es[0], u) && IsRun(c, u, es[1..], t);
      StepKeeps(c, s, es[0]);
      RunKeeps(c, u, es[1..], t);
    }
  }

  lemma InitialInv(c: Config)
    requires c.circ.Valid() && c.stream.Valid()
    ensures Inv(c, Initial(c))
  {
  }

  /** The number of SENDMEs, whatever the schedule: one for each full increment of cells counted. */
  lemma SendmeCount(p: Params, v: View)
    requires p.Valid() && LaneOk(p, v)
    ensures p.start - p.increment - v.unfinished < v.lane.deliver <= p.start
    ensures v.unfinished == 0 ==> v.lane.issued == v.lane.received / p.increment
    ensures 0 <= v.lane.peer <= p.start && v.cells <= p.start
  {
    var i := p.increment;
    assert i * v.acks >= 0;
    if v.unfinished == 0 {
      assert i * v.lane.issued <= v.lane.received < i * v.lane.issued + i;
      DivUnique(v.lane.received, i, v.lane.issued);
    }
  }

  lemma MulLess(d: nat, a: nat, b: nat)
    ensures d * a < d * b ==> a < b
  {
    if a >= b {
      assert d * a == d * b + d * (a - b);
    }
  }

  lemma DivUnique(n: nat, d: nat, q: nat)
    requires d > 0 && d * q <= n < d * q + d
    ensures q == n / d
  {
    MulNext(d, q);
    MulNext(d, n / d);
    MulLess(d, q, n / d + 1);
    MulLess(d, n / d, q + 1);
  }

  /** Safety in every reachable state, on the circuit and on every stream, closed ones included. */
  lemma Safety(c: Config, es: seq<Step>, s: State)
    requires c.circ.Valid() && c.stream.Valid() && IsRun(c, Initial(c), es, s)
    ensures var v := CircuitView(s);
            && v.lane.peer + v.cells + c.circ.increment * v.acks == v.lane.deliver
            && 0 <= v.lane.peer <= c.circ.start && v.cells <= c.circ.start
            && c.circ.start - c.circ.increment - v.unfinished < v.lane.deliver <= c.circ.start
            && (v.unfinished == 0 ==> v.lane.issued == v.lane.received / c.circ.increment)
    ensures forall id <- s.streams ::
            var v := StreamView(s, id);
            && (id in s.open ==> v.lane.peer + v.cells + c.stream.increment * v.acks == v.lane.deliver)
            && 0 <= v.lane.peer <= c.stream.start && v.cells <= c.stream.start
            && c.stream.start - c.stream.increment - v.unfinished < v.lane.deliver <= c.stream.start
            && (v.unfinished == 0 ==> v.lane.issued == v.lane.received / c.stream.increment)
  {
    InitialInv(c);
    RunKeeps(c, Initial(c), es, s);
    SendmeCount(c.circ, CircuitView(s));
    forall id <- s.streams
      ensures var v := StreamView(s, id);
              && (id in s.open ==> v.lane.peer + v.cells + c.stream.increment * v.acks == v.lane.deliver)
              && 0 <= v.lane.peer <= c.stream.start && v.cells <= c.stream.start
              && c.stream.start - c.stream.increment - v.unfinished < v.lane.deliver <= c.stream.start
              && (v.unfinished == 0 ==> v.lane.issued == v.lane.received / c.stream.increment)
    {
      SendmeCount(c.stream, StreamView(s, id));
    }
  }

  // ---- no deadlock ----

  /** Steps that need no decision by either side: cells, checks and SENDMEs running their course. */
  predicate Internal(e: Step) {
    e.Arrive? || e.CircuitCheck? || e.Hand? || e.StreamCheck? || e.AckArrives?
  }

  predicate Quiet(s: State) {
    && s.down == s.handing == s.checking == multiset{}
    && s.up == multiset{} && s.unchecked == 0
  }

  /** Bounds the internal steps that are left: an arrival causes at most five more, a hand-over two, a check one. */
  function Work(s: State): (n: nat) {
    6 * |s.down| + 3 * |s.handing| + 2 * |s.checking| + 2 * s.unchecked + |s.up|
  }

  lemma ArriveWork(s: State, x: nat)
    requires x in s.down
    ensures Work(DoArrive(s, x)) < Work(s)
  {
    Minus(s.down, x, x);
  }

  lemma CircuitCheckWork(c: Config, s: State)
    requires s.unchecked > 0
    ensures Work(DoCircuitCheck(c, s)) < Work(s)
  {
  }

  lemma HandWork(s: State, x: nat)
    requires x in s.handing
    ensures Work(DoHand(s, x)) < Work(s)
  {
    Minus(s.handing, x, x);
  }

  lemma StreamCheckWork(c: Config, s: State, x: nat)
    requires x in s.checking && x in s.streams
    ensures Work(DoStreamCheck(c, s, x)) < Work(s)
  {
    Minus(s.checking, x, x);
  }

  lemma AckWork(c: Config, s: State, a: Ack)
    requires Enabled(s, AckArrives(a))
    ensures Work(DoAck(c, s, a)) < Work(s)
  {
    Minus(s.up, a, a);
  }

  /** Each internal step brings settlement nearer. */
  lemma InternalWork(c: Config, s: State, e: Step)
    requires Internal(e) && Enabled(s, e)
    ensures Work(Next(c, s, e)) < Work(s)
  {
    match e
    case Arrive(x) => ArriveWork(s, x);
    case Hand(x) => HandWork(s, x);
    case StreamCheck(x) => StreamCheckWork(c, s, x);
    case AckArrives(a) => AckWork(c, s, a);
    case CircuitCheck => CircuitCheckWork(c, s);
  }

  lemma InternalOpen(c: Config, s: State, e: Step)
    requires Internal(e) && Enabled(s, e)
    ensures Next(c, s, e).open == s.open
  {
  }

  /** Unless everything has settled some internal step is possible. */
  lemma Progress(s: State) returns (e: Step)
    requires Known(s) && !Quiet(s)
    ensures Internal(e) && Enabled(s, e)
  {
    if s.unchecked > 0 {
      e := CircuitCheck;
    } else if x :| x in s.down {
      e := Arrive(x);
    } else if x :| x in s.handing {
      e := Hand(x);
    } else if x :| x in s.checking {
      assert !Silent(s, x);
      e := StreamCheck(x);
    } else {
      assert s.down == s.handing == s.checking == multiset{};
      var a :| a in s.up;
      assert a.StreamAck? ==> !Silent(s, a.id);
      e := AckArrives(a);
    }
  }

  ghost predicate AllInternal(es: seq<Step>) {
    forall i | 0 <= i < |es| :: Internal(es[i])
  }

  lemma RunCons(c: Config, s: State, e: Step, u: State, es: seq<Step>, t: State)
    requires Goes(c, s, e, u) && IsRun(c, u, es, t) && Internal(e) && AllInternal(es)
    ensures IsRun(c, s, [e] + es, t) && AllInternal([e] + es)
  {
    assert ([e] + es)[1..] == es;
  }

  lemma Advance(c: Config, s: State) returns (e: Step, u: State)
    requires Inv(c, s) && !Quiet(s)
    ensures Internal(e) && Goes(c, s, e, u) && Inv(c, u) && Work(u) < Work(s) && u.open == s.open
  {
    e := Progress(s);
    InternalWork(c, s, e);
    InternalOpen(c, s, e);
    StepKeeps(c, s, e);
    u := Next(c, s, e);
  }

  lemma Settles(c: Config, s: State) returns (es: seq<Step>, t: State)
    requires Inv(c, s)
    ensures IsRun(c, s, es, t) && AllInternal(es)
    ensures Inv(c, t) && Quiet(t) && t.open == s.open
    decreases Work(s)
  {
    if Quiet(s) {
      es, t := [], s;
    } else {
      var e, u := Advance(c, s);
      var rest: seq<Step>;
      rest, t := Settles(c, u);
      es := [e] + rest;
      RunCons(c, s, e, u, rest, t);
    }
  }

  /** Once settled, the peer may send on the circuit and on every open stream. */
  lemma QuietCanSend(c: Config, s: State, id: nat)
    requires Inv(c, s) && Quiet(s) && id in s.open
    ensures s.circ.peer == s.circ.deliver >= 1 && s.streams[id].peer == s.streams[id].deliver >= 1
    ensures Enabled(s, PeerSend(id))
  {
    assert LaneOk(c.stream, StreamView(s, id));
  }

  /** From every reachable state, settling alone leads to one where a given open stream can receive more. */
  lemma NoDeadlock(c: Config, es: seq<Step>, s: State, id: nat) returns (es': seq<Step>, t: State)
    requires c.circ.Valid() && c.stream.Valid() && IsRun(c, Initial(c), es, s) && id in s.open
    ensures IsRun(c, s, es', t) && AllInternal(es')
    ensures Enabled(t, PeerSend(id))
  {
    InitialInv(c);
    RunKeeps(c, Initial(c), es, s);
    es', t := Settles(c, s);
    QuietCanSend(c, t, id);
  }

  /** In every schedule each internal step uses up work, so no schedule of them is longer than the work there is. */
  lemma {:induction false} InternalRun(c: Config, s: State, es: seq<Step>, t: State)
    requires Inv(c, s) && IsRun(c, s, es, t) && AllInternal(es)
    ensures |es| + Work(t) <= Work(s) && Inv(c, t) && t.open == s.open
    decreases |es|
  {
    if es != [] {
      var u :| Goes(c, s, es[0], u) && IsRun(c, u, es[1..], t);
      InternalWork(c, s, es[0]);
      InternalOpen(c, s, es[0]);
      StepKeeps(c, s, es[0]);
      forall i | 0 <= i < |es[1..]|
        ensures Internal(es[1..][i])
      {
        assert Internal(es[i + 1]);
      }
      InternalRun(c, u, es[1..], t);
    }
  }

  /** No internal step can be taken. */
  ghost predicate Stuck(s: State) {
    forall e | Internal(e) :: !Enabled(s, e)
  }

  /**
   Every schedule of internal steps from a reachable state ends, and where it cannot go on
   everything has settled and the peer may send on every open stream.
  */
  lemma EverySettling(c: Config, es: seq<Step>, s: State, es': seq<Step>, t: State)
    requires c.circ.Valid() && c.stream.Valid() && IsRun(c, Initial(c), es, s)
    requires IsRun(c, s, es', t) && AllInternal(es')
    ensures |es'| + Work(t) <= Work(s)
    ensures Stuck(t) ==> Quiet(t) && t.open == s.open && forall id <- s.open :: Enabled(t, PeerSend(id))
  {
    InitialInv(c);
    RunKeeps(c, Initial(c), es, s);
    InternalRun(c, s, es', t);
    if Stuck(t) {
      if !Quiet(t) {
        var e := Progress(t);
        assert false;
      }
      forall id <- s.open
        ensures Enabled(t, PeerSend(id))
      {
        QuietCanSend(c, t, id);
      }
    }
  }
}
