/**
 From a hop to the reader of a stream: cells cross the circuit, the client decrypts them and hands
 the data of the stream to its buffer, and `recv` empties the buffer, each at its own pace.
*/
module Downstream {
  import opened Sequences
  import opened Bytes
  import opened RelayFormat
  import opened RelayBodies
  import opened Layers
  import opened OnionChannel
  import opened OnionSteps
  import opened OnionRun
  import opened StreamTransfer
  import Inbox = StreamInbox

  /** `listed` tells that the circuit still has the stream in its list. */
  datatype State = State(net: Circuit, box: Inbox.State, listed: bool)

  datatype Move = Net(e: Event) | Local(le: Inbox.Event)

  /** A stream whose owner has just called `connect`. */
  const OPENING: Inbox.State := Inbox.State(Inbox.Inbox(Inbox.Connecting, [], false), Inbox.Idle, [], [], false, false)

  /** What a cell is to the stream `id`: the hop that it came from is not looked at. */
  function CellEvent(p: bytes, id: nat): (e: Option<Inbox.Event>)
    requires |p| == CELL_LEN
  {
    match Open(p)
    case Err(_) => None
    case Ok((sid, body)) =>
      if sid != id then None
      else
        match body
        case Data(d) => Some(Inbox.Append(d))
        case End(_, _, _) => Some(Inbox.End)
        case Connected(_, _) => Some(Inbox.Confirm)
        case _ => None
  }

  /** Appends, ENDs and confirmations come from cells only. */
  predicate Can(s: State, mv: Move) {
    match mv
    case Net(e) => Enabled(s.net, e)
    case Local(e) => Inbox.Enabled(s.box, e) && !e.Append? && !e.End? && !e.Confirm?
  }

  function Handled(box: Inbox.State, v: Peeled, id: nat): (box': Inbox.State)
    requires v.Recognised? ==> |v.plain| == CELL_LEN
  {
    if v.Recognised? && CellEvent(v.plain, id).Some? then Inbox.Step(box, CellEvent(v.plain, id).value).0 else box
  }

  function Next(prim: Primitives, s: State, mv: Move, id: nat): (s': State)
    requires Can(s, mv)
  {
    match mv
    case Net(e) =>
      s.(net := Step(prim, s.net, e),
         box := if e.Receive? && s.listed then Handled(s.box, TakeVerdict(prim, s.net.back), id) else s.box)
    case Local(e) =>
      s.(box := Inbox.Step(s.box, e).0, listed := s.listed && !e.Close?)
  }

  // ---- what has arrived for the stream ----

  function Plains(ns: seq<Note>): (ps: seq<bytes>)
    ensures |ps| == |ns|
  {
    seq(|ns|, i requires 0 <= i < |ns| => ns[i].plain)
  }

  /** The bytes of the stream's data cells, whichever hop they came from. */
  function Arrived(c: Channel, id: nat): (d: bytes) {
    StreamData(Plains(c.got), id)
  }

  lemma ArrivedSnoc(c: Channel, n: Note, id: nat)
    ensures Arrived(c.(got := c.got + [n]), id) == Arrived(c, id) + CellData(n.plain, id)
  {
    assert Plains(c.got + [n]) == Plains(c.got) + [n.plain];
    StreamDataSnoc(Plains(c.got), n.plain, id);
  }

  /**
   What the octets of a cell make of it, its stream being octets 3 and 4 and its length 9 and 10: a
   DATA cell (2) of the stream brings its payload, a readable END (3) ends the stream, a readable
   CONNECTED (4) confirms it, and any other cell is nothing to it.
  */
  lemma EventByOctets(p: bytes, id: nat)
    requires |p| == 509
    ensures var stream, len := p[3] as int * 256 + p[4], p[9] as int * 256 + p[10];
            var n := if len <= 498 then len else 498;
            CellEvent(p, id) ==
              if stream != id then None
              else if p[0] == 2 then Some(Inbox.Append(p[11..11 + n]))
              else if p[0] == 3 && n > 0 && 1 <= p[11] <= 14 && (p[11] == 4 ==> n == 9) then Some(Inbox.End)
              else if p[0] == 4 && (n == 0 || n == 8) then Some(Inbox.Confirm)
              else None
  {
    var h := ParseHeader(p);
    assert p[3..5][0] == p[3] && p[3..5][1] == p[4] && p[9..11][0] == p[9] && p[9..11][1] == p[10];
    var n := if h.len <= 498 then h.len else 498;
    assert Payload(h) == p[11..11 + n];
    assert n > 0 ==> Payload(h)[0] == p[11];
  }

  /** A data cell is to the stream what it counts for, and only a data cell is. */
  lemma EventIsData(p: bytes, id: nat)
    requires |p| == CELL_LEN
    ensures var e := CellEvent(p, id);
            if e.Some? && e.value.Append? then CellData(p, id) == e.value.data else CellData(p, id) == []
  {
  }

  lemma HandledAccepts(box: Inbox.State, v: Peeled, id: nat)
    requires v.Recognised? ==> |v.plain| == CELL_LEN
    requires Inbox.Good(box) && !box.inbox.state.Closed?
    ensures var box' := Handled(box, v, id);
            && Inbox.Good(box') && !box'.inbox.state.Closed?
            && box'.accepted == box.accepted + (if v.Recognised? then CellData(v.plain, id) else [])
  {
    assert box.accepted + [] == box.accepted;
    if v.Recognised? {
      EventIsData(v.plain, id);
      if CellEvent(v.plain, id).Some? {
        Inbox.StepKeeps(box, CellEvent(v.plain, id).value);
      }
    }
  }

  /** While the stream is listed, what went into the buffer is what has arrived since; after that, a part of it. */
  ghost predicate Inv(prim: Primitives, s: State, id: nat, before: bytes) {
    && Good(prim, s.net) && Inbox.Good(s.box)
    && before + s.box.accepted <= Arrived(s.net.back, id)
    && (s.listed ==> !s.box.inbox.state.Closed? && before + s.box.accepted == Arrived(s.net.back, id))
  }

  lemma ReceiveGets(prim: Primitives, c: Channel, id: nat)
    requires c.flights != []
    ensures var v := TakeVerdict(prim, c);
            Arrived(Take(prim, c), id) == Arrived(c, id) + (if v.Recognised? then CellData(v.plain, id) else [])
  {
    var v := TakeVerdict(prim, c);
    if v.Recognised? {
      ArrivedSnoc(c, Note(v.hop, v.plain), id);
    } else {
      assert c.got + [] == c.got && Arrived(c, id) + [] == Arrived(c, id);
    }
  }

  lemma OthersGetNothing(prim: Primitives, s: Circuit, e: Event)
    requires Enabled(s, e) && !e.Receive?
    ensures Step(prim, s, e).back.got == s.back.got
  {
  }

  lemma ReceiveKept(prim: Primitives, s: State, id: nat, before: bytes)
    requires Inv(prim, s, id, before) && Enabled(s.net, Receive) && NoAccident(prim, s.net, Receive)
    ensures Inv(prim, Next(prim, s, Net(Receive), id), id, before)
  {
    StepKeeps(prim, s.net, Receive);
    ReceiveGets(prim, s.net.back, id);
    if s.listed {
      var v := TakeVerdict(prim, s.net.back);
      HandledAccepts(s.box, v, id);
      Assoc(before, s.box.accepted, if v.Recognised? then CellData(v.plain, id) else []);
    }
  }

  lemma LocalKept(prim: Primitives, s: State, e: Inbox.Event, id: nat, before: bytes)
    requires Inv(prim, s, id, before) && Can(s, Local(e))
    ensures Inv(prim, Next(prim, s, Local(e), id), id, before)
  {
    Inbox.StepKeeps(s.box, e);
  }

  lemma MoveKept(prim: Primitives, s: State, mv: Move, id: nat, before: bytes)
    requires Inv(prim, s, id, before) && Can(s, mv) && (mv.Net? ==> NoAccident(prim, s.net, mv.e))
    ensures Inv(prim, Next(prim, s, mv, id), id, before)
  {
    match mv
    case Local(e) => LocalKept(prim, s, e, id, before);
    case Net(e) =>
      if e.Receive? {
        ReceiveKept(prim, s, id, before);
      } else {
        StepKeeps(prim, s.net, e);
        OthersGetNothing(prim, s.net, e);
      }
  }

  ghost predicate CanRun(prim: Primitives, s: State, ms: seq<Move>, id: nat)
    decreases |ms|
  {
    ms == [] ||
    (&& Can(s, ms[0]) && (ms[0].Net? ==> NoAccident(prim, s.net, ms[0].e))
     && CanRun(prim, Next(prim, s, ms[0], id), ms[1..], id))
  }

  ghost function After(prim: Primitives, s: State, ms: seq<Move>, id: nat): (t: State)
    requires CanRun(prim, s, ms, id)
    decreases |ms|
  {
    if ms == [] then s else After(prim, Next(prim, s, ms[0], id), ms[1..], id)
  }

  lemma {:induction false} RunKept(prim: Primitives, s: State, ms: seq<Move>, id: nat, before: bytes)
    requires Inv(prim, s, id, before) && CanRun(prim, s, ms, id)
    ensures Inv(prim, After(prim, s, ms, id), id, before)
    decreases |ms|
  {
    if ms != [] {
      MoveKept(prim, s, ms[0], id, before);
      RunKept(prim, Next(prim, s, ms[0], id), ms[1..], id, before);
    }
  }

  // ---- end to end ----

  /** No hop but `h` has data for the stream among these cells. */
  ghost predicate OnlyFrom(ns: seq<Note>, h: nat, id: nat) {
    forall k: nat | k != h :: StreamData(Of(ns, k), id) == []
  }

  /** The cells of two hops are both among all cells. */
  lemma {:induction false} TwoSenders(ns: seq<Note>, h: nat, k: nat, id: nat)
    requires h != k
    ensures |StreamData(Plains(ns), id)| >= |StreamData(Of(ns, h), id)| + |StreamData(Of(ns, k), id)|
  {
    if ns != [] {
      assert Plains(ns)[0] == ns[0].plain && Plains(ns)[1..] == Plains(ns[1..]);
      HeadOf(ns, h, id);
      HeadOf(ns, k, id);
      TwoSenders(ns[1..], h, k, id);
    }
  }

  lemma {:induction false} OneSender(ns: seq<Note>, h: nat, id: nat)
    requires OnlyFrom(ns, h, id)
    ensures StreamData(Plains(ns), id) == StreamData(Of(ns, h), id)
  {
    if ns != [] {
      var n, rest := ns[0], ns[1..];
      assert Plains(ns)[0] == n.plain && Plains(ns)[1..] == Plains(rest);
      forall k: nat
        ensures StreamData(Of(ns, k), id) == (if n.edge == k then CellData(n.plain, id) else []) + StreamData(Of(rest, k), id)
      {
        HeadOf(ns, k, id);
      }
      assert n.edge != h ==> StreamData(Of(ns, n.edge), id) == [];
      OneSender(rest, h, id);
    }
  }

  /** The cells of all hops carry the data of one of them if and only if the others have none. */
  lemma OneSenderIff(ns: seq<Note>, h: nat, id: nat)
    ensures StreamData(Plains(ns), id) == StreamData(Of(ns, h), id) <==> OnlyFrom(ns, h, id)
  {
    if OnlyFrom(ns, h, id) {
      OneSender(ns, h, id);
    } else {
      var k: nat :| k != h && StreamData(Of(ns, k), id) != [];
      TwoSenders(ns, h, k, id);
    }
  }

  lemma HeadOf(ns: seq<Note>, k: nat, id: nat)
    requires ns != []
    ensures StreamData(Of(ns, k), id) ==
            (if ns[0].edge == k then CellData(ns[0].plain, id) else []) + StreamData(Of(ns[1..], k), id)
  {
    var n, rest := ns[0], Of(ns[1..], k);
    if n.edge == k {
      assert ([n.plain] + rest)[1..] == rest;
    } else {
      assert [] + rest == rest;
    }
  }

  /** What has arrived from each hop is a front part of what it sent, and all of it when nothing is in flight. */
  lemma GotOfSent(prim: Primitives, c: Channel, h: nat, id: nat)
    requires InStep(prim, c)
    ensures StreamData(Of(c.got, h), id) <= StreamData(Of(c.sent, h), id)
    ensures c.flights == [] ==> StreamData(Of(c.got, h), id) == StreamData(Of(c.sent, h), id)
  {
    Quiet(prim, c, h);
    StreamDataPrefix(Of(c.got, h), Of(c.sent, h), id);
  }

  lemma OnlyFromGot(prim: Primitives, c: Channel, h: nat, id: nat)
    requires InStep(prim, c)
    ensures OnlyFrom(c.sent, h, id) ==> OnlyFrom(c.got, h, id)
    ensures c.flights == [] ==> (OnlyFrom(c.sent, h, id) <==> OnlyFrom(c.got, h, id))
  {
    forall k: nat
      ensures StreamData(Of(c.got, k), id) <= StreamData(Of(c.sent, k), id)
      ensures c.flights == [] ==> StreamData(Of(c.got, k), id) == StreamData(Of(c.sent, k), id)
    {
      GotOfSent(prim, c, k, id);
    }
  }

  lemma ReadOfArrived(prim: Primitives, net: Circuit, ms: seq<Move>, t: State, id: nat)
    requires Good(prim, net) && CanRun(prim, State(net, OPENING, true), ms, id)
    requires t == After(prim, State(net, OPENING, true), ms, id)
    ensures Good(prim, t.net)
    ensures var before, arrived := Arrived(net.back, id), Arrived(t.net.back, id);
            && before + t.box.returned <= arrived
            && (t.listed && t.box.inbox.buffer == [] ==> before + t.box.returned == arrived)
  {
    var before := Arrived(net.back, id);
    assert before + OPENING.accepted == before;
    RunKept(prim, State(net, OPENING, true), ms, id, before);
    Assoc(before, t.box.returned, t.box.inbox.buffer);
    assert t.box.returned + [] == t.box.returned;
  }

  /**
   End to end, towards the client. What `recv` has returned since the stream was opened goes on
   where hop `h`'s data then stood, when no other hop sends data with the stream's id. With the
   stream still listed, nothing in flight and nothing buffered, it is all that the hop has sent, if
   and only if no other hop did: the code does not compare the hop of a cell with the stream's.
  */
  lemma ReadsWhatHopSent(prim: Primitives, es: seq<Event>, net: Circuit, ms: seq<Move>, t: State, h: nat, id: nat)
    requires IsRun(prim, NO_CIRCUIT, es, net) && OnlyFrom(net.back.sent, h, id)
    requires CanRun(prim, State(net, OPENING, true), ms, id) && t == After(prim, State(net, OPENING, true), ms, id)
    ensures var read := StreamData(Of(net.back.got, h), id) + t.box.returned;
            var sent := StreamData(Of(t.net.back.sent, h), id);
            && (OnlyFrom(t.net.back.sent, h, id) ==> read <= sent)
            && (t.listed && t.net.back.flights == [] && t.box.inbox.buffer == [] ==>
                  (read == sent <==> OnlyFrom(t.net.back.sent, h, id)))
  {
    NoCircuitGood(prim);
    RunKeeps(prim, NO_CIRCUIT, es, net);
    OnlyFromGot(prim, net.back, h, id);
    OneSender(net.back.got, h, id);
    ReadOfArrived(prim, net, ms, t, id);
    OnlyFromGot(prim, t.net.back, h, id);
    OneSenderIff(t.net.back.got, h, id);
    GotOfSent(prim, t.net.back, h, id);
  }
}
