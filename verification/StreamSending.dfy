/**
 From the call of `send` to the far end of the stream: what the client's objects do is a stretch of
 the circuit's run, and with many threads it is the order of the lock that the far end sees.
*/
module StreamSending {
  import opened Sequences
  import opened Bytes
  import opened RelayFormat
  import opened Layers
  import opened OnionChannel
  import opened OnionSteps
  import opened OnionRun
  import opened RelayCrypto
  import opened StreamTransfer
  import opened CircuitRefinement
  import Lock = SendLock

  function DataMessage(id: nat, c: bytes): (m: Message) {
    Message(DATA_NUM, id, c)
  }

  function DataSends(id: nat, cs: seq<bytes>): (es: seq<Event>)
    ensures |es| == |cs|
  {
    if cs == [] then [] else [Send(DataMessage(id, cs[0]))] + DataSends(id, cs[1..])
  }

  lemma {:induction false} DataSentOn(id: nat, cs: seq<bytes>)
    ensures SentOn(DataSends(id, cs), id) == cs && Uninterrupted(DataSends(id, cs), id)
  {
    if cs != [] {
      DataSentOn(id, cs[1..]);
      var es := DataSends(id, cs);
      assert es[0] == Send(DataMessage(id, cs[0])) && es[1..] == DataSends(id, cs[1..]);
      assert EventData(es[0], id) == [cs[0]];
    }
  }

  /** The wire bytes of the cells that come last on a list of flights. */
  function Wires(fs: seq<Flight>): (ws: seq<bytes>)
    ensures |ws| == |fs|
  {
    seq(|fs|, i requires 0 <= i < |fs| => fs[i].wire)
  }

  /** Between `s` and `t` only those cells were sent. */
  ghost predicate Only(s: Circuit, t: Circuit, ls: seq<Layer>, ws: seq<bytes>) {
    && t.back == s.back && t.fwd.writer == ls && s.fwd.flights <= t.fwd.flights
    && Wires(t.fwd.flights[|s.fwd.flights|..]) == ws
  }

  lemma SendOne(prim: Primitives, s: Circuit, id: nat, c: bytes)
    requires |s.fwd.writer| > 0 && id < 0x1_0000 && |c| <= MAX_PAYLOAD
    ensures var m := DataMessage(id, c);
            && Goes(prim, s, Send(m), Step(prim, s, Send(m)))
            && Only(s, Step(prim, s, Send(m)), Seal(prim, s.fwd.writer, DATA_NUM, id, c).0,
                    [Seal(prim, s.fwd.writer, DATA_NUM, id, c).1])
  {
    var fs := s.fwd.flights;
    var f := Written(prim, s.fwd.writer, 0, |s.fwd.writer| - 1, DataMessage(id, c));
    assert fs[..|fs|] + [f] + fs[|fs|..] == fs + [f];
    assert (fs + [f])[|fs|..] == [f];
  }

  lemma OnlyChain(s: Circuit, u: Circuit, t: Circuit, ls: seq<Layer>, w: bytes, ls': seq<Layer>, ws: seq<bytes>)
    requires Only(s, u, ls, [w]) && Only(u, t, ls', ws)
    ensures Only(s, t, ls', [w] + ws)
  {
    var n, k := |s.fwd.flights|, |u.fwd.flights|;
    assert |Wires(u.fwd.flights[n..])| == 1;
    assert t.fwd.flights[n..] == u.fwd.flights[n..] + t.fwd.flights[k..];
    assert Wires(t.fwd.flights[n..]) == Wires(u.fwd.flights[n..]) + Wires(t.fwd.flights[k..]);
  }

  lemma {:induction false} SealAllIsRun(prim: Primitives, s: Circuit, id: nat, cs: seq<bytes>) returns (t: Circuit)
    requires |s.fwd.writer| > 0 && id < 0x1_0000 && Fit(cs)
    ensures IsRun(prim, s, DataSends(id, cs), t)
    ensures Only(s, t, SealAll(prim, s.fwd.writer, id, cs).0, SealAll(prim, s.fwd.writer, id, cs).1)
    decreases |cs|
  {
    t := s;
    if cs == [] {
      assert s.fwd.flights[|s.fwd.flights|..] == [];
    } else {
      SendOne(prim, s, id, cs[0]);
      var u := Step(prim, s, Send(DataMessage(id, cs[0])));
      t := SealAllIsRun(prim, u, id, cs[1..]);
      var es := DataSends(id, cs);
      assert es[0] == Send(DataMessage(id, cs[0])) && es[1..] == DataSends(id, cs[1..]);
      assert Goes(prim, s, es[0], u);
      var (ls, w) := Seal(prim, s.fwd.writer, DATA_NUM, id, cs[0]);
      OnlyChain(s, u, t, ls, w, SealAll(prim, ls, id, cs[1..]).0, SealAll(prim, ls, id, cs[1..]).1);
    }
  }

  lemma {:induction false} StillHeld(prim: Primitives, s: Circuit, es: seq<Event>, t: Circuit)
    requires Reachable(prim, s) && IsRun(prim, s, es, t)
    ensures Reachable(prim, t)
    decreases |es|
  {
    if es != [] {
      var u :| Goes(prim, s, es[0], u) && IsRun(prim, u, es[1..], t);
      StillReachable(prim, s, es[0], u);
      StillHeld(prim, u, es[1..], t);
    }
  }

  /** `send` on objects that are where a run is: the chunks, in order, are the run's next sends. */
  method SendOn(stream: TorStream, data: bytes, ghost s: Circuit) returns (wires: seq<bytes>, ghost t: Circuit)
    requires Holds(stream.circuit, s) && |stream.circuit.nodes| > 0 && stream.id < 0x1_0000
    modifies stream.circuit.nodes, stream.circuit.LastWindow()`package
    ensures Holds(stream.circuit, t) && Only(s, t, stream.circuit.Forward(), wires)
    ensures var es := DataSends(stream.id, Chunks(data, MAX_PAYLOAD));
            IsRun(stream.circuit.prim, s, es, t) && SentOn(es, stream.id) == Chunks(data, MAX_PAYLOAD)
    ensures var w := stream.circuit.LastWindow(); w.package == old(w.package) - |Chunks(data, MAX_PAYLOAD)|
  {
    wires := stream.Send(data);
    DataSentOn(stream.id, Chunks(data, MAX_PAYLOAD));
    t := SealAllIsRun(stream.circuit.prim, s, stream.id, Chunks(data, MAX_PAYLOAD));
    StillHeld(stream.circuit.prim, s, DataSends(stream.id, Chunks(data, MAX_PAYLOAD)), t);
  }

  lemma {:induction false} SentToSilent(n: nat, fs: seq<Event>, h: nat, id: nat)
    requires SentOn(fs, id) == []
    ensures SentTo(n, fs, h, id) == []
    decreases |fs|
  {
    if fs != [] {
      assert EventData(fs[0], id) == [] && SentOn(fs[1..], id) == [];
      SentToSilent(if fs[0].Extend? then n + 1 else n, fs[1..], h, id);
    }
  }

  /** During the call and after it the stream is sent the data and nothing else. */
  lemma SendSends(prim: Primitives, s: Circuit, t: Circuit, fs: seq<Event>, u: Circuit, h: nat, id: nat, data: bytes)
    requires |s.fwd.writer| == h + 1 && SentOn(fs, id) == []
    requires IsRun(prim, s, DataSends(id, Chunks(data, MAX_PAYLOAD)), t) && IsRun(prim, t, fs, u)
    ensures SentData(u.fwd, h, id) == SentData(s.fwd, h, id) + data
  {
    DataSentOn(id, Chunks(data, MAX_PAYLOAD));
    TransferSends(prim, s, DataSends(id, Chunks(data, MAX_PAYLOAD)), t, h, id, data);
    RunSends(prim, t, fs, u, h, id);
    SentToSilent(|t.fwd.writer|, fs, h, id);
    assert SentData(t.fwd, h, id) + [] == SentData(t.fwd, h, id);
  }

  lemma ThreeRuns(prim: Primitives, es: seq<Event>, s: Circuit, fs: seq<Event>, t: Circuit, gs: seq<Event>, u: Circuit)
    requires IsRun(prim, NO_CIRCUIT, es, s) && IsRun(prim, s, fs, t) && IsRun(prim, t, gs, u)
    ensures Good(prim, u)
  {
    NoCircuitGood(prim);
    RunKeeps(prim, NO_CIRCUIT, es, s);
    RunKeeps(prim, s, fs, t);
    RunKeeps(prim, t, gs, u);
  }

  /** What a hop has read of a stream, in step with the client, is a front part of what it was sent. */
  lemma GotOfSent(prim: Primitives, c: Circuit, h: nat, id: nat)
    requires Good(prim, c)
    ensures StreamData(Of(c.fwd.got, h), id) <= SentData(c.fwd, h, id)
    ensures c.fwd.flights == [] ==> StreamData(Of(c.fwd.got, h), id) == SentData(c.fwd, h, id)
  {
    Quiet(prim, c.fwd, h);
    StreamDataPrefix(Of(c.fwd.got, h), Of(c.fwd.sent, h), id);
  }

  /** And whatever happens on the circuit after the call, the far end gets the data: a prefix always, in the end all of it. */
  lemma SendIsDelivered(prim: Primitives, before: seq<Event>, s: Circuit, t: Circuit, fs: seq<Event>, u: Circuit,
                        h: nat, id: nat, data: bytes)
    requires IsRun(prim, NO_CIRCUIT, before, s) && |s.fwd.writer| == h + 1 && SentOn(fs, id) == []
    requires IsRun(prim, s, DataSends(id, Chunks(data, MAX_PAYLOAD)), t) && IsRun(prim, t, fs, u)
    ensures var read, sent := StreamData(Of(u.fwd.got, h), id), SentData(s.fwd, h, id) + data;
            read <= sent && (u.fwd.flights == [] ==> read == sent)
  {
    SendSends(prim, s, t, fs, u, h, id, data);
    ThreeRuns(prim, before, s, DataSends(id, Chunks(data, MAX_PAYLOAD)), t, fs, u);
    GotOfSent(prim, u, h, id);
  }

  // ---- with any number of threads ----

  /** The data of one stream among messages. */
  function Payloads(ms: seq<Message>, id: nat): (cs: seq<bytes>) {
    if ms == [] then [] else EventData(Send(ms[0]), id) + Payloads(ms[1..], id)
  }

  lemma {:induction false} PayloadsAppend(a: seq<Message>, b: seq<Message>, id: nat)
    ensures Payloads(a + b, id) == Payloads(a, id) + Payloads(b, id)
  {
    if a == [] {
      assert a + b == b;
    } else {
      assert (a + b)[0] == a[0] && (a + b)[1..] == a[1..] + b;
      PayloadsAppend(a[1..], b, id);
      Assoc(EventData(Send(a[0]), id), Payloads(a[1..], id), Payloads(b, id));
    }
  }

  lemma {:induction false} SentOnIsPayloads(es: seq<Event>, id: nat)
    ensures SentOn(es, id) == Payloads(Lock.Sends(es), id)
  {
    if es != [] {
      SentOnIsPayloads(es[1..], id);
      if es[0].Send? {
        assert Lock.Sends(es)[0] == es[0].m && Lock.Sends(es)[1..] == Lock.Sends(es[1..]);
      } else {
        assert Lock.Sends(es) == Lock.Sends(es[1..]);
      }
    }
  }

  /** The data that threads took the lock with for one stream, in that order, is sent on it, but for a thread yet to begin. */
  lemma ThreadsSend(prim: Primitives, ms: seq<Lock.Move>, s: Lock.System, es: seq<Event>, id: nat)
    requires Lock.IsSchedule(prim, Lock.START, ms)
    requires s == Lock.After(prim, Lock.START, ms) && es == Lock.Events(prim, Lock.START, ms)
    ensures SentOn(es, id) + Payloads(Lock.Waiting(s), id) == Payloads(Lock.Acquired(ms), id)
  {
    Lock.OrderFromStart(prim, ms);
    SentOnIsPayloads(es, id);
    PayloadsAppend(Lock.Sends(es), Lock.Waiting(s), id);
  }

  lemma AsItStands(prim: Primitives, s: Lock.System)
    requires Lock.Inv(s)
    ensures Lock.Abstract(prim, s).fwd.got == s.net.fwd.got
    ensures !Lock.Midway(Lock.Pending(s)) ==> Lock.Abstract(prim, s) == s.net
  {
  }

  /**
   Every schedule: each hop reads, of each stream, a prefix of the data sent while it was the last
   hop, and all of it when no cell is half sealed or on its way.
  */
  lemma ThreadsDeliver(prim: Primitives, ms: seq<Lock.Move>, s: Lock.System, es: seq<Event>, h: nat, id: nat)
    requires Lock.IsSchedule(prim, Lock.START, ms)
    requires s == Lock.After(prim, Lock.START, ms) && es == Lock.Events(prim, Lock.START, ms)
    ensures StreamData(Of(s.net.fwd.got, h), id) <= Concat(SentTo(0, es, h, id))
    ensures s.net.fwd.flights == [] && !Lock.Midway(Lock.Pending(s)) ==>
              StreamData(Of(s.net.fwd.got, h), id) == Concat(SentTo(0, es, h, id))
  {
    Lock.RunFromStart(prim, ms);
    var c := Lock.Abstract(prim, s);
    FromNothing(prim, es, c, h, id);
    GotOfSent(prim, c, h, id);
    AsItStands(prim, s);
  }

  lemma FromNothing(prim: Primitives, es: seq<Event>, c: Circuit, h: nat, id: nat)
    requires IsRun(prim, NO_CIRCUIT, es, c)
    ensures SentData(c.fwd, h, id) == Concat(SentTo(0, es, h, id))
  {
    RunSends(prim, NO_CIRCUIT, es, c, h, id);
    var d := Concat(SentTo(0, es, h, id));
    assert [] + d == d;
  }
}
