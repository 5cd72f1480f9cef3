/**
 The client's objects in a run of the circuit: each method that sends, receives or extends is the
 run's own step, and what the relays do meanwhile does not reach the objects.
*/
module CircuitRefinement {
  import opened Sequences
  import opened Bytes
  import opened RelayFormat
  import opened RelayBodies
  import opened Layers
  import opened OnionChannel
  import opened OnionSteps
  import opened OnionRun
  import opened RelayCrypto
  import SendLock

  ghost predicate Reachable(prim: Primitives, s: Circuit) {
    exists es :: IsRun(prim, NO_CIRCUIT, es, s)
  }

  /** The client's layers are the run's: it writes forward and reads backward. */
  ghost predicate Holds(c: TorCircuit, s: Circuit)
    reads c, c.nodes
  {
    c.Valid() && c.Forward() == s.fwd.writer && c.Backward() == s.back.reader && Reachable(c.prim, s)
  }

  lemma {:induction false} RunSnoc(prim: Primitives, s: Circuit, es: seq<Event>, t: Circuit, e: Event, u: Circuit)
    requires IsRun(prim, s, es, t) && Goes(prim, t, e, u)
    ensures IsRun(prim, s, es + [e], u)
    decreases |es|
  {
    if es == [] {
      assert [e][1..] == [] && IsRun(prim, u, [], u) && es + [e] == [e];
    } else {
      var v :| Goes(prim, s, es[0], v) && IsRun(prim, v, es[1..], t);
      RunSnoc(prim, v, es[1..], t, e, u);
      assert (es + [e])[1..] == es[1..] + [e];
    }
  }

  lemma StillReachable(prim: Primitives, s: Circuit, e: Event, t: Circuit)
    requires Reachable(prim, s) && Goes(prim, s, e, t)
    ensures Reachable(prim, t)
  {
    var es :| IsRun(prim, NO_CIRCUIT, es, s);
    RunSnoc(prim, NO_CIRCUIT, es, s, e, t);
  }

  /** The relays' own steps leave the client's objects in the run. */
  lemma RelaysApart(c: TorCircuit, s: Circuit, e: Event, t: Circuit)
    requires Holds(c, s) && Goes(c.prim, s, e, t) && (e.Pass? || e.Reply? || e.Hand?)
    ensures Holds(c, t)
  {
    StillReachable(c.prim, s, e, t);
  }

  /** What the client makes of a plaintext from hop `h`. */
  ghost predicate Reported(p: bytes, h: nat, streamId: nat, r: Result<(nat, Body), CellError>)
    requires |p| == CELL_LEN
  {
    match Open(p)
    case Ok((id, body)) => r == Ok((h, body)) && streamId == id
    case Err(e) => r == Err(e)
  }

  /** In a reachable state the loop finds the hop that wrote the cell and the bytes it wrote. */
  lemma OldestIsFound(prim: Primitives, s: Circuit)
    requires Reachable(prim, s) && Enabled(s, Receive) && NoAccident(prim, s, Receive)
    ensures var f := s.back.flights[0];
            && |f.plain| == CELL_LEN && Peel(prim, s.back.reader, 0, f.wire) == Recognised(f.edge, f.plain)
            && Step(prim, s, Receive).back.reader == Settle(s.back.reader, |f.wire|, Recognised(f.edge, f.plain))
  {
    var es :| IsRun(prim, NO_CIRCUIT, es, s);
    NextReceived(prim, es, s);
  }

  /** The receiver thread decrypts the oldest cell: it reports the sender and what it sent, and is where `Receive` is. */
  method HandleRelay(c: TorCircuit, cell: RelayCell, ghost s: Circuit) returns (r: Result<(nat, Body), CellError>)
    requires Holds(c, s) && Enabled(s, Receive) && NoAccident(c.prim, s, Receive)
    requires cell.encrypted == Some(s.back.flights[0].wire) && !cell.checked
    modifies c.nodes, cell
    ensures Holds(c, Step(c.prim, s, Receive))
    ensures var f := s.back.flights[0]; |f.plain| == CELL_LEN && Reported(f.plain, f.edge, cell.streamId, r)
  {
    OldestIsFound(c.prim, s);
    StillReachable(c.prim, s, Receive, Step(c.prim, s, Receive));
    r := c.Decrypt(cell);
  }

  /** The cell that a `Send` puts on the link to the first relay. */
  function NewFlight(prim: Primitives, s: Circuit, m: Message): (f: Flight)
    requires Enabled(s, Send(m))
  {
    Written(prim, s.fwd.writer, 0, |s.fwd.writer| - 1, m)
  }

  /** The cell that `Send` puts last on the wire is the one that the objects made. */
  method SendRelay(c: TorCircuit, body: Body, streamId: nat, ghost s: Circuit) returns (r: Result<bytes, CellError>)
    requires Holds(c, s) && |c.nodes| > 0 && Proper(body)
    modifies c.nodes
    ensures var m := Message(Num(body), streamId, Serialize(body));
            && (r.Ok? <==> Enabled(s, Send(m)))
            && (r.Err? ==> Holds(c, s))
            && (r.Ok? ==>
                  && Holds(c, Step(c.prim, s, Send(m)))
                  && Step(c.prim, s, Send(m)).fwd.flights == s.fwd.flights + [NewFlight(c.prim, s, m)]
                  && NewFlight(c.prim, s, m).wire == r.value)
  {
    ghost var m := Message(Num(body), streamId, Serialize(body));
    r := c.SendRelay(body, streamId);
    if r.Ok? {
      StillReachable(c.prim, s, Send(m), Step(c.prim, s, Send(m)));
    }
  }

  /** A finished handshake is `Extend`. */
  method Extended(c: TorCircuit, secret: bytes, ghost s: Circuit)
    requires Holds(c, s) && |secret| == SECRET_LEN
    modifies c
    ensures Holds(c, Step(c.prim, s, Extend(secret)))
  {
    c.Append(secret);
    StillReachable(c.prim, s, Extend(secret), Step(c.prim, s, Extend(secret)));
  }

  /** A hop made from a secret encrypts forward with Kf over Df and decrypts backward with Kb over Db. */
  method NewHop(prim: Primitives, k: KeyMaterial) returns (node: CryptoState)
    requires k.Sized()
    ensures fresh(node) && node.Forward() == Layer(k.kf, 0, k.df) && node.Backward() == Layer(k.kb, 0, k.db)
  {
    KeysInOrder(k);
    node := new CryptoState(prim, k.Secret());
  }

  /** So it does as the last hop of a circuit, and the other hops are what they were. */
  method AppendHop(c: TorCircuit, k: KeyMaterial)
    requires c.Valid() && k.Sized()
    modifies c
    ensures c.Valid()
    ensures c.Forward() == old(c.Forward()) + [Layer(k.kf, 0, k.df)]
    ensures c.Backward() == old(c.Backward()) + [Layer(k.kb, 0, k.db)]
  {
    KeysInOrder(k);
    c.Append(k.Secret());
  }

  /** The message in a relay cell that a thread is sending. */
  ghost predicate Carries(cell: RelayCell, m: Message)
    reads cell
  {
    cell.inner.Some? && Proper(cell.inner.value) &&
    m == Message(Num(cell.inner.value), cell.streamId, Serialize(cell.inner.value))
  }

  /** One hop's turn in the loop under the lock: the first to get the cell stamps it, each adds its layer. */
  method EncryptTurn(node: CryptoState, cell: RelayCell, ghost m: Message, ghost c: Option<SendLock.Cell>)
    requires Carries(cell, m) && m.Fits()
    requires match c
             case None => cell.Fresh()
             case Some(x) => cell.digest.Some? && cell.encrypted == Some(x.wire)
    modifies node`forwardPos, node`forwardDigest, cell`digest, cell`encrypted
    ensures var (l, x) := SendLock.Hop(node.prim, old(node.Forward()), m, c);
            && node.Forward() == l && Carries(cell, m)
            && cell.digest.Some? && cell.encrypted == Some(x.wire)
  {
    node.EncryptForward(cell);
  }
}
