/**
 The client's objects: the relay cell that is prepared, encrypted and decrypted in place, the
 crypto state of one hop, and the circuit that loops over its hops.
*/
module RelayCrypto {
  import opened Sequences
  import opened Bytes
  import opened RelayFormat
  import opened Layers
  import opened RelayBodies
  import Flow = FlowControl
  import OnionRun

  class RelayCell {
    var inner: Option<Body>
    var padding: bytes
    var streamId: nat
    var digest: Option<bytes>
    var encrypted: Option<bytes>
    var checked: bool

    constructor Outgoing(body: Body, streamId: nat)
      ensures inner == Some(body) && padding == [] && this.streamId == streamId
      ensures digest.None? && encrypted.None? && !checked
    {
      inner, padding, this.streamId := Some(body), [], streamId;
      digest, encrypted, checked := None, None, false;
    }

    constructor Incoming(payload: bytes)
      ensures inner.None? && encrypted == Some(payload) && !checked
    {
      inner, padding, this.streamId := None, [], 0;
      digest, encrypted, checked := None, Some(payload), false;
    }

    /** A cell that the client has built and not yet sent. */
    ghost predicate Fresh()
      reads this
    {
      inner.Some? && Proper(inner.value) && padding == [] && digest.None? && encrypted.None?
    }

    function Payload(): (p: bytes)
      requires inner.Some? && Proper(inner.value)
      reads this
    {
      Serialize(inner.value)
    }

    predicate Packs()
      requires inner.Some? && Proper(inner.value)
      reads this
    {
      streamId < 0x1_0000 && |Payload()| + |padding| <= MAX_PAYLOAD
    }

    /** What the holder of `l` will make of a fresh cell. */
    ghost predicate Stamps(prim: Primitives, l: Layer, plain: bytes)
      reads this
    {
      Fresh() && Packs() && plain == Stamp(prim, l, Num(inner.value), streamId, Payload())
    }

    /** The header, with the digest if there is one, and the body. */
    function Plain(): (p: bytes)
      requires inner.Some? && Proper(inner.value) && Packs() && (digest.Some? ==> |digest.value| == 4)
      reads this
    {
      Pack(Num(inner.value), streamId, if digest.Some? then digest.value else NO_DIGEST, Payload(), padding)
    }

    /** Stores the result of decryption; an exception leaves the cell as it was. */
    method SetDecrypted(p: bytes) returns (r: Result<(), CellError>)
      requires |p| == CELL_LEN
      modifies this
      ensures match Open(p)
              case Ok((sid, body)) =>
                && r == Ok(()) && inner == Some(body) && streamId == sid && digest == Some(ParseHeader(p).digest)
                && padding == RelayFormat.Padding(ParseHeader(p)) && encrypted.None? && checked
              case Err(e) => r == Err(e) && unchanged(this)
    {
      var h := ParseHeader(p);
      match Deserialize(h.num, RelayFormat.Payload(h)) {
        case Err(e) => return Err(e);
        case Ok(body) =>
          inner, padding, streamId, digest := Some(body), RelayFormat.Padding(h), h.streamId, Some(h.digest);
          encrypted, checked := None, true;
          return Ok(());
      }
    }
  }

  class CryptoState {
    const prim: Primitives
    const forwardKey: bytes
    const backwardKey: bytes
    var forwardPos: nat
    var backwardPos: nat
    var forwardDigest: bytes   // everything fed to the running digest
    var backwardDigest: bytes

    constructor (prim: Primitives, secret: bytes)
      requires |secret| == OnionRun.SECRET_LEN
      ensures this.prim == prim
      ensures Forward() == OnionRun.ForwardLayer(secret) && Backward() == OnionRun.BackwardLayer(secret)
    {
      this.prim := prim;
      forwardDigest, backwardDigest := secret[..20], secret[20..40];
      forwardKey, backwardKey := secret[40..56], secret[56..72];
      forwardPos, backwardPos := 0, 0;
    }

    function Forward(): (l: Layer)
      reads this
    {
      Layer(forwardKey, forwardPos, forwardDigest)
    }

    function Backward(): (l: Layer)
      reads this
    {
      Layer(backwardKey, backwardPos, backwardDigest)
    }

    method Digesting(payload: bytes) returns (d: bytes)
      modifies this`forwardDigest
      ensures forwardDigest == old(forwardDigest) + payload && d == Digest4(prim, forwardDigest)
    {
      forwardDigest := forwardDigest + payload;
      d := Digest4(prim, forwardDigest);
    }

    method Encrypting(payload: bytes) returns (e: bytes)
      modifies this`forwardPos
      ensures e == Crypt(prim, forwardKey, old(forwardPos), payload) && forwardPos == old(forwardPos) + |payload|
    {
      e := Crypt(prim, forwardKey, forwardPos, payload);
      forwardPos := forwardPos + |payload|;
    }

    method Decrypting(payload: bytes) returns (p: bytes)
      modifies this`backwardPos
      ensures p == Crypt(prim, backwardKey, old(backwardPos), payload) && backwardPos == old(backwardPos) + |payload|
    {
      p := Crypt(prim, backwardKey, backwardPos, payload);
      backwardPos := backwardPos + |payload|;
    }

    /** A trial on a copy of the running digest; only a match is kept. */
    method DigestCheck(payload: bytes, digest: bytes) returns (ok: bool)
      modifies this`backwardDigest
      ensures ok == (Digest4(prim, old(backwardDigest) + payload) == digest)
      ensures backwardDigest == if ok then old(backwardDigest) + payload else old(backwardDigest)
    {
      var clone := backwardDigest + payload;
      if Digest4(prim, clone) != digest {
        return false;
      }
      backwardDigest := backwardDigest + payload;
      return true;
    }

    /** The hop that prepares the cell stamps it; every hop adds its layer. */
    method EncryptForward(cell: RelayCell)
      requires (cell.Fresh() && cell.Packs()) || (cell.digest.Some? && cell.encrypted.Some?)
      modifies this`forwardPos, this`forwardDigest, cell`digest, cell`encrypted
      ensures old(cell.encrypted.Some?) ==>
        && cell.encrypted == Some(Crypt(prim, forwardKey, old(forwardPos), old(cell.encrypted).value))
        && Forward() == old(Forward()).(pos := old(forwardPos) + |old(cell.encrypted).value|)
        && cell.digest == old(cell.digest)
      ensures old(cell.encrypted.None?) ==>
        var p := Stamp(prim, old(Forward()), Num(cell.inner.value), cell.streamId, cell.Payload());
        && cell.encrypted == Some(Crypt(prim, forwardKey, old(forwardPos), p))
        && Forward() == Layer(forwardKey, old(forwardPos) + CELL_LEN, old(forwardDigest) + Cleared(p))
        && cell.digest.Some?
    {
      if cell.encrypted.None? {
        var digested := cell.Plain();
        StampRecognised(prim, Forward(), Num(cell.inner.value), cell.streamId, cell.Payload());
        var d := Digesting(digested);
        cell.digest := Some(d);
        var e := Encrypting(cell.Plain());
        cell.encrypted := Some(e);
      } else {
        var e := Encrypting(cell.encrypted.value);
        cell.encrypted := Some(e);
      }
    }

    /**
     Peels one layer. A recognised cell is committed to the running digest before its body is
     read, so that a body the client cannot read raises with both ends still in step.
    */
    method DecryptBackward(cell: RelayCell) returns (r: Result<(), CellError>)
      requires cell.encrypted.Some?
      modifies this`backwardPos, this`backwardDigest, cell
      ensures var (l', v) := PeelAt(prim, old(Backward()), 0, old(cell.encrypted).value);
              && Backward() == l'
              && match v
                 case Malformed(_) => r == Err(BadStruct)
                 case Unrecognised(p) => r == Ok(()) && cell.encrypted == Some(p) && cell.checked == old(cell.checked)
                 case Recognised(_, p) =>
                   match Open(p)
                   case Ok((sid, body)) => r == Ok(()) && cell.encrypted.None? && cell.checked
                     && cell.inner == Some(body) && cell.streamId == sid
                   case Err(e) => r == Err(e)
    {
      var p := Decrypting(cell.encrypted.value);
      if |p| != CELL_LEN {
        return Err(BadStruct);
      }
      TrialOnHeader(prim, Backward(), p);
      var h := ParseHeader(p);
      if h.recognized == 0 {
        var ok := DigestCheck(Cleared(p), h.digest);
        if ok {
          r := cell.SetDecrypted(p);
          return;
        }
      }
      cell.encrypted := Some(p);
      return Ok(());
    }
  }

  const CIRCUIT_WINDOW: Flow.Params := Flow.Params(1000, 100)

  /** Each hop has its crypto state and its window. */
  class TorCircuit {
    const prim: Primitives
    var nodes: seq<CryptoState>
    var windows: seq<Flow.TorWindow>

    ghost predicate Valid()
      reads this
    {
      && |windows| == |nodes|
      && (forall i, j | 0 <= i < j < |nodes| :: nodes[i] != nodes[j])
      && (forall i | 0 <= i < |nodes| :: nodes[i].prim == prim)
    }

    function Forward(): (ls: seq<Layer>)
      reads this, nodes
      ensures |ls| == |nodes|
    {
      seq(|nodes|, i requires 0 <= i < |nodes| reads this, nodes => nodes[i].Forward())
    }

    function Backward(): (ls: seq<Layer>)
      reads this, nodes
      ensures |ls| == |nodes|
    {
      seq(|nodes|, i requires 0 <= i < |nodes| reads this, nodes => nodes[i].Backward())
    }

    function LastWindow(): (w: Flow.TorWindow)
      requires windows != []
      reads this
    {
      windows[|windows| - 1]
    }

    constructor (prim: Primitives)
      ensures Valid() && nodes == [] && this.prim == prim
    {
      this.prim := prim;
      nodes, windows := [], [];
    }

    /** A completed handshake: one more hop, and no change at the others. */
    method Append(secret: bytes)
      requires Valid() && |secret| == OnionRun.SECRET_LEN
      modifies this
      ensures Valid()
      ensures Forward() == old(Forward()) + [OnionRun.ForwardLayer(secret)]
      ensures Backward() == old(Backward()) + [OnionRun.BackwardLayer(secret)]
      ensures |windows| == |old(windows)| + 1 && windows[..|old(windows)|] == old(windows)
      ensures var w := LastWindow(); fresh(w) && w.p == Flow.Params(1000, 100) && w.deliver == w.package == 1000
    {
      var node := new CryptoState(prim, secret);
      var window := new Flow.TorWindow(CIRCUIT_WINDOW);
      nodes, windows := nodes + [node], windows + [window];
    }

    /** The last hop stamps `plain` and any hop adds its layer to what the cell holds, or to `plain`. */
    method EncryptAt(i: nat, cell: RelayCell, ghost plain: bytes)
      requires Valid() && i < |nodes| && |plain| == CELL_LEN
      requires if i == |nodes| - 1 then cell.Stamps(prim, Forward()[i], plain)
               else cell.digest.Some? && cell.encrypted.Some? && |cell.encrypted.value| == CELL_LEN
      modifies nodes[i], cell`digest, cell`encrypted
      ensures Valid() && Backward() == old(Backward()) && cell.digest.Some?
      ensures var l, last := old(Forward())[i], i == |nodes| - 1;
              && cell.encrypted == Some(Crypt(prim, l.key, l.pos, if last then plain else old(cell.encrypted).value))
              && Forward() == old(Forward())[i := SealAt(l, last, plain)]
    {
      nodes[i].EncryptForward(cell);
    }

    /** Hops `i` and beyond have added their layers. */
    ghost predicate SealedDownTo(i: nat, cell: RelayCell, ls: seq<Layer>, plain: bytes)
      requires 0 < |nodes| == |ls| && |plain| == CELL_LEN && i <= |nodes|
      reads this, nodes, cell
    {
      && Forward() == SealingFrom(ls, i, plain)
      && (if i == |nodes| then cell.Stamps(prim, Forward()[i - 1], plain)
          else cell.digest.Some? && cell.encrypted == Some(Wrap(prim, ls, i, |nodes| - 1, plain)))
    }

    method EncryptNext(i: nat, cell: RelayCell, ghost ls: seq<Layer>, ghost plain: bytes)
      requires Valid() && i < |nodes| == |ls| && |plain| == CELL_LEN && SealedDownTo(i + 1, cell, ls, plain)
      modifies nodes[i], cell`digest, cell`encrypted
      ensures Valid() && Backward() == old(Backward()) && SealedDownTo(i, cell, ls, plain)
    {
      SealUnfolds(ls, i, plain);
      EncryptAt(i, cell, plain);
    }

    /** The loop over the hops, last one first. */
    method EncryptAll(cell: RelayCell, ghost ls: seq<Layer>, ghost plain: bytes)
      requires Valid() && |nodes| > 0 && ls == Forward() && |plain| == CELL_LEN
      requires cell.Stamps(prim, Forward()[|nodes| - 1], plain)
      modifies nodes, cell`digest, cell`encrypted
      ensures Valid() && Backward() == old(Backward())
      ensures Forward() == SealingFrom(ls, 0, plain) && cell.encrypted == Some(Wrap(prim, ls, 0, |nodes| - 1, plain))
    {
      var i := |nodes|;
      while i > 0
        invariant 0 <= i <= |nodes| && Valid() && Backward() == old(Backward())
        invariant SealedDownTo(i, cell, ls, plain)
      {
        i := i - 1;
        EncryptNext(i, cell, ls, plain);
      }
    }

    /** Encrypts for the last hop, outermost layer last; what it sends and what it leaves is `Seal`. */
    method Encrypt(cell: RelayCell) returns (r: Result<bytes, CellError>)
      requires Valid() && |nodes| > 0 && cell.Fresh()
      modifies nodes, cell`digest, cell`encrypted
      ensures Valid() && Backward() == old(Backward())
      ensures r.Ok? <==> old(cell.streamId) < 0x1_0000 && |old(cell.Payload())| <= 498
      ensures r.Ok? ==>
        var (ls, w) := Seal(prim, old(Forward()), Num(cell.inner.value), cell.streamId, old(cell.Payload()));
        Forward() == ls && r.value == w
      ensures r.Err? ==> Forward() == old(Forward())
    {
      if cell.streamId >= 0x1_0000 {
        return Err(BadStruct);
      }
      if |cell.Payload()| > MAX_PAYLOAD {
        return Err(PayloadTooLong);
      }
      ghost var ls := Forward();
      ghost var plain := Stamp(prim, ls[|nodes| - 1], Num(cell.inner.value), cell.streamId, cell.Payload());
      EncryptAll(cell, ls, plain);
      SealFolds(ls, plain);
      r := Ok(cell.encrypted.value);
    }

    method DecryptAt(i: nat, cell: RelayCell) returns (r: Result<(), CellError>)
      requires Valid() && i < |nodes| && cell.encrypted.Some?
      modifies nodes[i], cell
      ensures Valid() && Forward() == old(Forward())
      ensures var (l', v) := PeelAt(prim, old(Backward())[i], i, old(cell.encrypted).value);
              && Backward() == old(Backward())[i := l']
              && match v
                 case Malformed(_) => r == Err(BadStruct)
                 case Unrecognised(p) => r == Ok(()) && cell.encrypted == Some(p) && cell.checked == old(cell.checked)
                 case Recognised(_, p) =>
                   match Open(p)
                   case Ok((sid, body)) => r == Ok(()) && cell.encrypted.None? && cell.checked
                     && cell.inner == Some(body) && cell.streamId == sid
                   case Err(e) => r == Err(e)
    {
      r := nodes[i].DecryptBackward(cell);
    }

    /** What the client reports for a verdict of the loop. */
    static ghost predicate Reports(v: Peeled, streamId: nat, r: Result<(nat, Body), CellError>) {
      match v
      case Malformed(_) => r == Err(BadStruct)
      case Unrecognised(_) => r == Err(NotChecked)
      case Recognised(h, p) =>
        |p| == CELL_LEN &&
        match Open(p)
        case Ok((sid, body)) => r == Ok((h, body)) && streamId == sid
        case Err(e) => r == Err(e)
    }

    /** Hops before `i` have peeled their layers of `data` without recognising it. */
    ghost predicate PeeledUpTo(i: nat, cell: RelayCell, ls: seq<Layer>, data: bytes)
      requires |nodes| == |ls| && i <= |ls|
      reads this, nodes, cell
    {
      && cell.encrypted.Some? && !cell.checked && |cell.encrypted.value| == |data|
      && Peel(prim, ls, 0, data) == Peel(prim, ls, i, cell.encrypted.value)
      && Backward() == Spend(ls, 0, i, |data|)
    }

    /** The loop is over, with what `Peel` and `Settle` say. */
    ghost predicate PeeledAll(cell: RelayCell, ls: seq<Layer>, data: bytes, r: Result<(nat, Body), CellError>)
      reads this, nodes, cell
    {
      var v := Peel(prim, ls, 0, data);
      Backward() == Settle(ls, |data|, v) && Reports(v, cell.streamId, r)
    }

    lemma PeelOn(ls: seq<Layer>, i: nat, data: bytes, rest: bytes, now: seq<Layer>, next: seq<Layer>, v: Peeled)
      requires i < |ls| && Peel(prim, ls, 0, data) == Peel(prim, ls, i, rest) && |rest| == |data|
      requires now == Spend(ls, 0, i, |data|)
      requires v == PeelAt(prim, now[i], i, rest).1 && next == now[i := PeelAt(prim, now[i], i, rest).0]
      ensures v.Unrecognised? ==> Peel(prim, ls, 0, data) == Peel(prim, ls, i + 1, v.rest) && |v.rest| == |data|
      ensures v.Unrecognised? ==> next == Spend(ls, 0, i + 1, |data|)
      ensures !v.Unrecognised? ==> Peel(prim, ls, 0, data) == v && next == Settle(ls, |data|, v)
    {
      PeelUnfolds(prim, ls, i, rest);
    }

    method DecryptNext(i: nat, cell: RelayCell, ghost ls: seq<Layer>, ghost data: bytes)
      returns (done: bool, r: Result<(nat, Body), CellError>)
      requires Valid() && i < |nodes| == |ls| && PeeledUpTo(i, cell, ls, data)
      modifies nodes[i], cell
      ensures Valid() && Forward() == old(Forward())
      ensures if done then PeeledAll(cell, ls, data, r) else PeeledUpTo(i + 1, cell, ls, data)
    {
      ghost var now, rest := Backward(), cell.encrypted.value;
      var step := DecryptAt(i, cell);
      PeelOn(ls, i, data, rest, now, Backward(), PeelAt(prim, now[i], i, rest).1);
      done := step.Err? || cell.encrypted.None?;
      r := if step.Err? then Err(step.error) else if done then Ok((i, cell.inner.value)) else Err(NotChecked);
    }

    lemma RanOut(cell: RelayCell, ls: seq<Layer>, data: bytes)
      requires |nodes| == |ls| && PeeledUpTo(|nodes|, cell, ls, data)
      ensures PeeledAll(cell, ls, data, Err(NotChecked))
    {
    }

    /** Tries the hops in order; what it finds and what it leaves is `Peel` and `Settle`. */
    method Decrypt(cell: RelayCell) returns (r: Result<(nat, Body), CellError>)
      requires Valid() && cell.encrypted.Some? && !cell.checked
      modifies nodes, cell
      ensures Valid() && Forward() == old(Forward())
      ensures var v := Peel(prim, old(Backward()), 0, old(cell.encrypted).value);
              && Backward() == Settle(old(Backward()), |old(cell.encrypted).value|, v)
              && Reports(v, cell.streamId, r)
    {
      ghost var ls, data := Backward(), cell.encrypted.value;
      var i := 0;
      assert Backward() == Spend(ls, 0, 0, |data|);
      while i < |nodes|
        invariant 0 <= i <= |nodes| && Valid() && Forward() == old(Forward())
        invariant PeeledUpTo(i, cell, ls, data)
      {
        var done;
        done, r := DecryptNext(i, cell, ls, data);
        if done {
          return;
        }
        i := i + 1;
      }
      RanOut(cell, ls, data);
      return Err(NotChecked);
    }

    /** Builds and encrypts one relay cell, by itself; `SendLock` is about many threads that do. */
    method SendRelay(body: Body, streamId: nat) returns (r: Result<bytes, CellError>)
      requires Valid() && |nodes| > 0 && Proper(body)
      modifies nodes
      ensures Valid() && Backward() == old(Backward())
      ensures r.Ok? <==> streamId < 0x1_0000 && |Serialize(body)| <= MAX_PAYLOAD
      ensures r.Ok? ==> Seal(prim, old(Forward()), Num(body), streamId, Serialize(body)) == (Forward(), r.value)
      ensures r.Err? ==> Forward() == old(Forward())
    {
      var cell := new RelayCell.Outgoing(body, streamId);
      r := Encrypt(cell);
    }
  }
}
