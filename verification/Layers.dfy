/**
 The running cipher and running digest that one hop keeps in one direction, and what
 happens to a cell that meets a stack of them.
*/
module Layers {
  import opened Bytes
  import opened RelayFormat

  type Sha1 = d: bytes | |d| == 20 witness Zeros(20)

  /** AES-CTR as a keystream indexed by key and position; SHA-1 of a whole byte history. */
  datatype Primitives = Primitives(aes: (bytes, nat) -> byte, sha1: bytes -> Sha1)

  /** One direction of a hop: cipher key, keystream bytes used so far, bytes digested so far. */
  datatype Layer = Layer(key: bytes, pos: nat, hist: bytes)

  function Crypt(prim: Primitives, key: bytes, pos: nat, data: bytes): (r: bytes)
    ensures |r| == |data|
  {
    seq(|data|, i requires 0 <= i < |data| => XorByte(data[i], prim.aes(key, pos + i)))
  }

  /** Both ends of a stream cipher apply the same operation: it undoes itself. */
  lemma CryptTwice(prim: Primitives, key: bytes, pos: nat, data: bytes)
    ensures Crypt(prim, key, pos, Crypt(prim, key, pos, data)) == data
  {
    forall i | 0 <= i < |data|
      ensures Crypt(prim, key, pos, Crypt(prim, key, pos, data))[i] == data[i]
    {
      var x := XorByte(data[i], prim.aes(key, pos + i));
    }
  }

  /** Encryption flips exactly the bits at which the key stream has a one. */
  lemma CryptFlips(prim: Primitives, key: bytes, pos: nat, data: bytes, i: nat, j: nat)
    requires i < |data| && j < 8
    ensures var d, k := Bit(data[i], j), Bit(prim.aes(key, pos + i), j);
            Bit(Crypt(prim, key, pos, data)[i], j) == if k == 0 then d else 1 - d
  {
    XorBitsAt(8, data[i], prim.aes(key, pos + i), j);
    BitIs(data[i], j);
    BitIs(prim.aes(key, pos + i), j);
  }

  /** Data encrypted piece by piece, each from where the last one stopped, is the whole encrypted at once. */
  lemma CryptGoesOn(prim: Primitives, key: bytes, pos: nat, a: bytes, b: bytes)
    ensures Crypt(prim, key, pos, a + b) == Crypt(prim, key, pos, a) + Crypt(prim, key, pos + |a|, b)
  {
    var r, x, y := Crypt(prim, key, pos, a + b), Crypt(prim, key, pos, a), Crypt(prim, key, pos + |a|, b);
    forall i | 0 <= i < |a + b|
      ensures r[i] == (x + y)[i]
    {
      if i >= |a| {
        assert (a + b)[i] == b[i - |a|] && pos + i == pos + |a| + (i - |a|);
      }
    }
  }

  function Digest4(prim: Primitives, hist: bytes): (d: bytes)
    ensures |d| == 4
  {
    prim.sha1(hist)[..4]
  }

  /** The trial of section 6.1 of tor-spec.txt: 'recognized' is zero and the running digest agrees. */
  predicate Recognises(prim: Primitives, l: Layer, p: bytes) {
    && |p| == CELL_LEN
    && p[1] == 0 && p[2] == 0
    && Digest4(prim, l.hist + Cleared(p)) == p[5..9]
  }

  /** The same trial in terms of the parsed header, as decrypt_backward makes it. */
  lemma TrialOnHeader(prim: Primitives, l: Layer, p: bytes)
    requires |p| == CELL_LEN
    ensures Recognises(prim, l, p)
       <==> ParseHeader(p).recognized == 0 && Digest4(prim, l.hist + Cleared(p)) == ParseHeader(p).digest
  {
    assert p[1..3][0] == p[1] && p[1..3][1] == p[2];
  }

  /** The finished plaintext that the holder of `l` writes for a cell. */
  function Stamp(prim: Primitives, l: Layer, num: byte, streamId: nat, payload: bytes): (p: bytes)
    requires streamId < 0x1_0000 && |payload| <= MAX_PAYLOAD
    ensures |p| == CELL_LEN
  {
    Pack(num, streamId, Digest4(prim, l.hist + Pack(num, streamId, NO_DIGEST, payload, [])), payload, [])
  }

  /** A stamped cell passes the trial of a peer with the same digest history, and clears to the digested bytes. */
  lemma StampRecognised(prim: Primitives, l: Layer, num: byte, streamId: nat, payload: bytes)
    requires streamId < 0x1_0000 && |payload| <= MAX_PAYLOAD
    ensures Recognises(prim, l, Stamp(prim, l, num, streamId, payload))
    ensures Cleared(Stamp(prim, l, num, streamId, payload)) == Pack(num, streamId, NO_DIGEST, payload, [])
  {
    var d := Digest4(prim, l.hist + Pack(num, streamId, NO_DIGEST, payload, []));
    DigestSlot(num, streamId, d, NO_DIGEST, payload, []);
    ParsePack(num, streamId, d, payload, []);
  }

  /** Layers `lo..hi` put on `plain`, the outermost being `lo`. */
  function Wrap(prim: Primitives, ls: seq<Layer>, lo: nat, hi: nat, plain: bytes): (w: bytes)
    requires hi < |ls|
    ensures |w| == |plain|
    decreases hi + 1 - lo
  {
    if lo > hi then plain
    else Crypt(prim, ls[lo].key, ls[lo].pos, Wrap(prim, ls, lo + 1, hi, plain))
  }

  lemma {:induction false} WrapFrame(prim: Primitives, ls: seq<Layer>, ls': seq<Layer>, lo: nat, hi: nat, plain: bytes)
    requires hi < |ls| && hi < |ls'|
    requires forall h | lo <= h <= hi :: ls[h].key == ls'[h].key && ls[h].pos == ls'[h].pos
    ensures Wrap(prim, ls, lo, hi, plain) == Wrap(prim, ls', lo, hi, plain)
    decreases hi + 1 - lo
  {
    if lo <= hi {
      WrapFrame(prim, ls, ls', lo + 1, hi, plain);
    }
  }

  /** `n` bytes of keystream drawn at each of the hops `lo..hi-1`. */
  function Spend(ls: seq<Layer>, lo: nat, hi: nat, n: nat): (ls': seq<Layer>)
    requires hi <= |ls|
    ensures |ls'| == |ls|
    ensures forall h | 0 <= h < |ls| ::
      ls'[h] == if lo <= h < hi then ls[h].(pos := ls[h].pos + n) else ls[h]
  {
    seq(|ls|, h requires 0 <= h < |ls| => if lo <= h < hi then ls[h].(pos := ls[h].pos + n) else ls[h])
  }

  /** The running digest of hop `h` fed with one recognised cell. */
  function Absorb(ls: seq<Layer>, h: nat, p: bytes): (ls': seq<Layer>)
    requires h < |ls| && |p| == CELL_LEN
    ensures |ls'| == |ls|
  {
    ls[h := ls[h].(hist := ls[h].hist + Cleared(p))]
  }

  datatype Peeled = Recognised(hop: nat, plain: bytes) | Unrecognised(rest: bytes) | Malformed(hop: nat)

  /** The client's backward loop from hop `h` on: peel, try, stop at the first hop that recognises. */
  function Peel(prim: Primitives, ls: seq<Layer>, h: nat, data: bytes): (v: Peeled)
    requires h <= |ls|
    ensures v.Recognised? ==> h <= v.hop < |ls| && |v.plain| == |data| == CELL_LEN
    ensures v.Malformed? ==> v.hop == h < |ls|
    decreases |ls| - h
  {
    if h == |ls| then Unrecognised(data)
    else
      var p := Crypt(prim, ls[h].key, ls[h].pos, data);
      if |p| != CELL_LEN then Malformed(h)
      else if Recognises(prim, ls[h], p) then Recognised(h, p)
      else Peel(prim, ls, h + 1, p)
  }

  /** The client's layers after that loop: keystream drawn where it peeled, a digest fed only where it matched. */
  function Settle(ls: seq<Layer>, n: nat, v: Peeled): (ls': seq<Layer>)
    requires v.Recognised? ==> v.hop < |ls| && |v.plain| == CELL_LEN
    requires v.Malformed? ==> v.hop < |ls|
    ensures |ls'| == |ls|
  {
    match v
    case Recognised(h, p) => Absorb(Spend(ls, 0, h + 1, n), h, p)
    case Unrecognised(_) => Spend(ls, 0, |ls|, n)
    case Malformed(h) => Spend(ls, 0, h + 1, n)
  }

  /** One hop's part in that loop: its layer afterwards, and what became of the cell. */
  function PeelAt(prim: Primitives, l: Layer, h: nat, data: bytes): (r: (Layer, Peeled)) {
    var p := Crypt(prim, l.key, l.pos, data);
    var l' := l.(pos := l.pos + |data|);
    if |p| != CELL_LEN then (l', Malformed(h))
    else if Recognises(prim, l, p) then (l'.(hist := l.hist + Cleared(p)), Recognised(h, p))
    else (l', Unrecognised(p))
  }

  /** The loop and its settlement are the hops' parts, taken one after the other until one ends it. */
  lemma PeelUnfolds(prim: Primitives, ls: seq<Layer>, h: nat, data: bytes)
    requires h < |ls|
    ensures var (l', v) := PeelAt(prim, ls[h], h, data);
            var ls' := Spend(ls, 0, h, |data|)[h := l'];
            if v.Unrecognised? then Peel(prim, ls, h, data) == Peel(prim, ls, h + 1, v.rest) && |v.rest| == |data|
                 && ls' == Spend(ls, 0, h + 1, |data|)
            else Peel(prim, ls, h, data) == v && ls' == Settle(ls, |data|, v)
  {
  }

  /** The client's forward loop: stamp for the last hop, then encrypt from the last hop to the first. */
  function Seal(prim: Primitives, ls: seq<Layer>, num: byte, streamId: nat, payload: bytes): (r: (seq<Layer>, bytes))
    requires |ls| > 0 && streamId < 0x1_0000 && |payload| <= MAX_PAYLOAD
    ensures |r.0| == |ls| && |r.1| == CELL_LEN
  {
    var last := |ls| - 1;
    var p := Stamp(prim, ls[last], num, streamId, payload);
    (Absorb(Spend(ls, 0, |ls|, CELL_LEN), last, p), Wrap(prim, ls, 0, last, p))
  }

  /** The loop's layers once the hops from `i` on have had their turn. */
  function SealingFrom(ls: seq<Layer>, i: nat, plain: bytes): (ls': seq<Layer>)
    requires 0 < |ls| && i <= |ls| && |plain| == CELL_LEN
    ensures |ls'| == |ls|
  {
    if i == |ls| then ls else Spend(Absorb(ls, |ls| - 1, plain), i, |ls|, CELL_LEN)
  }

  /** One hop's part in the forward loop: the last hop also feeds its digest. */
  function SealAt(l: Layer, last: bool, plain: bytes): (l': Layer)
    requires |plain| == CELL_LEN
  {
    Layer(l.key, l.pos + CELL_LEN, if last then l.hist + Cleared(plain) else l.hist)
  }

  lemma SealUnfolds(ls: seq<Layer>, i: nat, plain: bytes)
    requires i < |ls| && |plain| == CELL_LEN
    ensures SealingFrom(ls, i + 1, plain)[i] == ls[i]
    ensures SealingFrom(ls, i + 1, plain)[i := SealAt(ls[i], i == |ls| - 1, plain)] == SealingFrom(ls, i, plain)
  {
  }

  lemma SealFolds(ls: seq<Layer>, plain: bytes)
    requires 0 < |ls| && |plain| == CELL_LEN
    ensures SealingFrom(ls, 0, plain) == Absorb(Spend(ls, 0, |ls|, CELL_LEN), |ls| - 1, plain)
  {
  }

  /** Some hop in `lo..edge-1` takes the cell for its own: its trial succeeds on the bytes left for it. */
  predicate Accident(prim: Primitives, ls: seq<Layer>, lo: nat, edge: nat, data: bytes)
    requires edge < |ls|
    decreases edge - lo
  {
    && lo < edge
    && var p := Crypt(prim, ls[lo].key, ls[lo].pos, data);
       Recognises(prim, ls[lo], p) || Accident(prim, ls, lo + 1, edge, p)
  }

  /** Cells from hop `edge` are attributed to it, with their exact bytes, when nothing in front recognises them. */
  lemma {:induction false} PeelFinds(prim: Primitives, ls: seq<Layer>, lo: nat, edge: nat, plain: bytes)
    requires lo <= edge < |ls| && Recognises(prim, ls[edge], plain)
    requires !Accident(prim, ls, lo, edge, Wrap(prim, ls, lo, edge, plain))
    ensures Peel(prim, ls, lo, Wrap(prim, ls, lo, edge, plain)) == Recognised(edge, plain)
    decreases edge - lo
  {
    CryptTwice(prim, ls[lo].key, ls[lo].pos, Wrap(prim, ls, lo + 1, edge, plain));
    if lo < edge {
      PeelFinds(prim, ls, lo + 1, edge, plain);
    }
  }

  /** An accident stops the loop short of `edge`, whatever the cell is. */
  lemma {:induction false} PeelStopsEarly(prim: Primitives, ls: seq<Layer>, lo: nat, edge: nat, data: bytes)
    requires edge < |ls| && |data| == CELL_LEN && Accident(prim, ls, lo, edge, data)
    ensures var v := Peel(prim, ls, lo, data); v.Recognised? && v.hop < edge
    decreases edge - lo
  {
    var p := Crypt(prim, ls[lo].key, ls[lo].pos, data);
    if !Recognises(prim, ls[lo], p) {
      PeelStopsEarly(prim, ls, lo + 1, edge, p);
    }
  }

  /** Exactly when: the client names the right hop if and only if no earlier hop recognises the bytes it sees. */
  lemma PeelAttribution(prim: Primitives, ls: seq<Layer>, edge: nat, plain: bytes)
    requires edge < |ls| && Recognises(prim, ls[edge], plain)
    ensures var wire := Wrap(prim, ls, 0, edge, plain);
            Peel(prim, ls, 0, wire) == Recognised(edge, plain) <==> !Accident(prim, ls, 0, edge, wire)
  {
    var wire := Wrap(prim, ls, 0, edge, plain);
    if Accident(prim, ls, 0, edge, wire) {
      PeelStopsEarly(prim, ls, 0, edge, wire);
    } else {
      PeelFinds(prim, ls, 0, edge, plain);
    }
  }
}
