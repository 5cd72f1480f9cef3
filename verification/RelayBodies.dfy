/** The payloads of the relay cells that the client can read, and when reading undoes writing. */
module RelayBodies {
  import opened Sequences
  import opened Bytes
  import opened RelayFormat

  datatype CellError = BadStruct | UnknownCell | NotImplemented | BadEnum | PayloadTooLong | NotChecked

  /** An IPv4 address is its four octets; the empty string that stands for none is None. */
  datatype Body =
    | Data(data: bytes)
    | End(reason: nat, address: Option<bytes>, ttl: Option<nat>)
    | Connected(address: Option<bytes>, lifetime: nat)
    | SendMe(version: Option<nat>, digest: Option<bytes>)
    | Truncated(reason: nat)
    | BeginDir(data: bytes)
    | Extended2(handshake: bytes)
    | Rendezvous2(handshake: bytes)
    | RendezvousEstablished(data: bytes)
    | IntroduceAck(data: bytes)
    | SendOnly(num: byte, payload: bytes)  // BEGIN, EXTEND2, ESTABLISH_RENDEZVOUS, INTRODUCE1, already packed

  const EXIT_POLICY: nat := 4
  const SEND_ONLY: set<byte> := {1, 14, 33, 34}

  /** Values that the constructors and their field widths admit. */
  ghost predicate Proper(b: Body) {
    match b
    case End(r, a, t) =>
      && 1 <= r <= 14 && (a.Some? ==> |a.value| == 4) && (t.Some? ==> t.value < 0x1_0000_0000)
      && (r == EXIT_POLICY ==> a.Some? && t.Some?)
    case Connected(a, t) => (a.Some? ==> |a.value| == 4) && t < 0x1_0000_0000
    case SendMe(v, d) => (v.Some? ==> v.value < 0x100) && (d.Some? ==> |d.value| < 0x1_0000)
    case Truncated(r) => r <= 12
    case Extended2(h) => |h| < 0x1_0000
    case SendOnly(n, _) => n in SEND_ONLY
    case _ => true
  }

  function Num(b: Body): (n: byte) {
    match b
    case Data(_) => 2
    case End(_, _, _) => 3
    case Connected(_, _) => 4
    case SendMe(_, _) => 5
    case Truncated(_) => 9
    case BeginDir(_) => 13
    case Extended2(_) => 15
    case Rendezvous2(_) => 37
    case RendezvousEstablished(_) => 39
    case IntroduceAck(_) => 40
    case SendOnly(n, _) => n
  }

  function Serialize(b: Body): (p: bytes)
    requires Proper(b)
  {
    match b
    case Data(d) => d
    case End(r, a, t) => if r == EXIT_POLICY then [r] + a.value + U32(t.value) else [r]
    case Connected(a, t) => if a.Some? && t != 0 then a.value + U32(t) else []
    case SendMe(v, d) =>
      if v.Some? && v.value != 0 && d.Some? && d.value != [] then [v.value] + U16(|d.value|) + d.value else []
    case Truncated(r) => [r]
    case BeginDir(d) => d
    case Extended2(h) => U16(|h|) + h
    case Rendezvous2(h) => h
    case RendezvousEstablished(d) => d
    case IntroduceAck(d) => d
    case SendOnly(_, p) => p
  }

  /** The relay command table, then the command's own reader. */
  function Deserialize(num: byte, p: bytes): (r: Result<Body, CellError>) {
    if num == 2 then Ok(Data(p))
    else if num == 3 then
      if p == [] then Err(BadStruct)
      else if !(1 <= p[0] <= 14) then Err(BadEnum)
      else if p[0] != EXIT_POLICY then Ok(End(p[0], None, None))
      else if |p| != 9 then Err(BadStruct)
      else Ok(End(EXIT_POLICY, Some(p[1..5]), Some(FromU32(p[5..9]))))
    else if num == 4 then
      if p == [] then Ok(Connected(None, 0))
      else if |p| != 8 then Err(BadStruct)
      else Ok(Connected(Some(p[..4]), FromU32(p[4..8])))
    else if num == 5 then
      if p == [] then Ok(SendMe(None, None))
      else if |p| < 3 then Err(BadStruct)
      else Ok(SendMe(Some(p[0]), Some(Slice(p, 3, 3 + FromU16(p[1..3])))))
    else if num == 9 then
      if p == [] then Err(BadStruct) else if p[0] > 12 then Err(BadEnum) else Ok(Truncated(p[0]))
    else if num == 13 then Ok(BeginDir(p))
    else if num == 15 then
      if |p| < 2 then Err(BadStruct) else Ok(Extended2(Slice(p, 2, FromU16(p[..2]) + 2)))
    else if num == 37 then Ok(Rendezvous2(p))
    else if num == 39 then Ok(RendezvousEstablished(p))
    else if num == 40 then Ok(IntroduceAck(p))
    else if num in {1, 33, 34} then Err(NotImplemented)
    else Err(UnknownCell)
  }

  /** The bodies whose every field survives the trip, as their writers see it. */
  predicate Faithful(b: Body) {
    match b
    case End(r, a, t) => r == EXIT_POLICY || (a.None? && t.None?)
    case Connected(a, t) => a.Some? <==> t != 0
    case SendMe(v, d) =>
      || (v.None? && d.None?)
      || (v.Some? && v.value != 0 && d.Some? && d.value != [])
    case SendOnly(_, _) => false
    case _ => true
  }

  /** Reading undoes writing exactly for the faithful bodies. */
  lemma BodyRoundTrip(b: Body)
    requires Proper(b)
    ensures Deserialize(Num(b), Serialize(b)) == Ok(b) <==> Faithful(b)
  {
    var p := Serialize(b);
    match b
    case End(r, a, t) =>
      if r == EXIT_POLICY {
        assert p[1..5] == a.value && p[5..9] == U32(t.value);
      }
    case Connected(a, t) =>
      if a.Some? && t != 0 {
        assert p[..4] == a.value && p[4..8] == U32(t);
      }
    case SendMe(v, d) =>
      if p != [] {
        assert p[1..3] == U16(|d.value|) && p[3..3 + |d.value|] == d.value;
      }
    case Extended2(h) =>
      assert p[..2] == U16(|h|) && p[2..|h| + 2] == h;
    case _ =>
  }

  /** What set_decrypted makes of a recognised plaintext: stream id and body, or the exception it raises. */
  function Open(p: bytes): (r: Result<(nat, Body), CellError>)
    requires |p| == CELL_LEN
  {
    var h := ParseHeader(p);
    match Deserialize(h.num, Payload(h))
    case Ok(b) => Ok((h.streamId, b))
    case Err(e) => Err(e)
  }

  /** A relay cell packed from a body opens to that body and its stream, exactly when the body is faithful. */
  lemma OpenPacked(b: Body, streamId: nat, digest: bytes)
    requires Proper(b) && |Serialize(b)| <= MAX_PAYLOAD && streamId < 0x1_0000 && |digest| == 4
    ensures Open(Pack(Num(b), streamId, digest, Serialize(b), [])) == Ok((streamId, b)) <==> Faithful(b)
  {
    ParsePack(Num(b), streamId, digest, Serialize(b), []);
    BodyRoundTrip(b);
  }
}
