/** Cells on a link: their bytes, and the payloads of those that both ends read and write. */
module LinkCells {
  import opened Sequences
  import opened Bytes

  const PAYLOAD_LEN: nat := 509

  datatype LinkCell = LinkCell(circuit: nat, body: LinkBody)

  datatype LinkBody =
    | Padding(data: bytes)
    | Relay(encrypted: bytes)
    | Destroy(reason: nat)
    | CreatedFast(handshake: bytes)
    | Versions(versions: seq<nat>)
    | NetInfo(timestamp: Option<nat>, otherOr: Option<bytes>, thisOr: bytes)  // None stands for an empty string
    | Created2(handshake: bytes)
    | Certs(data: bytes)
    | AuthChallenge(data: bytes)

  datatype LinkError = UnknownCommand | BadPayload | NotReadable

  /** The command table; 1, 5, 9 and 10 are only ever written. */
  predicate Known(cmd: byte) {
    cmd in {0, 1, 3, 4, 5, 6, 7, 8, 9, 10, 11, 129, 130}
  }

  predicate VarLen(cmd: byte) {
    cmd == 7 || cmd >= 128
  }

  function Command(b: LinkBody): (cmd: byte) {
    match b
    case Padding(_) => 0
    case Relay(_) => 3
    case Destroy(_) => 4
    case CreatedFast(_) => 6
    case Versions(_) => 7
    case NetInfo(_, _, _) => 8
    case Created2(_) => 11
    case Certs(_) => 129
    case AuthChallenge(_) => 130
  }

  /** Big-endian two-byte integers until the payload is used up. */
  function ReadVersions(p: bytes): (r: Result<seq<nat>, LinkError>) {
    if p == [] then Ok([])
    else if |p| == 1 then Err(BadPayload)
    else
      match ReadVersions(p[2..])
      case Ok(vs) => Ok([FromU16(p[..2])] + vs)
      case Err(e) => Err(e)
  }

  function WriteVersions(vs: seq<nat>): (p: bytes)
    requires forall i | 0 <= i < |vs| :: vs[i] < 0x1_0000
  {
    if vs == [] then [] else U16(vs[0]) + WriteVersions(vs[1..])
  }

  /** The loop that consumes the payload two bytes at a time. */
  method DeserializeVersions(p: bytes) returns (r: Result<seq<nat>, LinkError>)
    ensures r == ReadVersions(p)
  {
    var versions: seq<nat>, payload := [], p;
    assert forall vs: seq<nat> :: [] + vs == vs;
    while payload != []
      invariant match ReadVersions(payload)
                case Ok(vs) => ReadVersions(p) == Ok(versions + vs)
                case Err(e) => ReadVersions(p) == Err(e)
      decreases |payload|
    {
      if |payload| == 1 {
        return Err(BadPayload);
      }
      ghost var rest := ReadVersions(payload[2..]);
      assert rest.Ok? ==> versions + ([FromU16(payload[..2])] + rest.value) == (versions + [FromU16(payload[..2])]) + rest.value;
      versions := versions + [FromU16(payload[..2])];
      payload := payload[2..];
    }
    assert versions + [] == versions;
    return Ok(versions);
  }

  function ReadBody(cmd: byte, p: bytes): (r: Result<LinkBody, LinkError>) {
    if cmd == 0 then Ok(Padding(p))
    else if cmd == 3 then Ok(Relay(p))
    else if cmd == 4 then if p == [] || p[0] > 12 then Err(BadPayload) else Ok(Destroy(p[0]))
    else if cmd == 6 then if |p| < 40 then Err(BadPayload) else Ok(CreatedFast(p[..40]))
    else if cmd == 7 then
      match ReadVersions(p)
      case Ok(vs) => Ok(Versions(vs))
      case Err(e) => Err(e)
    else if cmd == 8 then
      if |p| < 6 then Err(BadPayload)
      else
        var n: nat := p[5];
        var address := Slice(p, 6, 6 + n);
        if |address| != 4 then Err(BadPayload) else Ok(NetInfo(None, None, address))
    else if cmd == 11 then if |p| < 2 then Err(BadPayload) else Ok(Created2(Slice(p, 2, FromU16(p[..2]) + 2)))
    else if cmd == 129 then Ok(Certs(p))
    else if cmd == 130 then Ok(AuthChallenge(p))
    else if Known(cmd) then Err(NotReadable)
    else Err(UnknownCommand)
  }

  /** Field widths of the writers, and CREATED_FAST's assertion. */
  ghost predicate Proper(b: LinkBody) {
    match b
    case Destroy(r) => r <= 12
    case CreatedFast(h) => |h| == 40
    case Versions(vs) => forall i | 0 <= i < |vs| :: vs[i] < 0x1_0000
    case NetInfo(t, other, own) =>
      && t.Some? && t.value < 0x1_0000_0000
      && other.Some? && |other.value| == 4 && |own| == 4
    case Created2(h) => |h| < 0x1_0000
    case _ => true
  }

  function WriteBody(b: LinkBody): (p: bytes)
    requires Proper(b)
  {
    match b
    case Padding(d) => d
    case Relay(e) => e
    case Destroy(r) => [r]
    case CreatedFast(h) => h
    case Versions(vs) => WriteVersions(vs)
    case NetInfo(t, other, own) => U32(t.value) + ([4, 4] + other.value) + ([1, 4, 4] + own)
    case Created2(h) => U16(|h|) + h
    case Certs(d) => d
    case AuthChallenge(d) => d
  }

  /** A fixed-size payload as `struct` packs '509s': cut or filled with zeros. */
  function Fixed(p: bytes): (q: bytes)
    ensures |q| == PAYLOAD_LEN
  {
    if |p| >= PAYLOAD_LEN then p[..PAYLOAD_LEN] else p + Zeros(PAYLOAD_LEN - |p|)
  }

  function HeaderLen(wide: bool): (n: nat) {
    if wide then 5 else 3
  }

  function Header(wide: bool, circuit: nat, cmd: byte): (h: bytes)
    requires circuit < (if wide then 0x1_0000_0000 else 0x1_0000)
    ensures |h| == HeaderLen(wide)
  {
    (if wide then U32(circuit) else U16(circuit)) + [cmd]
  }

  ghost predicate Fits(wide: bool, c: LinkCell) {
    && Proper(c.body)
    && c.circuit < (if wide then 0x1_0000_0000 else 0x1_0000)
    && (VarLen(Command(c.body)) ==> |WriteBody(c.body)| < 0x1_0000)
  }

  function Serialize(wide: bool, c: LinkCell): (s: bytes)
    requires Fits(wide, c)
  {
    var p := WriteBody(c.body);
    Header(wide, c.circuit, Command(c.body)) + (if VarLen(Command(c.body)) then U16(|p|) + p else Fixed(p))
  }

  /** The cells that their own reader gives back: it removes the padding and drops no field. */
  predicate Faithful(b: LinkBody) {
    match b
    case Padding(d) => |d| == PAYLOAD_LEN
    case Relay(e) => |e| == PAYLOAD_LEN
    case Created2(h) => |h| <= PAYLOAD_LEN - 2
    case NetInfo(_, _, _) => false
    case _ => true
  }

  lemma {:induction false} VersionsRoundTrip(vs: seq<nat>)
    requires forall i | 0 <= i < |vs| :: vs[i] < 0x1_0000
    ensures ReadVersions(WriteVersions(vs)) == Ok(vs)
  {
    if vs != [] {
      VersionsRoundTrip(vs[1..]);
      var p := WriteVersions(vs);
      assert p[..2] == U16(vs[0]) && p[2..] == WriteVersions(vs[1..]);
      assert [vs[0]] + vs[1..] == vs;
    }
  }

  /** The payload that arrives for a cell. */
  function Carried(b: LinkBody): (p: bytes)
    requires Proper(b)
  {
    if VarLen(Command(b)) then WriteBody(b) else Fixed(WriteBody(b))
  }

  /**
   What the reader makes of a cell. It sees a fixed payload cut or filled; of NETINFO it keeps the
   first address only, which to the writer is the other end's and to the reader its own.
  */
  function Arrives(b: LinkBody): (b': LinkBody)
    requires Proper(b)
  {
    match b
    case Padding(d) => Padding(Fixed(d))
    case Relay(e) => Relay(Fixed(e))
    case Created2(h) => Created2(Slice(h, 0, PAYLOAD_LEN - 2))
    case NetInfo(_, other, _) => NetInfo(None, None, other.value)
    case _ => b
  }

  lemma Created2Arrives(h: bytes)
    requires |h| < 0x1_0000
    ensures var p := Fixed(U16(|h|) + h);
            p[..2] == U16(|h|) && Slice(p, 2, |h| + 2) == Slice(h, 0, PAYLOAD_LEN - 2)
  {
    var p := Fixed(U16(|h|) + h);
    assert p[..2] == U16(|h|);
    if |h| <= PAYLOAD_LEN - 2 {
      assert p[2..|h| + 2] == h == h[0..];
    } else {
      assert p[2..] == h[..PAYLOAD_LEN - 2] == h[0..PAYLOAD_LEN - 2];
    }
  }

  /** The payload of every cell that can be written is read, to exactly this. */
  lemma BodyArrives(b: LinkBody)
    requires Proper(b)
    ensures ReadBody(Command(b), Carried(b)) == Ok(Arrives(b))
  {
    var p := Carried(b);
    match b
    case Versions(vs) =>
      VersionsRoundTrip(vs);
    case NetInfo(_, other, _) =>
      assert p[5] == 4 && p[6..10] == other.value;
    case CreatedFast(h) =>
      assert p[..40] == h;
    case Created2(h) =>
      Created2Arrives(h);
    case _ =>
  }

  /** Each reader undoes its writer, zero filling included, exactly for the faithful cells. */
  lemma BodyRoundTrip(b: LinkBody)
    requires Proper(b)
    ensures ReadBody(Command(b), Carried(b)) == Ok(b) <==> Faithful(b)
  {
    BodyArrives(b);
    match b
    case Padding(d) =>
      assert |d| == PAYLOAD_LEN ==> d[..PAYLOAD_LEN] == d;
    case Relay(e) =>
      assert |e| == PAYLOAD_LEN ==> e[..PAYLOAD_LEN] == e;
    case Created2(h) =>
      assert |h| <= PAYLOAD_LEN - 2 ==> Slice(h, 0, PAYLOAD_LEN - 2) == h;
    case _ =>
  }
}
