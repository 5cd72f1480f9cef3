/**
 The formats of sections 0.2, 3, 4 and 6.1 of tor-spec.txt octet by octet: where each field of a link
 cell and of a relay cell stands, and how many octets a cell has.
*/
module WireLayout {
  import opened Sequences
  import opened Bytes
  import opened LinkCells
  import opened Framing
  import RelayFormat
  import RelayBodies

  // ---- integers ----

  predicate Big2(s: bytes, at: nat, n: nat) {
    at + 2 <= |s| && n < 0x1_0000 && s[at] == n / 0x100 && s[at + 1] == n % 0x100
  }

  predicate Big4(s: bytes, at: nat, n: nat) {
    && at + 4 <= |s| && n < 0x1_0000_0000
    && s[at] == n / 0x100_0000 && s[at + 1] == n / 0x1_0000 % 0x100
    && s[at + 2] == n / 0x100 % 0x100 && s[at + 3] == n % 0x100
  }

  /** The octets of `p` stand at `at`. */
  predicate Stands(s: bytes, at: nat, p: bytes) {
    at + |p| <= |s| && s[at..at + |p|] == p
  }

  lemma Behind(front: bytes, data: bytes)
    ensures Stands(front + data, |front|, data)
  {
    assert (front + data)[|front|..|front| + |data|] == data;
  }

  lemma U16Octets(a: bytes, n: nat, b: bytes)
    requires n < 0x1_0000
    ensures Big2(a + U16(n) + b, |a|, n)
  {
    assert U16(n)[0] == n / 0x100 && U16(n)[1] == n % 0x100;
  }

  lemma Base256(n: nat, a: nat, b: nat, c: nat, d: nat)
    requires n == 0x100_0000 * a + 0x1_0000 * b + 0x100 * c + d && a < 0x100 && b < 0x100 && c < 0x100 && d < 0x100
    ensures n / 0x1_0000 == 0x100 * a + b && n % 0x1_0000 == 0x100 * c + d
    ensures n / 0x100_0000 == a && n / 0x1_0000 % 0x100 == b && n / 0x100 % 0x100 == c && n % 0x100 == d
  {
    assert n / 0x100 == 0x1_0000 * a + 0x100 * b + c;
  }

  lemma Split256(n: nat) returns (a: nat, b: nat, c: nat, d: nat)
    requires n < 0x1_0000_0000
    ensures n == 0x100_0000 * a + 0x1_0000 * b + 0x100 * c + d && a < 0x100 && b < 0x100 && c < 0x100 && d < 0x100
  {
    d := n % 0x100;
    var m := n / 0x100;
    c := m % 0x100;
    var l := m / 0x100;
    b, a := l % 0x100, l / 0x100;
  }

  lemma U32Octets(a: bytes, n: nat, b: bytes)
    requires n < 0x1_0000_0000
    ensures Big4(a + U32(n) + b, |a|, n)
  {
    var x, y, z, w := Split256(n);
    Base256(n, x, y, z, w);
    var hi, lo := U16(n / 0x1_0000), U16(n % 0x1_0000);
    assert U32(n) == hi + lo && hi[0] == x && hi[1] == y && lo[0] == z && lo[1] == w;
  }

  // ---- link cells ----

  /** The command octet of every cell that both ends read and write. */
  predicate Numbered(b: LinkBody, cmd: byte) {
    match b
    case Padding(_) => cmd == 0
    case Relay(_) => cmd == 3
    case Destroy(_) => cmd == 4
    case CreatedFast(_) => cmd == 6
    case Versions(_) => cmd == 7
    case NetInfo(_, _, _) => cmd == 8
    case Created2(_) => cmd == 11
    case Certs(_) => cmd == 129
    case AuthChallenge(_) => cmd == 130
  }

  /** The fields of a payload, each where it stands. */
  ghost predicate LaidOut(b: LinkBody, p: bytes) {
    match b
    case Padding(d) => Stands(p, 0, d)
    case Relay(e) => Stands(p, 0, e)
    case Destroy(r) => |p| >= 1 && p[0] == r
    case CreatedFast(h) => Stands(p, 0, h)
    case Versions(vs) => |p| == 2 * |vs| && forall i | 0 <= i < |vs| :: Big2(p, 2 * i, vs[i])
    case NetInfo(t, other, own) =>
      && t.Some? && other.Some? && Big4(p, 0, t.value)
      && Stands(p, 4, [4, 4] + other.value) && Stands(p, 10, [1, 4, 4] + own)
    case Created2(h) => Big2(p, 0, |h|) && Stands(p, 2, h)
    case Certs(d) => p == d
    case AuthChallenge(d) => p == d
  }

  lemma {:induction false} VersionOctets(vs: seq<nat>, i: nat)
    requires (forall j | 0 <= j < |vs| :: vs[j] < 0x1_0000) && i < |vs|
    ensures |WriteVersions(vs)| == 2 * |vs| && Big2(WriteVersions(vs), 2 * i, vs[i])
  {
    var p, rest := WriteVersions(vs), WriteVersions(vs[1..]);
    U16Octets([], vs[0], rest);
    assert [] + U16(vs[0]) + rest == p;
    if |vs| > 1 {
      VersionOctets(vs[1..], if i == 0 then 0 else i - 1);
      assert i > 0 ==> p[2 * i] == rest[2 * (i - 1)] && p[2 * i + 1] == rest[2 * (i - 1) + 1];
    } else {
      assert vs[1..] == [] && rest == [];
    }
  }

  lemma NetInfoOctets(t: nat, other: bytes, own: bytes)
    requires t < 0x1_0000_0000 && |other| == |own| == 4
    ensures LaidOut(NetInfo(Some(t), Some(other), own), WriteBody(NetInfo(Some(t), Some(other), own)))
  {
    var a, b := [4, 4] + other, [1, 4, 4] + own;
    U32Octets([], t, a + b);
    var p := U32(t) + a + b;
    assert [] + U32(t) + (a + b) == p;
    assert p[4..10] == a && p[10..17] == b;
  }

  lemma PayloadOctets(b: LinkBody)
    requires Proper(b)
    ensures LaidOut(b, WriteBody(b))
  {
    var p := WriteBody(b);
    match b
    case Versions(vs) =>
      forall i | 0 <= i < |vs|
        ensures |p| == 2 * |vs| && Big2(p, 2 * i, vs[i])
      {
        VersionOctets(vs, i);
      }
      if vs == [] {
        assert p == [];
      }
    case NetInfo(t, other, own) => NetInfoOctets(t.value, other.value, own);
    case Created2(h) =>
      U16Octets([], |h|, h);
      assert [] + U16(|h|) + h == p;
      Behind(U16(|h|), h);
    case _ =>
  }

  /** VERSIONS, and the commands from 128 on, say how long they are; all others have 509 octets. */
  predicate SaysLength(b: LinkBody) {
    b.Versions? || b.Certs? || b.AuthChallenge?
  }

  lemma HeaderOctets(wide: bool, c: LinkCell)
    requires Fits(wide, c)
    ensures var s, n := Serialize(wide, c), if wide then 5 else 3;
            && |s| >= n
            && (if wide then Big4(s, 0, c.circuit) else Big2(s, 0, c.circuit)) && Numbered(c.body, s[n - 1])
  {
    var s := Serialize(wide, c);
    var n := HeaderLen(wide);
    var tail := s[n..];
    assert s == Header(wide, c.circuit, Command(c.body)) + tail;
    var rest := [Command(c.body)] + tail;
    if wide {
      U32Octets([], c.circuit, rest);
      assert s == [] + U32(c.circuit) + rest;
    } else {
      U16Octets([], c.circuit, rest);
      assert s == [] + U16(c.circuit) + rest;
    }
  }

  lemma LengthOctets(wide: bool, c: LinkCell)
    requires Fits(wide, c) && SaysLength(c.body)
    ensures var s, n, p := Serialize(wide, c), if wide then 5 else 3, WriteBody(c.body);
            |s| == n + 2 + |p| && Big2(s, n, |p|) && Stands(s, n + 2, p)
  {
    var s, n, p := Serialize(wide, c), HeaderLen(wide), WriteBody(c.body);
    var h := Header(wide, c.circuit, Command(c.body));
    U16Octets(h, |p|, p);
    assert s == h + U16(|p|) + p;
    assert s[n + 2..n + 2 + |p|] == p;
  }

  /** A payload in 509 octets: filled up with zeros, or cut. */
  predicate Filled(q: bytes, p: bytes) {
    |q| == 509 && if |p| <= 509 then Stands(q, 0, p) && forall i | |p| <= i < 509 :: q[i] == 0 else q == p[..509]
  }

  lemma FixedOctets(wide: bool, c: LinkCell)
    requires Fits(wide, c) && !SaysLength(c.body)
    ensures var s, n := Serialize(wide, c), if wide then 5 else 3;
            |s| == n + 509 && Filled(s[n..], WriteBody(c.body))
  {
    assert Serialize(wide, c)[HeaderLen(wide)..] == Fixed(WriteBody(c.body));
  }

  /** Every octet of a cell as it is sent. */
  lemma CellOctets(wide: bool, c: LinkCell)
    requires Fits(wide, c)
    ensures var s, n, p := Serialize(wide, c), if wide then 5 else 3, WriteBody(c.body);
            && |s| >= n && (if wide then Big4(s, 0, c.circuit) else Big2(s, 0, c.circuit))
            && Numbered(c.body, s[n - 1]) && LaidOut(c.body, p)
            && if SaysLength(c.body) then |s| == n + 2 + |p| && Big2(s, n, |p|) && Stands(s, n + 2, p)
               else |s| == n + 509 && Filled(s[n..], p)
  {
    PayloadOctets(c.body);
    HeaderOctets(wide, c);
    if SaysLength(c.body) {
      LengthOctets(wide, c);
    } else {
      FixedOctets(wide, c);
    }
  }

  // ---- what the framer takes ----

  predicate Command509(cmd: byte) {
    cmd in {0, 1, 3, 4, 5, 6, 8, 9, 10, 11}
  }

  predicate CommandWithLength(cmd: byte) {
    cmd in {7, 129, 130}
  }

  /** Behind a header with one of these commands, exactly the next 509 octets are the payload. */
  lemma Takes509(wide: bool, s: bytes)
    requires var n := if wide then 5 else 3; |s| >= n && Command509(s[n - 1])
    ensures var n := if wide then 5 else 3;
            match ParseOne(wide, s)
            case Need => |s| < n + 509
            case Got(c, rest) => |s| >= n + 509 && rest == s[n + 509..] && Ok(c.body) == ReadBody(s[n - 1], s[n..n + 509])
            case Bad(e) => |s| >= n + 509 && ReadBody(s[n - 1], s[n..n + 509]) == Err(e)
  {
  }

  /** Behind one of these, the two octets of a length and exactly as many as they say. */
  lemma TakesLength(wide: bool, s: bytes)
    requires var n := if wide then 5 else 3; |s| >= n && CommandWithLength(s[n - 1])
    ensures var n := if wide then 5 else 3;
            |s| < n + 2 ==> ParseOne(wide, s).Need?
    ensures var n := if wide then 5 else 3;
            |s| >= n + 2 ==>
              var len: nat := 0x100 * (s[n] as int) + s[n + 1] as int;
              match ParseOne(wide, s)
              case Need => |s| < n + 2 + len
              case Got(c, rest) =>
                && |s| >= n + 2 + len && rest == s[n + 2 + len..]
                && Ok(c.body) == ReadBody(s[n - 1], s[n + 2..n + 2 + len])
              case Bad(e) => |s| >= n + 2 + len && ReadBody(s[n - 1], s[n + 2..n + 2 + len]) == Err(e)
  {
    var n := HeaderLen(wide);
    if |s| >= n + 2 {
      assert s[n..n + 2][0] == s[n] && s[n..n + 2][1] == s[n + 1];
    }
  }

  /** Any other command is an error as soon as its header is there. */
  lemma RefusesOthers(wide: bool, s: bytes)
    requires var n := if wide then 5 else 3; |s| >= n && !Command509(s[n - 1]) && !CommandWithLength(s[n - 1])
    ensures ParseOne(wide, s) == Bad(UnknownCommand)
  {
  }

  // ---- relay cells ----

  /** Command, zero, stream, digest, length, then the body filled up with zeros: 509 octets. */
  lemma RelayOctets(num: byte, streamId: nat, digest: bytes, payload: bytes, padding: bytes)
    requires streamId < 0x1_0000 && |digest| == 4 && |payload| + |padding| <= 498
    ensures var p := RelayFormat.Pack(num, streamId, digest, payload, padding);
            && |p| == 509 && p[0] == num && p[1] == 0 && p[2] == 0 && Big2(p, 3, streamId)
            && Stands(p, 5, digest) && Big2(p, 9, |payload|) && Stands(p, 11, payload) && Stands(p, 11 + |payload|, padding)
            && forall i | 11 + |payload| + |padding| <= i < 509 :: p[i] == 0
  {
    var p := RelayFormat.Pack(num, streamId, digest, payload, padding);
    var zeros := Zeros(498 - |payload| - |padding|);
    var body := payload + padding + zeros;
    var a, b := [num] + U16(0), digest + U16(|payload|) + body;
    U16Octets([num], 0, []);
    U16Octets(a, streamId, b);
    assert p == a + U16(streamId) + b && [num] + U16(0) + [] == a;
    var c := [num] + U16(0) + U16(streamId) + digest;
    U16Octets(c, |payload|, body);
    assert p == c + U16(|payload|) + body;
    assert p[5..9] == digest && p[11..] == body;
    assert p[11..11 + |payload|] == body[..|payload|] == payload;
    assert p[11 + |payload|..11 + |payload| + |padding|] == body[|payload|..|payload| + |padding|] == padding;
    forall i | 11 + |payload| + |padding| <= i < 509
      ensures p[i] == 0
    {
      assert p[i] == body[i - 11] == zeros[i - 11 - |payload| - |padding|];
    }
  }

  /** The octets that both ends feed to the running digest are those of the cell with 5, 6, 7 and 8 zero. */
  lemma DigestedOctets(p: bytes)
    requires |p| == 509
    ensures var q := RelayFormat.Cleared(p);
            |q| == 509 && forall i | 0 <= i < 509 :: q[i] == if 5 <= i < 9 then 0 else p[i]
  {
  }

  predicate RelayNumbered(b: RelayBodies.Body, num: byte) {
    match b
    case Data(_) => num == 2
    case End(_, _, _) => num == 3
    case Connected(_, _) => num == 4
    case SendMe(_, _) => num == 5
    case Truncated(_) => num == 9
    case BeginDir(_) => num == 13
    case Extended2(_) => num == 15
    case Rendezvous2(_) => num == 37
    case RendezvousEstablished(_) => num == 39
    case IntroduceAck(_) => num == 40
    case SendOnly(n, _) => num == n && n in {1, 14, 33, 34}
  }

  /** The fields of a relay cell's body, each where it stands. */
  ghost predicate RelayLaidOut(b: RelayBodies.Body, p: bytes) {
    match b
    case End(r, a, t) =>
      if r == 4 then |p| == 9 && p[0] == 4 && a.Some? && Stands(p, 1, a.value) && t.Some? && Big4(p, 5, t.value)
      else |p| == 1 && p[0] == r
    case Connected(a, t) =>
      if a.Some? && t != 0 then |p| == 8 && Stands(p, 0, a.value) && Big4(p, 4, t) else p == []
    case SendMe(v, d) =>
      if v.Some? && v.value != 0 && d.Some? && d.value != [] then
        |p| == 3 + |d.value| && p[0] == v.value && Big2(p, 1, |d.value|) && Stands(p, 3, d.value)
      else p == []
    case Truncated(r) => |p| == 1 && p[0] == r
    case Extended2(h) => |p| == 2 + |h| && Big2(p, 0, |h|) && Stands(p, 2, h)
    case Data(d) => p == d
    case BeginDir(d) => p == d
    case Rendezvous2(h) => p == h
    case RendezvousEstablished(d) => p == d
    case IntroduceAck(d) => p == d
    case SendOnly(_, d) => p == d
  }

  lemma RelayBodyOctets(b: RelayBodies.Body)
    requires RelayBodies.Proper(b)
    ensures RelayNumbered(b, RelayBodies.Num(b)) && RelayLaidOut(b, RelayBodies.Serialize(b))
  {
    var p := RelayBodies.Serialize(b);
    match b
    case End(r, a, t) =>
      if r == 4 {
        U32Octets([r] + a.value, t.value, []);
        assert [r] + a.value + U32(t.value) + [] == p && p[1..5] == a.value;
      }
    case Connected(a, t) =>
      if a.Some? && t != 0 {
        U32Octets(a.value, t, []);
        assert a.value + U32(t) + [] == p;
      }
    case SendMe(v, d) =>
      if p != [] {
        U16Octets([v.value], |d.value|, d.value);
        Behind([v.value] + U16(|d.value|), d.value);
      }
    case Extended2(h) =>
      U16Octets([], |h|, h);
      assert [] + U16(|h|) + h == p;
      Behind(U16(|h|), h);
    case _ =>
  }

  /** What a command octet is read as, whatever the payload. */
  lemma RelayCommandRead(num: byte, p: bytes)
    ensures match RelayBodies.Deserialize(num, p)
            case Ok(b) => !b.SendOnly? && RelayNumbered(b, num)
            case Err(UnknownCell) => num !in {1, 2, 3, 4, 5, 9, 13, 15, 33, 34, 37, 39, 40}
            case Err(NotImplemented) => num in {1, 33, 34}
            case Err(_) => num in {3, 4, 5, 9, 15}
  {
  }

  /** The same for a link cell. */
  lemma CommandRead(cmd: byte, p: bytes)
    ensures ReadBody(cmd, p).Ok? ==> Numbered(ReadBody(cmd, p).value, cmd)
    ensures !Command509(cmd) && !CommandWithLength(cmd) ==> ReadBody(cmd, p) == Err(UnknownCommand)
    ensures cmd in {1, 5, 9, 10} ==> ReadBody(cmd, p) == Err(NotReadable)
  {
  }

  /** The payloads that a relay cell's reader accepts. */
  lemma RelayReadIff(num: byte, p: bytes)
    ensures RelayBodies.Deserialize(num, p).Ok? <==>
      match num
      case 2 | 13 | 37 | 39 | 40 => true
      case 3 => |p| > 0 && 1 <= p[0] <= 14 && (p[0] == 4 ==> |p| == 9)
      case 4 => |p| == 0 || |p| == 8
      case 5 => |p| == 0 || |p| >= 3
      case 9 => |p| > 0 && p[0] <= 12
      case 15 => |p| >= 2
      case _ => false
  {
  }

  lemma {:induction false} VersionsEven(p: bytes)
    ensures ReadVersions(p).Ok? <==> |p| % 2 == 0
  {
    if |p| >= 2 {
      VersionsEven(p[2..]);
    }
  }

  /** The payloads that a link cell's reader accepts. */
  lemma ReadIff(cmd: byte, p: bytes)
    ensures ReadBody(cmd, p).Ok? <==>
      match cmd
      case 0 | 3 | 129 | 130 => true
      case 4 => |p| > 0 && p[0] <= 12
      case 6 => |p| >= 40
      case 7 => |p| % 2 == 0
      case 8 => |p| >= 10 && (p[5] == 4 || (p[5] > 4 && |p| == 10))
      case 11 => |p| >= 2
      case _ => false
  {
    VersionsEven(p);
    if cmd == 8 && |p| >= 6 {
      var n: nat := p[5];
      assert |Slice(p, 6, 6 + n)| == if 6 + n <= |p| then n else |p| - 6;
    }
  }
}
