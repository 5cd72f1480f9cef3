/** The 509-byte plaintext of a relay cell: its header fields and its digest slot. */
module RelayFormat {
  import opened Bytes

  const CELL_LEN: nat := 509
  const MAX_PAYLOAD: nat := 498
  const NO_DIGEST: bytes := Zeros(4)

  datatype Header = Header(num: byte, recognized: nat, streamId: nat, digest: bytes, len: nat, raw: bytes)

  /** Header, payload and padding, filled with zeros up to the fixed cell length. */
  function Pack(num: byte, streamId: nat, digest: bytes, payload: bytes, padding: bytes): (p: bytes)
    requires streamId < 0x1_0000 && |digest| == 4 && |payload| + |padding| <= MAX_PAYLOAD
    ensures |p| == CELL_LEN
  {
    [num] + U16(0) + U16(streamId) + digest + U16(|payload|)
    + (payload + padding + Zeros(MAX_PAYLOAD - |payload| - |padding|))
  }

  function ParseHeader(p: bytes): (h: Header)
    requires |p| == CELL_LEN
    ensures h.streamId < 0x1_0000 && h.len < 0x1_0000 && |h.digest| == 4 && |h.raw| == MAX_PAYLOAD
  {
    Header(p[0], FromU16(p[1..3]), FromU16(p[3..5]), p[5..9], FromU16(p[9..11]), p[11..])
  }

  function SetDigest(p: bytes, digest: bytes): (q: bytes)
    requires |p| == CELL_LEN && |digest| == 4
    ensures |q| == CELL_LEN
  {
    p[..5] + digest + p[9..]
  }

  /** The bytes that both ends feed to the running digest: the cell with its digest slot cleared. */
  function Cleared(p: bytes): (q: bytes)
    requires |p| == CELL_LEN
    ensures |q| == CELL_LEN
  {
    SetDigest(p, NO_DIGEST)
  }

  /** The payload a receiver keeps: the first `len` bytes of the body. */
  function Payload(h: Header): (d: bytes)
    ensures |d| <= |h.raw|
  {
    if h.len <= |h.raw| then h.raw[..h.len] else h.raw
  }

  /** What the receiver keeps behind the payload: nothing when it is all zeros. */
  function Padding(h: Header): (d: bytes) {
    var rest := if h.len <= |h.raw| then h.raw[h.len..] else [];
    if forall i | 0 <= i < |rest| :: rest[i] == 0 then [] else rest
  }

  /** The digest slot is the only thing that distinguishes a finished cell from the digested bytes. */
  lemma DigestSlot(num: byte, streamId: nat, digest: bytes, digest': bytes, payload: bytes, padding: bytes)
    requires streamId < 0x1_0000 && |digest| == |digest'| == 4 && |payload| + |padding| <= MAX_PAYLOAD
    ensures SetDigest(Pack(num, streamId, digest, payload, padding), digest')
         == Pack(num, streamId, digest', payload, padding)
  {
    var p, q := Pack(num, streamId, digest, payload, padding), Pack(num, streamId, digest', payload, padding);
    assert p[..5] == [num] + U16(0) + U16(streamId) == q[..5];
    assert p[9..] == q[9..];
    assert q == q[..5] + q[5..9] + q[9..];
    assert q[5..9] == digest';
  }

  /** Parsing recovers every field of a packed cell, and the padding unless it was zeros. */
  lemma ParsePack(num: byte, streamId: nat, digest: bytes, payload: bytes, padding: bytes)
    requires streamId < 0x1_0000 && |digest| == 4 && |payload| + |padding| <= MAX_PAYLOAD
    ensures var h := ParseHeader(Pack(num, streamId, digest, payload, padding));
            && h.num == num && h.recognized == 0 && h.streamId == streamId
            && h.digest == digest && h.len == |payload| && Payload(h) == payload
            && ((forall i | 0 <= i < |padding| :: padding[i] == 0) ==> Padding(h) == [])
  {
    var p := Pack(num, streamId, digest, payload, padding);
    var body := payload + padding + Zeros(MAX_PAYLOAD - |payload| - |padding|);
    assert p[1..3] == U16(0) && p[3..5] == U16(streamId) && p[5..9] == digest && p[9..11] == U16(|payload|);
    assert p[11..] == body && body[..|payload|] == payload;
    var rest := body[|payload|..];
    assert rest == padding + Zeros(MAX_PAYLOAD - |payload| - |padding|);
    assert (forall i | 0 <= i < |padding| :: padding[i] == 0) ==> forall i | 0 <= i < |rest| :: rest[i] == 0;
  }

  /** Conversely a cell is its header and body: no two cells parse alike. */
  lemma ParseInjective(p: bytes, q: bytes)
    requires |p| == |q| == CELL_LEN && ParseHeader(p) == ParseHeader(q)
    ensures p == q
  {
    assert forall s: bytes | |s| == CELL_LEN ::
      s == [s[0]] + s[1..3] + s[3..5] + s[5..9] + s[9..11] + s[11..];
    FromU16Injective(p[1..3], q[1..3]);
    FromU16Injective(p[3..5], q[3..5]);
    FromU16Injective(p[9..11], q[9..11]);
  }

  lemma FromU16Injective(s: bytes, t: bytes)
    requires |s| == |t| == 2 && FromU16(s) == FromU16(t)
    ensures s == t
  {
    assert s[0] == t[0] && s[1] == t[1];
  }
}
