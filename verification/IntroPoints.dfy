/** Introduction points encrypted for the clients of a hidden service. */
module IntroPoints {
  import opened Sequences
  import opened Bytes
  import opened Layers

  const ID_LEN: nat := 4
  const KEY_LEN: nat := 16
  const IV_LEN: nat := 16
  const ENTRY_LEN: nat := 20
  const MULTIPLE: nat := 16

  const BASIC: byte := 1
  const STEALTH: byte := 2

  datatype Error = TooSmall | UnknownType | KeyNotFound

  /** AES-CTR under a key and a first counter block. */
  function Ctr(prim: Primitives, key: bytes, iv: bytes, data: bytes): (r: bytes)
    ensures |r| == |data|
  {
    Crypt(prim, key + iv, 0, data)
  }

  function ClientId(prim: Primitives, cookie: bytes, iv: bytes): (id: bytes)
    ensures |id| == ID_LEN
  {
    prim.sha1(cookie + iv)[..ID_LEN]
  }

  // ---- the entries ----

  /** The `i`-th entry of a table: an identifier and an encrypted session key. */
  function EntryAt(data: bytes, i: nat): (e: bytes)
    requires (i + 1) * ENTRY_LEN <= |data|
    ensures |e| == ENTRY_LEN
  {
    data[i * ENTRY_LEN..i * ENTRY_LEN + ENTRY_LEN]
  }

  /** The first entry from the `i`-th on that has the identifier. */
  function Scan(data: bytes, id: bytes, i: nat): (k: Option<nat>)
    requires |data| % ENTRY_LEN == 0 && i * ENTRY_LEN <= |data|
    ensures k.Some? ==> i <= k.value && (k.value + 1) * ENTRY_LEN <= |data|
    decreases |data| - i * ENTRY_LEN
  {
    if i * ENTRY_LEN == |data| then None
    else if EntryAt(data, i)[..ID_LEN] == id then Some(i)
    else Scan(data, id, i + 1)
  }

  function SessionKey(prim: Primitives, data: bytes, cookie: bytes, id: bytes): (r: Result<bytes, Error>)
    requires |data| % ENTRY_LEN == 0
  {
    match Scan(data, id, 0)
    case None => Err(KeyNotFound)
    case Some(k) => Ok(Ctr(prim, cookie, Zeros(IV_LEN), EntryAt(data, k)[ID_LEN..]))
  }

  /** The loop over the table, in strides of one entry. */
  method GetSessionKey(prim: Primitives, data: bytes, cookie: bytes, id: bytes) returns (r: Result<bytes, Error>)
    requires |data| % ENTRY_LEN == 0
    ensures r == SessionKey(prim, data, cookie, id)
  {
    var pos := 0;
    ghost var i := 0;
    while pos < |data|
      invariant pos == i * ENTRY_LEN <= |data| && Scan(data, id, 0) == Scan(data, id, i)
    {
      assert EntryAt(data, i)[..ID_LEN] == data[pos..pos + ID_LEN];
      if data[pos..pos + ID_LEN] == id {
        var start := pos + ID_LEN;
        assert EntryAt(data, i)[ID_LEN..] == data[start..start + KEY_LEN];
        return Ok(Ctr(prim, cookie, Zeros(IV_LEN), data[start..start + KEY_LEN]));
      }
      pos := pos + ENTRY_LEN;
      i := i + 1;
    }
    return Err(KeyNotFound);
  }

  // ---- the buffer ----

  function TableLen(blocks: nat): (n: nat)
    ensures n % ENTRY_LEN == 0
  {
    blocks * MULTIPLE * ENTRY_LEN
  }

  function OpenBasic(prim: Primitives, buffer: bytes, cookie: bytes): (r: Result<bytes, Error>)
    requires |buffer| > 2
  {
    var end := 2 + TableLen(buffer[1]);
    if |buffer| <= end + IV_LEN then Err(TooSmall)
    else
      var iv := buffer[end..end + IV_LEN];
      match SessionKey(prim, buffer[2..end], cookie, ClientId(prim, cookie, iv))
      case Ok(key) => Ok(Ctr(prim, key, iv, buffer[end + IV_LEN..]))
      case Err(e) => Err(e)
  }

  function OpenStealth(prim: Primitives, buffer: bytes, cookie: bytes): (r: Result<bytes, Error>)
    requires |buffer| > 2
  {
    if |buffer| <= 2 + IV_LEN then Err(TooSmall)
    else Ok(Ctr(prim, cookie, buffer[1..1 + IV_LEN], buffer[1 + IV_LEN..]))
  }

  /** Decryption with a client's descriptor cookie; a failed assertion or lookup of the code is an error. */
  method Decrypt(prim: Primitives, buffer: bytes, cookie: bytes) returns (r: Result<bytes, Error>)
    ensures r == if |buffer| <= 2 then Err(TooSmall)
                 else if buffer[0] == 1 then OpenBasic(prim, buffer, cookie)
                 else if buffer[0] == 2 then OpenStealth(prim, buffer, cookie)
                 else Err(UnknownType)
  {
    if |buffer| <= 2 {
      return Err(TooSmall);
    }
    if buffer[0] == BASIC {
      var end := 2 + TableLen(buffer[1]);
      if |buffer| <= end + IV_LEN {
        return Err(TooSmall);
      }
      var iv := buffer[end..end + IV_LEN];
      var key := GetSessionKey(prim, buffer[2..end], cookie, ClientId(prim, cookie, iv));
      return if key.Err? then Err(key.error) else Ok(Ctr(prim, key.value, iv, buffer[end + IV_LEN..]));
    }
    return if buffer[0] == STEALTH then OpenStealth(prim, buffer, cookie) else Err(UnknownType);
  }

  // ---- what the service publishes ----

  ghost predicate Entries(es: seq<bytes>) {
    forall i | 0 <= i < |es| :: |es[i]| == ENTRY_LEN
  }

  function Table(es: seq<bytes>): (t: bytes) {
    if es == [] then [] else es[0] + Table(es[1..])
  }

  function ClientEntry(prim: Primitives, cookie: bytes, iv: bytes, session: bytes): (e: bytes)
    requires |session| == KEY_LEN
    ensures |e| == ENTRY_LEN
  {
    ClientId(prim, cookie, iv) + Ctr(prim, cookie, Zeros(IV_LEN), session)
  }

  function Basic(prim: Primitives, blocks: byte, es: seq<bytes>, iv: bytes, session: bytes, plain: bytes): (b: bytes) {
    [BASIC, blocks] + (Table(es) + (iv + Ctr(prim, session, iv, plain)))
  }

  lemma {:induction false} TableEntry(es: seq<bytes>, i: nat)
    requires Entries(es) && i < |es|
    ensures |Table(es)| == |es| * ENTRY_LEN && EntryAt(Table(es), i) == es[i]
  {
    if |es| > 1 {
      TableEntry(es[1..], if i == 0 then 0 else i - 1);
    } else {
      assert Table(es[1..]) == [];
    }
    var rest := Table(es[1..]);
    assert Table(es)[ENTRY_LEN..] == rest;
    if i > 0 {
      var at := (i - 1) * ENTRY_LEN;
      assert Table(es)[at + ENTRY_LEN..at + 2 * ENTRY_LEN] == rest[at..at + ENTRY_LEN];
    }
  }

  /** The scan stops at the first entry with the identifier, wherever the others begin. */
  lemma {:induction false} ScanFinds(es: seq<bytes>, id: bytes, i: nat, k: nat)
    requires Entries(es) && i <= k <= |es| && |Table(es)| == |es| * ENTRY_LEN
    requires forall j | i <= j < k :: es[j][..ID_LEN] != id
    requires k < |es| ==> es[k][..ID_LEN] == id
    ensures Scan(Table(es), id, i) == if k < |es| then Some(k) else None
    decreases k - i
  {
    if i < |es| {
      TableEntry(es, i);
    }
    if i < k {
      ScanFinds(es, id, i + 1, k);
    }
  }

  lemma BasicParts(prim: Primitives, blocks: byte, es: seq<bytes>, iv: bytes, session: bytes, plain: bytes)
    requires Entries(es) && |es| == blocks * MULTIPLE && |iv| == IV_LEN
    ensures var b, end := Basic(prim, blocks, es, iv, session, plain), 2 + TableLen(blocks);
            && |Table(es)| == TableLen(blocks) == |es| * ENTRY_LEN
            && |b| == end + IV_LEN + |plain| && b[0] == BASIC && b[1] == blocks
            && b[2..end] == Table(es) && b[end..end + IV_LEN] == iv && b[end + IV_LEN..] == Ctr(prim, session, iv, plain)
  {
    if es != [] {
      TableEntry(es, 0);
    }
    var b, end := Basic(prim, blocks, es, iv, session, plain), 2 + TableLen(blocks);
    var tail := iv + Ctr(prim, session, iv, plain);
    assert b[2..] == Table(es) + tail;
    assert b[2..end] == b[2..][..TableLen(blocks)] && b[end..] == b[2..][TableLen(blocks)..] == tail;
    assert b[end..end + IV_LEN] == tail[..IV_LEN] && b[end + IV_LEN..] == tail[IV_LEN..];
  }

  /**
   A published buffer octet by octet: type 1, the number of blocks of 320 octets, entries of 20, the
   IV and the text. A client's entry is the front of the hash of its cookie and then the IV, and
   behind that the session key encrypted under its cookie.
  */
  lemma BasicOctets(prim: Primitives, blocks: byte, es: seq<bytes>, iv: bytes, session: bytes, plain: bytes, i: nat)
    requires Entries(es) && |es| == blocks * 16 && |iv| == |session| == 16 && i < |es|
    ensures var b, at := Basic(prim, blocks, es, iv, session, plain), 2 + blocks * 320;
            && |b| == at + 16 + |plain| && b[0] == 1 && b[1] == blocks && b[2 + i * 20..2 + i * 20 + 20] == es[i]
            && b[at..at + 16] == iv && b[at + 16..] == Crypt(prim, session + iv, 0, plain)
    ensures forall cookie: bytes :: ClientEntry(prim, cookie, iv, session)[..4] == prim.sha1(cookie + iv)[..4]
    ensures forall cookie: bytes ::
      ClientEntry(prim, cookie, iv, session)[4..] == Crypt(prim, cookie + Zeros(16), 0, session)
  {
    BasicParts(prim, blocks, es, iv, session, plain);
    TableEntry(es, i);
    var b := Basic(prim, blocks, es, iv, session, plain);
    assert b[2 + i * 20..2 + i * 20 + 20] == b[2..2 + TableLen(blocks)][i * 20..i * 20 + 20] == EntryAt(Table(es), i);
  }

  /**
   What a client gets from a table in which the first entry with its identifier is the `k`-th:
   the introduction points if that entry is its own, and nothing if there is none. No text to
   encrypt is refused.
  */
  lemma BasicRoundTrip(prim: Primitives, blocks: byte, es: seq<bytes>, iv: bytes, session: bytes, plain: bytes,
                       cookie: bytes, k: nat)
    requires Entries(es) && |es| == blocks * MULTIPLE && |iv| == IV_LEN && |session| == KEY_LEN && k <= |es|
    requires forall j | 0 <= j < k :: es[j][..4] != prim.sha1(cookie + iv)[..4]
    requires k < |es| ==> es[k] == prim.sha1(cookie + iv)[..4] + Crypt(prim, cookie + Zeros(16), 0, session)
    ensures OpenBasic(prim, Basic(prim, blocks, es, iv, session, plain), cookie) ==
      if plain == [] then Err(TooSmall) else if k == |es| then Err(KeyNotFound) else Ok(plain)
  {
    BasicParts(prim, blocks, es, iv, session, plain);
    ScanFinds(es, ClientId(prim, cookie, iv), 0, k);
    if k < |es| {
      TableEntry(es, k);
      CryptTwice(prim, cookie + Zeros(IV_LEN), 0, session);
      assert es[k] == ClientEntry(prim, cookie, iv, session);
      assert es[k][ID_LEN..] == Ctr(prim, cookie, Zeros(IV_LEN), session);
      CryptTwice(prim, session + iv, 0, plain);
    }
  }

  /** A stealth text comes back unless it is shorter than two bytes. */
  lemma StealthRoundTrip(prim: Primitives, iv: bytes, cookie: bytes, plain: bytes)
    requires |iv| == IV_LEN
    ensures OpenStealth(prim, [2] + (iv + Crypt(prim, cookie + iv, 0, plain)), cookie) ==
      if |plain| >= 2 then Ok(plain) else Err(TooSmall)
  {
    var b := [STEALTH] + (iv + Ctr(prim, cookie, iv, plain));
    assert b[1..] == iv + Ctr(prim, cookie, iv, plain);
    assert b[1..1 + IV_LEN] == iv && b[1 + IV_LEN..] == Ctr(prim, cookie, iv, plain);
    CryptTwice(prim, cookie + iv, 0, plain);
  }
}
