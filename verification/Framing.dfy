/** Incremental framing: a resumable builder fed with whatever the socket delivers. */
module Framing {
  import opened Sequences
  import opened Bytes
  import opened LinkCells

  // ---- reference: parse a whole byte string at once ----

  datatype Parsed = Need | Bad(error: LinkError) | Got(cell: LinkCell, rest: bytes)

  function Finish(circuit: nat, cmd: byte, p: bytes, rest: bytes): (r: Parsed) {
    match ReadBody(cmd, p)
    case Ok(b) => Got(LinkCell(circuit, b), rest)
    case Err(e) => Bad(e)
  }

  function Circuit(wide: bool, s: bytes): (n: nat)
    requires |s| >= HeaderLen(wide)
  {
    if wide then FromU32(s[..4]) else FromU16(s[..2])
  }

  function Cmd(wide: bool, s: bytes): (b: byte)
    requires |s| >= HeaderLen(wide)
  {
    s[HeaderLen(wide) - 1]
  }

  /** The first cell of a byte string, if all of it is there. */
  function ParseOne(wide: bool, s: bytes): (r: Parsed)
    ensures r.Got? ==> |r.rest| < |s|
  {
    var n := HeaderLen(wide);
    if |s| < n then Need
    else if !Known(Cmd(wide, s)) then Bad(UnknownCommand)
    else if !VarLen(Cmd(wide, s)) then
      if |s| < n + PAYLOAD_LEN then Need
      else Finish(Circuit(wide, s), Cmd(wide, s), s[n..n + PAYLOAD_LEN], s[n + PAYLOAD_LEN..])
    else if |s| < n + 2 then Need
    else
      var len := FromU16(s[n..n + 2]);
      if |s| < n + 2 + len then Need
      else Finish(Circuit(wide, s), Cmd(wide, s), s[n + 2..n + 2 + len], s[n + 2 + len..])
  }

  datatype Outcome = Outcome(cells: seq<LinkCell>, rest: bytes, error: Option<LinkError>)

  /** As many cells as there are; `wide(k)` is the header width in force when cell `k` begins. */
  function Greedy(wide: nat -> bool, k: nat, s: bytes): (o: Outcome)
    decreases |s|
  {
    match ParseOne(wide(k), s)
    case Need => Outcome([], s, None)
    case Bad(e) => Outcome([], s, Some(e))
    case Got(c, rest) => Prepend([c], Greedy(wide, k + 1, rest))
  }

  function Prepend(cs: seq<LinkCell>, o: Outcome): (o': Outcome) {
    o.(cells := cs + o.cells)
  }

  lemma PrependTwice(a: seq<LinkCell>, b: seq<LinkCell>, o: Outcome)
    ensures Prepend(a, Prepend(b, o)) == Prepend(a + b, o)
    ensures Prepend([], o) == o
  {
    assert a + (b + o.cells) == (a + b) + o.cells;
    assert [] + o.cells == o.cells;
  }

  /** More bytes behind a cell, or behind an error, do not change it. */
  lemma ParseOneExtends(wide: bool, s: bytes, t: bytes)
    requires !ParseOne(wide, s).Need?
    ensures ParseOne(wide, s + t) ==
      (match ParseOne(wide, s) case Got(c, rest) => Got(c, rest + t) case other => other)
  {
    var n := HeaderLen(wide);
    HeaderKept(wide, s, t);
    if Known(Cmd(wide, s)) && VarLen(Cmd(wide, s)) {
      var len := FromU16(s[n..n + 2]);
      SliceKept(s, t, n, n + 2);
      SliceKept(s, t, n + 2, n + 2 + len);
    } else if Known(Cmd(wide, s)) {
      SliceKept(s, t, n, n + PAYLOAD_LEN);
    }
  }

  lemma SliceKept(s: bytes, t: bytes, a: nat, b: nat)
    requires a <= b <= |s|
    ensures (s + t)[a..b] == s[a..b] && (s + t)[b..] == s[b..] + t
  {
  }

  lemma GreedyGot(wide: nat -> bool, k: nat, s: bytes, c: LinkCell, rest: bytes)
    requires ParseOne(wide(k), s) == Got(c, rest)
    ensures |rest| < |s| && Greedy(wide, k, s) == Prepend([c], Greedy(wide, k + 1, rest))
  {
  }

  lemma GreedyNone(wide: nat -> bool, k: nat, s: bytes)
    requires !ParseOne(wide(k), s).Got?
    ensures var v := ParseOne(wide(k), s);
            Greedy(wide, k, s) == Outcome([], s, if v.Bad? then Some(v.error) else None)
  {
  }

  /** What a first piece `o` leaves over is parsed on together with the next bytes. */
  function Resume(wide: nat -> bool, k: nat, o: Outcome, t: bytes): (o': Outcome) {
    if o.error.Some? then o.(rest := o.rest + t) else Prepend(o.cells, Greedy(wide, k + |o.cells|, o.rest + t))
  }

  /** Resuming after earlier cells is resuming, after those cells. */
  lemma ResumeOn(wide: nat -> bool, k: nat, cs: seq<LinkCell>, o: Outcome, t: bytes)
    ensures Resume(wide, k, Prepend(cs, o), t) == Prepend(cs, Resume(wide, k + |cs|, o, t))
  {
    if o.error.None? {
      var n := k + |cs| + |o.cells|;
      assert k + |cs + o.cells| == n;
      PrependTwice(cs, o.cells, Greedy(wide, n, o.rest + t));
    }
  }

  /** Parsing in pieces gives what parsing at once gives. */
  lemma {:induction false} GreedyAppend(wide: nat -> bool, k: nat, s: bytes, t: bytes)
    ensures Greedy(wide, k, s + t) == Resume(wide, k, Greedy(wide, k, s), t)
    decreases |s|
  {
    var v := ParseOne(wide(k), s);
    if v.Got? {
      ParseOneExtends(wide(k), s, t);
      GreedyGot(wide, k, s, v.cell, v.rest);
      GreedyGot(wide, k, s + t, v.cell, v.rest + t);
      GreedyAppend(wide, k + 1, v.rest, t);
      ResumeOn(wide, k, [v.cell], Greedy(wide, k + 1, v.rest), t);
    } else {
      GreedyNone(wide, k, s);
      if v.Bad? {
        ParseOneExtends(wide(k), s, t);
        GreedyNone(wide, k, s + t);
      } else {
        PrependTwice([], [], Greedy(wide, k, s + t));
      }
    }
  }

  // ---- cells taken so far, and bytes at hand ----

  /** The parse of `all` is `taken`, and then the parse of `left`. */
  ghost predicate Split(wide: nat -> bool, all: bytes, taken: seq<LinkCell>, left: bytes) {
    forall k | Count(taken, k) :: Greedy(wide, 0, all) == Prepend(taken, Greedy(wide, k, left))
  }

  ghost predicate Count(taken: seq<LinkCell>, k: nat) {
    |taken| == k
  }

  lemma SplitExtend(wide: nat -> bool, all: bytes, taken: seq<LinkCell>, left: bytes, more: bytes)
    requires Split(wide, all, taken, left)
    ensures Split(wide, all + more, taken, left + more)
  {
    assert Count(taken, |taken|);
    var o := Greedy(wide, |taken|, left);
    GreedyAppend(wide, 0, all, more);
    GreedyAppend(wide, |taken|, left, more);
    ResumeOn(wide, 0, taken, o, more);
    assert Greedy(wide, 0, all + more) == Prepend(taken, Resume(wide, |taken|, o, more));
    assert Greedy(wide, |taken|, left + more) == Resume(wide, |taken|, o, more);
  }

  lemma SplitGot(wide: nat -> bool, all: bytes, taken: seq<LinkCell>, left: bytes, c: LinkCell, rest: bytes)
    requires Split(wide, all, taken, left) && ParseOne(wide(|taken|), left) == Got(c, rest)
    ensures Split(wide, all, taken + [c], rest)
  {
    assert Count(taken, |taken|);
    GreedyGot(wide, |taken|, left, c, rest);
    PrependTwice(taken, [c], Greedy(wide, |taken| + 1, rest));
  }

  lemma SplitFront(wide: nat -> bool, all: bytes, taken: seq<LinkCell>, left: bytes)
    requires Split(wide, all, taken, left)
    ensures taken <= Greedy(wide, 0, all).cells
  {
    assert Count(taken, |taken|);
  }

  lemma SplitNeed(wide: nat -> bool, all: bytes, taken: seq<LinkCell>, left: bytes)
    requires Split(wide, all, taken, left) && ParseOne(wide(|taken|), left).Need?
    ensures Greedy(wide, 0, all) == Outcome(taken, left, None)
  {
    assert Count(taken, |taken|);
    GreedyNone(wide, |taken|, left);
    assert taken + [] == taken;
  }

  lemma SplitBad(wide: nat -> bool, all: bytes, taken: seq<LinkCell>, left: bytes)
    requires Split(wide, all, taken, left) && ParseOne(wide(|taken|), left).Bad?
    ensures Greedy(wide, 0, all) == Outcome(taken, left, Some(ParseOne(wide(|taken|), left).error))
  {
    assert Count(taken, |taken|);
    GreedyNone(wide, |taken|, left);
    assert taken + [] == taken;
  }

  // ---- round trip with the writer ----

  /** The link's header is narrow for the first cell and follows the negotiated version from then on. */
  function HandshakeWidth(version: nat): (wide: nat -> bool) {
    k => k > 0 && version >= 4
  }

  ghost predicate AllFit(wide: nat -> bool, k: nat, cs: seq<LinkCell>)
    decreases |cs|
  {
    cs == [] || (Fits(wide(k), cs[0]) && AllFit(wide, k + 1, cs[1..]))
  }

  ghost predicate AllFaithful(cs: seq<LinkCell>) {
    cs == [] || (Faithful(cs[0].body) && AllFaithful(cs[1..]))
  }

  function SerializeAll(wide: nat -> bool, k: nat, cs: seq<LinkCell>): (s: bytes)
    requires AllFit(wide, k, cs)
    decreases |cs|
  {
    if cs == [] then []
    else Serialize(wide(k), cs[0]) + SerializeAll(wide, k + 1, cs[1..])
  }

  lemma HeaderRead(wide: bool, circuit: nat, cmd: byte, t: bytes)
    requires circuit < (if wide then 0x1_0000_0000 else 0x1_0000)
    ensures var s := Header(wide, circuit, cmd) + t;
            Cmd(wide, s) == cmd && Circuit(wide, s) == circuit && s[HeaderLen(wide)..] == t
  {
    var s := Header(wide, circuit, cmd) + t;
    assert if wide then s[..4] == U32(circuit) else s[..2] == U16(circuit);
  }

  lemma SliceBehind(s: bytes, n: nat, p: bytes, tail: bytes)
    requires n <= |s| && s[n..] == p + tail
    ensures |s| >= n + |p| && s[n..n + |p|] == p && s[n + |p|..] == tail
  {
    assert s[n..][..|p|] == p && s[n..][|p|..] == tail;
  }

  lemma FramesFixed(wide: bool, circuit: nat, cmd: byte, p: bytes, tail: bytes)
    requires circuit < (if wide then 0x1_0000_0000 else 0x1_0000)
    requires Known(cmd) && !VarLen(cmd) && |p| == PAYLOAD_LEN
    ensures ParseOne(wide, Header(wide, circuit, cmd) + p + tail) == Finish(circuit, cmd, p, tail)
  {
    var h := Header(wide, circuit, cmd);
    assert h + p + tail == h + (p + tail);
    HeaderRead(wide, circuit, cmd, p + tail);
    SliceBehind(h + (p + tail), HeaderLen(wide), p, tail);
  }

  lemma FramesVarLen(wide: bool, circuit: nat, cmd: byte, p: bytes, tail: bytes)
    requires circuit < (if wide then 0x1_0000_0000 else 0x1_0000)
    requires Known(cmd) && VarLen(cmd) && |p| < 0x1_0000
    ensures ParseOne(wide, Header(wide, circuit, cmd) + (U16(|p|) + p) + tail) == Finish(circuit, cmd, p, tail)
  {
    var h, n := Header(wide, circuit, cmd), HeaderLen(wide);
    var s := h + (U16(|p|) + (p + tail));
    assert h + (U16(|p|) + p) + tail == s;
    HeaderRead(wide, circuit, cmd, U16(|p|) + (p + tail));
    SliceBehind(s, n, U16(|p|), p + tail);
    SliceBehind(s, n + 2, p, tail);
  }

  /** A written cell is framed exactly: its header, then the payload its reader sees, then what follows. */
  lemma ParseFrames(wide: bool, c: LinkCell, tail: bytes)
    requires Fits(wide, c)
    ensures ParseOne(wide, Serialize(wide, c) + tail) ==
      Finish(c.circuit, Command(c.body), Carried(c.body), tail)
  {
    var p := WriteBody(c.body);
    if VarLen(Command(c.body)) {
      FramesVarLen(wide, c.circuit, Command(c.body), p, tail);
    } else {
      FramesFixed(wide, c.circuit, Command(c.body), Fixed(p), tail);
    }
  }

  function Arrived(c: LinkCell): (c': LinkCell)
    requires Proper(c.body)
  {
    c.(body := Arrives(c.body))
  }

  /** One cell arrives, with nothing taken from what follows; it is the cell written exactly when it is faithful. */
  lemma ParseSerialize(wide: bool, c: LinkCell, tail: bytes)
    requires Fits(wide, c)
    ensures ParseOne(wide, Serialize(wide, c) + tail) == Got(Arrived(c), tail)
    ensures Arrived(c) == c <==> Faithful(c.body)
  {
    ParseFrames(wide, c, tail);
    BodyArrives(c.body);
    BodyRoundTrip(c.body);
  }

  function ArrivedAll(wide: nat -> bool, k: nat, cs: seq<LinkCell>): (cs': seq<LinkCell>)
    requires AllFit(wide, k, cs)
    ensures |cs'| == |cs|
    decreases |cs|
  {
    if cs == [] then [] else [Arrived(cs[0])] + ArrivedAll(wide, k + 1, cs[1..])
  }

  /** Of any sequence of cells all arrive, in order, whatever the header widths, and no byte is left over. */
  lemma {:induction false} SequenceArrives(wide: nat -> bool, k: nat, cs: seq<LinkCell>)
    requires AllFit(wide, k, cs)
    ensures Greedy(wide, k, SerializeAll(wide, k, cs)) == Outcome(ArrivedAll(wide, k, cs), [], None)
    decreases |cs|
  {
    if cs == [] {
      GreedyNone(wide, k, []);
    } else {
      var tail := SerializeAll(wide, k + 1, cs[1..]);
      SequenceArrives(wide, k + 1, cs[1..]);
      ParseSerialize(wide(k), cs[0], tail);
      GreedyGot(wide, k, Serialize(wide(k), cs[0]) + tail, Arrived(cs[0]), tail);
    }
  }

  lemma SameCons(a: LinkCell, s: seq<LinkCell>, cs: seq<LinkCell>)
    requires cs != []
    ensures [a] + s == cs <==> a == cs[0] && s == cs[1..]
  {
    assert ([a] + s)[0] == a && ([a] + s)[1..] == s;
    assert cs == [cs[0]] + cs[1..];
  }

  lemma {:induction false} ArrivedSame(wide: nat -> bool, k: nat, cs: seq<LinkCell>)
    requires AllFit(wide, k, cs)
    ensures ArrivedAll(wide, k, cs) == cs <==> AllFaithful(cs)
    decreases |cs|
  {
    if cs != [] {
      ArrivedSame(wide, k + 1, cs[1..]);
      ParseSerialize(wide(k), cs[0], []);
      SameCons(Arrived(cs[0]), ArrivedAll(wide, k + 1, cs[1..]), cs);
    }
  }

  /** A sequence of cells comes back, all of it and in order, exactly when each is faithful. */
  lemma SequenceRoundTrip(wide: nat -> bool, k: nat, cs: seq<LinkCell>)
    requires AllFit(wide, k, cs)
    ensures Greedy(wide, k, SerializeAll(wide, k, cs)) == Outcome(cs, [], None) <==> AllFaithful(cs)
  {
    SequenceArrives(wide, k, cs);
    ArrivedSame(wide, k, cs);
  }

  lemma ConsParts(wide: nat -> bool, k: nat, first: LinkCell, rest: seq<LinkCell>)
    requires Fits(wide(k), first) && AllFit(wide, k + 1, rest)
    ensures AllFit(wide, k, [first] + rest)
    ensures SerializeAll(wide, k, [first] + rest) == Serialize(wide(k), first) + SerializeAll(wide, k + 1, rest)
    ensures ArrivedAll(wide, k, [first] + rest) == [Arrived(first)] + ArrivedAll(wide, k + 1, rest)
  {
    assert ([first] + rest)[1..] == rest;
  }

  /** A link from its first byte: VERSIONS under the narrow header, and all else under the negotiated one. */
  lemma HandshakeRoundTrip(version: nat, first: LinkCell, rest: seq<LinkCell>)
    requires first.body.Versions? && Fits(false, first) && AllFit(HandshakeWidth(version), 1, rest)
    ensures var wide := HandshakeWidth(version);
            Greedy(wide, 0, Serialize(false, first) + SerializeAll(wide, 1, rest)) ==
            Outcome([first] + ArrivedAll(wide, 1, rest), [], None)
    ensures forall k: nat :: HandshakeWidth(version)(k) <==> k >= 1 && version >= 4
  {
    var wide := HandshakeWidth(version);
    assert !wide(0);
    ConsParts(wide, 0, first, rest);
    SequenceArrives(wide, 0, [first] + rest);
  }

  /** Of the bytes written for `cs`, any front part parses to a front part of what arrives, without an error. */
  lemma FrontOfWritten(wide: nat -> bool, cs: seq<LinkCell>, s: bytes, missing: bytes)
    requires AllFit(wide, 0, cs)
    requires s + missing == SerializeAll(wide, 0, cs)
    ensures Greedy(wide, 0, s).error.None? && Greedy(wide, 0, s).cells <= ArrivedAll(wide, 0, cs)
    ensures missing == [] ==> Greedy(wide, 0, s) == Outcome(ArrivedAll(wide, 0, cs), [], None)
  {
    SequenceArrives(wide, 0, cs);
    GreedyAppend(wide, 0, s, missing);
    assert missing == [] ==> s + missing == s;
  }

  // ---- the suspended generator ----

  /** Where the builder is suspended, with what it remembers of the current cell. */
  datatype Builder =
    | Start
    | InHeader(wide: bool)
    | InLength(circuit: nat, cmd: byte)
    | InPayload(circuit: nat, cmd: byte, n: nat)
    | Built(cell: LinkCell)
    | Failed(error: LinkError)

  predicate Waiting(b: Builder) {
    b.InHeader? || b.InLength? || b.InPayload?
  }

  /** The bytes the builder asks for. */
  function Want(b: Builder): (n: nat)
    requires Waiting(b)
  {
    match b
    case InHeader(wide) => HeaderLen(wide)
    case InLength(_, _) => 2
    case InPayload(_, _, n) => n
  }

  function Complete(circuit: nat, cmd: byte, p: bytes): (b: Builder) {
    match ReadBody(cmd, p)
    case Ok(body) => Built(LinkCell(circuit, body))
    case Err(e) => Failed(e)
  }

  /** The builder after exactly the bytes it asked for; an empty payload is never asked for. */
  function Feed(b: Builder, chunk: bytes): (b': Builder)
    requires Waiting(b) && |chunk| == Want(b)
  {
    match b
    case InHeader(wide) =>
      var cmd := Cmd(wide, chunk);
      if !Known(cmd) then Failed(UnknownCommand)
      else if VarLen(cmd) then InLength(Circuit(wide, chunk), cmd)
      else InPayload(Circuit(wide, chunk), cmd, PAYLOAD_LEN)
    case InLength(circuit, cmd) =>
      var n := FromU16(chunk);
      if n == 0 then Complete(circuit, cmd, []) else InPayload(circuit, cmd, n)
    case InPayload(circuit, cmd, _) => Complete(circuit, cmd, chunk)
  }

  /** What the builder remembers is what it was fed: `held`, the front of the current cell. */
  ghost predicate Remembers(wide: bool, b: Builder, held: bytes) {
    var n := HeaderLen(wide);
    match b
    case InHeader(w) => w == wide && held == []
    case InLength(circuit, cmd) =>
      |held| == n && circuit == Circuit(wide, held) && cmd == Cmd(wide, held) && Known(cmd) && VarLen(cmd)
    case InPayload(circuit, cmd, len) =>
      && |held| >= n && circuit == Circuit(wide, held) && cmd == Cmd(wide, held) && Known(cmd) && len > 0
      && (if VarLen(cmd) then |held| == n + 2 && FromU16(held[n..]) == len else |held| == n && len == PAYLOAD_LEN)
    case _ => false
  }

  /** While bytes are missing there is no cell yet. */
  lemma NotYet(wide: bool, b: Builder, held: bytes, data: bytes)
    requires Remembers(wide, b, held) && |data| < Want(b)
    ensures ParseOne(wide, held + data) == Need
  {
    var s, n := held + data, HeaderLen(wide);
    if |held| >= n {
      assert Cmd(wide, s) == Cmd(wide, held);
    }
    if |held| == n + 2 {
      assert s[n..n + 2] == held[n..];
    }
  }

  /** One resumption of the builder agrees with the reference parse, whatever comes after. */
  lemma FeedAgrees(wide: bool, b: Builder, held: bytes, chunk: bytes, tail: bytes)
    requires Remembers(wide, b, held) && |chunk| == Want(b)
    ensures match Feed(b, chunk)
            case Built(c) => ParseOne(wide, held + chunk + tail) == Got(c, tail)
            case Failed(e) => ParseOne(wide, held + chunk + tail) == Bad(e)
            case b' => Remembers(wide, b', held + chunk)
  {
    var h, s, n := held + chunk, held + chunk + tail, HeaderLen(wide);
    assert s[..2] == h[..2] && (wide ==> s[..4] == h[..4]);
    assert Cmd(wide, s) == Cmd(wide, h) && Circuit(wide, s) == Circuit(wide, h);
    match b
    case InHeader(_) =>
      assert h == chunk;
    case InLength(_, _) =>
      HeaderKept(wide, held, chunk);
      assert h[n..] == chunk && s[n..n + 2] == chunk;
      if FromU16(chunk) == 0 {
        assert s[n + 2..n + 2] == [] && s[n + 2..] == tail;
      }
    case InPayload(_, _, len) =>
      HeaderKept(wide, held, chunk);
      assert s[|held|..|held| + len] == chunk && s[|held| + len..] == tail;
      if |held| == n + 2 {
        assert s[n..n + 2] == held[n..];
      }
  }

  lemma HeaderKept(wide: bool, held: bytes, chunk: bytes)
    requires |held| >= HeaderLen(wide)
    ensures Circuit(wide, held + chunk) == Circuit(wide, held) && Cmd(wide, held + chunk) == Cmd(wide, held)
  {
    assert (held + chunk)[..2] == held[..2];
    assert wide ==> (held + chunk)[..4] == held[..4];
  }

  // ---- the socket ----

  class TorCellSocket {
    /** The link version in force once `k` cells have been handled decides the width of the next header. */
    const wide: nat -> bool
    var data: bytes
    var nextLen: Option<nat>
    var builder: Builder
    var handled: nat

    ghost var received: bytes
    ghost var spent: bytes             // bytes of the cells delivered
    ghost var held: bytes              // bytes of the current cell that the builder has
    ghost var delivered: seq<LinkCell>

    constructor (wide: nat -> bool)
      ensures Valid() && this.wide == wide && received == [] && delivered == []
    {
      this.wide := wide;
      data, nextLen, builder, handled := [], None, Start, 0;
      received, spent, held, delivered := [], [], [], [];
      new;
      PrependTwice([], [], Greedy(wide, 0, []));
      assert held + data == [];
    }

    /** What the reference parse makes of everything received so far. */
    ghost function Reference(): (o: Outcome)
      reads this
    {
      Greedy(wide, 0, received)
    }

    /**
     The cells delivered, and then the parse of the bytes at hand. Every byte received was spent on a
     delivered cell, or is in the builder, or is in the buffer.
    */
    ghost predicate Agrees()
      reads this
    {
      && handled == |delivered| && Split(wide, received, delivered, held + data)
      && received == spent + (held + data)
    }

    ghost predicate Valid()
      reads this
    {
      && Agrees()
      && (builder == Start || Remembers(wide(handled), builder, held))
      && (nextLen == if Waiting(builder) then Some(Want(builder)) else None)
      && (builder == Start ==> held == [])
    }

    /** An exception has ended the generator: every cell before the bad one was delivered. */
    ghost predicate Broken(e: LinkError)
      reads this
    {
      && builder == Failed(e) && handled == |delivered| && received == spent + (held + data)
      && Reference().cells == delivered && Reference().error == Some(e)
    }

    /** `self._next_len or next(builder)`: a builder between cells is resumed only now. */
    method AskNext()
      requires Valid()
      modifies this`nextLen, this`builder
      ensures Valid() && Waiting(builder)
    {
      if nextLen.None? {
        builder := InHeader(wide(handled));
        nextLen := Some(HeaderLen(wide(handled)));
      }
    }

    /** More bytes from the socket. */
    method Extend(more: bytes)
      requires Valid()
      modifies this`data, this`received
      ensures Valid() && received == old(received) + more && data == old(data) + more
    {
      SplitExtend(wide, received, delivered, held + data, more);
      Assoc(held, data, more);
      Assoc(spent, held + data, more);
      data := data + more;
      received := received + more;
    }

    /** One turn of the build loop: the builder gets what it asked for. */
    method FeedBuilder() returns (built: bool)
      requires Valid() && Waiting(builder) && |data| >= Want(builder)
      modifies this`data, this`nextLen, this`builder, this`held
      ensures Agrees() || builder.Failed?
      ensures builder.Failed? ==> !built && Broken(builder.error)
      ensures !builder.Failed? ==> built == builder.Built?
      ensures !builder.Failed? && !built ==> Valid() && Waiting(builder)
      ensures built ==> ParseOne(wide(handled), held + data) == Got(builder.cell, data) && nextLen.None?
      ensures |data| < old(|data|)
    {
      var n := nextLen.value;
      var chunk := data[..n];
      assert held + data == held + chunk + data[n..] == (held + chunk) + data[n..];
      FeedAgrees(wide(handled), builder, held, chunk, data[n..]);
      data := data[n..];
      builder := Feed(builder, chunk);
      held := held + chunk;
      built := builder.Built?;
      if builder.Failed? {
        SplitBad(wide, received, delivered, held + data);
      } else {
        nextLen := if built then None else Some(Want(builder));
      }
    }

    /** The second `next` of a finished cell: the cell itself. */
    method TakeBuilt() returns (cell: LinkCell)
      requires Agrees() && builder.Built? && nextLen.None?
      requires ParseOne(wide(handled), held + data) == Got(builder.cell, data)
      modifies this`builder, this`handled, this`held, this`spent, this`delivered
      ensures Valid() && builder == Start && delivered == old(delivered) + [cell] && cell == old(builder).cell
    {
      cell := builder.cell;
      SplitGot(wide, received, delivered, held + data, cell, data);
      builder := Start;
      handled := handled + 1;
      delivered := delivered + [cell];
      Assoc(spent, held, data);
      spent, held := spent + held, [];
      assert held + data == data;
    }

    /** Nothing more can be built from the bytes at hand. */
    lemma Exhausted()
      requires Valid() && Waiting(builder) && |data| < Want(builder)
      ensures Reference() == Outcome(delivered, held + data, None)
    {
      NotYet(wide(handled), builder, held, data);
      SplitNeed(wide, received, delivered, held + data);
    }

    /** Reads once and builds all it can; the caller handles each cell before the next is begun. */
    method RecvCellAsync(more: bytes) returns (r: Result<seq<LinkCell>, LinkError>)
      requires Valid()
      modifies this
      ensures received == old(received) + more && old(delivered) <= delivered
      ensures r.Ok? ==> Valid() && delivered == old(delivered) + r.value
      ensures r.Ok? ==> Reference() == Outcome(delivered, held + data, None)
      ensures r.Err? ==> Broken(r.error)
    {
      Extend(more);
      AskNext();
      var cells: seq<LinkCell> := [];
      while |data| >= nextLen.value
        invariant Valid() && Waiting(builder) && received == old(received) + more
        invariant delivered == old(delivered) + cells
        decreases |data|
      {
        var built := FeedBuilder();
        if builder.Failed? {
          return Err(builder.error);
        }
        if built {
          var cell := TakeBuilt();
          cells := cells + [cell];
          AskNext();
        }
      }
      Exhausted();
      return Ok(cells);
    }

    /** The reader is never ahead of the writer, loses nothing, and with all bytes in has every cell. */
    lemma ReadsWhatWasWritten(cs: seq<LinkCell>, missing: bytes)
      requires Valid() && AllFit(wide, 0, cs)
      requires received + missing == SerializeAll(wide, 0, cs)
      ensures delivered <= ArrivedAll(wide, 0, cs)
      ensures missing == [] && Waiting(builder) && |data| < Want(builder) ==>
        delivered == ArrivedAll(wide, 0, cs) && held == [] && data == []
    {
      FrontOfWritten(wide, cs, received, missing);
      SplitFront(wide, received, delivered, held + data);
      if Waiting(builder) && |data| < Want(builder) {
        Exhausted();
      }
    }

    /** The first cell that the bytes at hand complete. */
    method BuildNext() returns (r: Result<Option<LinkCell>, LinkError>)
      requires Valid() && Waiting(builder)
      modifies this`data, this`nextLen, this`builder, this`held, this`spent, this`handled, this`delivered
      ensures |data| <= old(|data|) && (old(|data|) >= old(Want(builder)) ==> |data| < old(|data|))
      ensures r.Err? ==> Broken(r.error) && delivered == old(delivered)
      ensures r.Ok? ==> Valid()
      ensures r.Ok? && r.value.None? ==> Waiting(builder) && |data| < Want(builder) && delivered == old(delivered)
      ensures r.Ok? && r.value.Some? ==> delivered == old(delivered) + [r.value.value]
    {
      while |data| >= nextLen.value
        invariant Valid() && Waiting(builder) && delivered == old(delivered)
        invariant |data| < old(|data|) || (data == old(data) && builder == old(builder))
        decreases |data|
      {
        var built := FeedBuilder();
        if builder.Failed? {
          return Err(builder.error);
        }
        if built {
          var cell := TakeBuilt();
          return Ok(Some(cell));
        }
      }
      return Ok(None);
    }

    /**
     Reads until one cell is built, taking the next of `deliveries` only when
     the bytes at hand do not suffice; stops without a cell when `deliveries` has run out.
    */
    method RecvCell(deliveries: seq<bytes>) returns (r: Result<Option<LinkCell>, LinkError>, used: nat)
      requires Valid()
      modifies this
      ensures used <= |deliveries| && received == old(received) + Joined(deliveries[..used])
      ensures r.Ok? ==> Valid()
      ensures r.Ok? && r.value.Some? ==> delivered == old(delivered) + [r.value.value]
      ensures r.Ok? && r.value.None? ==> used == |deliveries| && delivered == old(delivered)
      ensures r.Ok? && r.value.None? ==> Reference() == Outcome(delivered, held + data, None)
      ensures r.Err? ==> Broken(r.error) && delivered == old(delivered)
    {
      used := 0;
      assert received == received + Joined(deliveries[..0]);
      while true
        invariant Valid() && used <= |deliveries| && delivered == old(delivered)
        invariant received == old(received) + Joined(deliveries[..used])
        decreases |deliveries| - used, |data|
      {
        AskNext();
        if |data| < nextLen.value {
          if used == |deliveries| {
            Exhausted();
            return Ok(None), used;
          }
          JoinedNext(deliveries, used);
          Assoc(old(received), Joined(deliveries[..used]), deliveries[used]);
          Extend(deliveries[used]);
          used := used + 1;
        }
        r := BuildNext();
        if r.Err? || r.value.Some? {
          return;
        }
      }
    }
  }

  function Joined(parts: seq<bytes>): (s: bytes) {
    if parts == [] then [] else Joined(parts[..|parts| - 1]) + parts[|parts| - 1]
  }

  lemma JoinedNext(parts: seq<bytes>, i: nat)
    requires i < |parts|
    ensures Joined(parts[..i + 1]) == Joined(parts[..i]) + parts[i]
  {
    assert parts[..i + 1][..i] == parts[..i];
  }
}
