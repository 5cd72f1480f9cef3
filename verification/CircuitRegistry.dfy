/** The guard's circuits: numbering, creation with retries, destruction. */
module CircuitRegistry {
  import opened Sequences
  import StreamInbox

  // ---- numbering ----

  const MSB: nat := 0x8000_0000

  /** The `k`-th id: `k | 0x80000000`. */
  function Id(k: nat): (id: nat)
    ensures id >= MSB
  {
    if (k / MSB) % 2 == 1 then k else k + MSB
  }

  /** A number put together from its bits above, at and below bit 31. */
  lemma Bits(x: nat, above: nat, bit: nat, below: nat)
    requires x == 0x1_0000_0000 * above + 0x8000_0000 * bit + below && bit <= 1 && below < 0x8000_0000
    ensures x / 0x1_0000_0000 == above && x / 0x8000_0000 % 2 == bit && x % 0x8000_0000 == below
  {
    assert x / 0x8000_0000 == 2 * above + bit;
  }

  lemma BitsOf(x: nat)
    ensures x == 0x1_0000_0000 * (x / 0x1_0000_0000) + 0x8000_0000 * (x / 0x8000_0000 % 2) + x % 0x8000_0000
  {
    var q := x / 0x8000_0000;
    assert q == 2 * (q / 2) + q % 2 && q / 2 == x / 0x1_0000_0000;
  }

  /** Bit 31 of an id is set, and every other bit is the counter's. */
  lemma IdBits(k: nat)
    ensures Id(k) / 0x8000_0000 % 2 == 1 && Id(k) % 0x8000_0000 == k % 0x8000_0000
    ensures Id(k) / 0x1_0000_0000 == k / 0x1_0000_0000
  {
    BitsOf(k);
    Bits(Id(k), k / 0x1_0000_0000, 1, k % 0x8000_0000);
  }

  /** Two ids are the same exactly when the counters differ at most in the bit that is forced. */
  lemma IdsCollide(a: nat, b: nat)
    ensures Id(a) == Id(b) <==> a % 0x8000_0000 == b % 0x8000_0000 && a / 0x1_0000_0000 == b / 0x1_0000_0000
  {
    IdBits(a);
    IdBits(b);
    BitsOf(Id(a));
    BitsOf(Id(b));
  }

  // ---- what the network answers ----

  /** What one handshake exchange came to; a truncation can only answer an extension. */
  datatype Reply = Answered | TimedOut | Truncation | Broken

  type Replies = nat -> Reply

  predicate Retryable(r: Reply) {
    r.TimedOut? || r.Truncation?
  }

  /** How many exchanges a circuit takes, which is how many hops it gets. */
  function Length(hops: int, extend: nat): (n: nat)
    ensures n > 0
  {
    (if hops < 1 then 1 else hops) + extend
  }

  /** The first of the exchanges `from..from + n` that fails. */
  function FirstFailure(replies: Replies, from: nat, n: nat): (i: Option<nat>)
    ensures i.Some? ==> from <= i.value < from + n && !replies(i.value).Answered?
    ensures forall k | from <= k < (if i.Some? then i.value else from + n) :: replies(k).Answered?
    decreases n
  {
    if n == 0 then None
    else if !replies(from).Answered? then Some(from)
    else FirstFailure(replies, from + 1, n - 1)
  }

  /** How many attempts, whether the last is good, the exchanges so far, and the attempts whose end the guard is told of. */
  datatype Plan = Plan(attempts: nat, ok: bool, asked: nat, told: seq<nat>)

  /** An attempt whose circuit stood when it was given up is one that the guard is told of. */
  function Told(replies: Replies, from: nat, i: nat, k: nat): (told: seq<nat>) {
    if i > from && !replies(i).Truncation? then [k] else []
  }

  /**
   Up to `left` attempts of `n` exchanges each, the first with exchange `from`; attempts are
   numbered from `k`.
  */
  function Attempts(replies: Replies, from: nat, n: nat, left: nat, k: nat): (p: Plan)
    requires n > 0 && left > 0
    decreases left
  {
    match FirstFailure(replies, from, n)
    case None => Plan(1, true, from + n, [])
    case Some(i) =>
      if Retryable(replies(i)) && left > 1 then
        After(1, Told(replies, from, i, k), Attempts(replies, i + 1, n, left - 1, k + 1))
      else Plan(1, false, i + 1, Told(replies, from, i, k))
  }

  /** What is planned, with what has been done before. */
  function After(done: nat, told: seq<nat>, p: Plan): (p': Plan) {
    Plan(done + p.attempts, p.ok, p.asked, told + p.told)
  }

  /** After `done` attempts, of which the guard was told of `told`, the rest of `whole` is still to come. */
  ghost predicate Goes(replies: Replies, from: nat, n: nat, left: nat, k: nat, done: nat, told: seq<nat>, whole: Plan)
    requires n > 0 && left > 0
  {
    forall l | Left(l, left) :: whole == After(done, told, Attempts(replies, from, n, l, k))
  }

  ghost predicate Left(l: nat, left: nat) {
    l == left && l > 0
  }

  lemma GoesOn(replies: Replies, from: nat, n: nat, left: nat, k: nat, done: nat, told: seq<nat>, whole: Plan)
    requires n > 0 && left > 0 && Goes(replies, from, n, left, k, done, told, whole)
    ensures match FirstFailure(replies, from, n)
            case None => whole == Plan(done + 1, true, from + n, told)
            case Some(i) =>
              var told' := told + Told(replies, from, i, k);
              if Retryable(replies(i)) && left > 1 then Goes(replies, i + 1, n, left - 1, k + 1, done + 1, told', whole)
              else whole == Plan(done + 1, false, i + 1, told')
  {
    assert Left(left, left);
    match FirstFailure(replies, from, n)
    case None =>
      assert told + [] == told;
    case Some(i) =>
      if Retryable(replies(i)) && left > 1 {
        var p, t := Attempts(replies, i + 1, n, left - 1, k + 1), Told(replies, from, i, k);
        assert told + (t + p.told) == told + t + p.told;
      }
  }

  /** How many of the exchanges `from..from + n` failed. */
  function Failures(replies: Replies, from: nat, n: nat): (f: nat)
    decreases n
  {
    if n == 0 then 0 else (if replies(from).Answered? then 0 else 1) + Failures(replies, from + 1, n - 1)
  }

  lemma {:induction false} FailuresSplit(replies: Replies, from: nat, n: nat, m: nat)
    ensures Failures(replies, from, n + m) == Failures(replies, from, n) + Failures(replies, from + n, m)
    decreases n
  {
    if n > 0 {
      FailuresSplit(replies, from + 1, n - 1, m);
    }
  }

  lemma {:induction false} NoFailures(replies: Replies, from: nat, n: nat)
    requires forall k | from <= k < from + n :: replies(k).Answered?
    ensures Failures(replies, from, n) == 0
    decreases n
  {
    if n > 0 {
      NoFailures(replies, from + 1, n - 1);
    }
  }

  lemma OneFailure(replies: Replies, from: nat, i: nat)
    requires from <= i && !replies(i).Answered? && forall k | from <= k < i :: replies(k).Answered?
    ensures Failures(replies, from, i + 1 - from) == 1
  {
    NoFailures(replies, from, i - from);
    FailuresSplit(replies, from, i - from, 1);
    assert Failures(replies, i + 1, 0) == 0;
  }

  /** Every attempt but a last successful one is ended by one failure. */
  lemma {:induction false} AttemptsCount(replies: Replies, from: nat, n: nat, left: nat, k: nat)
    requires n > 0 && left > 0
    ensures var p := Attempts(replies, from, n, left, k);
            && 0 < p.attempts <= left && p.asked > from
            && Failures(replies, from, p.asked - from) == (if p.ok then p.attempts - 1 else p.attempts)
    decreases left
  {
    match FirstFailure(replies, from, n)
    case None =>
      NoFailures(replies, from, n);
    case Some(i) =>
      OneFailure(replies, from, i);
      if Retryable(replies(i)) && left > 1 {
        AttemptsCount(replies, i + 1, n, left - 1, k + 1);
        var p := Attempts(replies, i + 1, n, left - 1, k + 1);
        FailuresSplit(replies, from, i + 1 - from, p.asked - (i + 1));
      }
  }

  /**
   Success comes by a whole block of answered exchanges, and failure by an exchange that broke down
   or by the last attempt allowed; what failed before was timed out or truncated.
  */
  lemma {:induction false} AttemptsEnd(replies: Replies, from: nat, n: nat, left: nat, k: nat)
    requires n > 0 && left > 0
    ensures var p := Attempts(replies, from, n, left, k);
            && p.asked > from
            && (forall i | from <= i < p.asked - 1 :: !replies(i).Broken?)
            && (if p.ok then p.asked >= from + n && forall i | p.asked - n <= i < p.asked :: replies(i).Answered?
                else !replies(p.asked - 1).Answered? && (replies(p.asked - 1).Broken? || p.attempts == left))
    decreases left
  {
    var f := FirstFailure(replies, from, n);
    if f.Some? && Retryable(replies(f.value)) && left > 1 {
      AttemptsEnd(replies, f.value + 1, n, left - 1, k + 1);
    }
  }

  lemma AttemptsGivenUp(replies: Replies, from: nat, n: nat, k: nat)
    requires n > 0
    ensures var p := Attempts(replies, from, n, ATTEMPTS, k);
            && p.attempts <= 3 && p.asked > 0
            && (!p.ok && p.attempts < 3 ==> replies(p.asked - 1).Broken?)
  {
    AttemptsEnd(replies, from, n, ATTEMPTS, k);
    AttemptsCount(replies, from, n, ATTEMPTS, k);
  }

  /**
   What one failed exchange means for an attempt with others left: a timeout or a truncation brings
   on the next attempt, right behind it, and anything else ends the matter. The guard is told of the
   circuit if it had a hop and was not truncated.
  */
  lemma WhatIsRetried(replies: Replies, from: nat, n: nat, left: nat, k: nat, i: nat)
    requires from <= i < from + n && left > 1
    requires forall j | from <= j < i :: replies(j).Answered?
    requires !replies(i).Answered?
    ensures var p, told := Attempts(replies, from, n, left, k), if i > from && !replies(i).Truncation? then [k] else [];
            if replies(i).Broken? then p == Plan(1, false, i + 1, told)
            else
              var q := Attempts(replies, i + 1, n, left - 1, k + 1);
              p == Plan(1 + q.attempts, q.ok, q.asked, told + q.told)
  {
    var f := FirstFailure(replies, from, n);
    assert f == Some(i);
  }

  // ---- circuits ----

  datatype CircuitState = Unknown | Connecting | Connected | Truncated | Destroyed

  // ---- the streams of a circuit ----

  datatype Stream = Stream(id: nat, state: StreamInbox.StreamState)

  predicate Distinct(ss: seq<Stream>) {
    forall i, j | 0 <= i < j < |ss| :: ss[i].id != ss[j].id
  }

  /** A list of streams, in the order in which they were created. */
  type Streams = ss: seq<Stream> | Distinct(ss)

  function Without(ss: seq<Stream>, id: nat): (rest: seq<Stream>) {
    if ss == [] then [] else (if ss[0].id == id then [] else [ss[0]]) + Without(ss[1..], id)
  }

  /** What closing every stream leaves in the list: those that were closed already, which stay. */
  function Staying(ss: seq<Stream>): (rest: seq<Stream>) {
    if ss == [] then []
    else
      var n := |ss| - 1;
      Staying(ss[..n]) + (if ss[n].state.Closed? then [ss[n]] else [])
  }

  /** The streams whose far end is told, in order: those that are connected. */
  function Ending(ss: seq<Stream>): (ids: seq<nat>) {
    if ss == [] then []
    else
      var n := |ss| - 1;
      Ending(ss[..n]) + (if ss[n].state.Connected? then [ss[n].id] else [])
  }

  lemma {:induction false} StayingIn(ss: seq<Stream>)
    requires Distinct(ss)
    ensures Distinct(Staying(ss)) && forall x | x in Staying(ss) :: x in ss && x.state.Closed?
  {
    if ss != [] {
      StayingIn(ss[..|ss| - 1]);
    }
  }

  lemma {:induction false} EndingParts(a: seq<Stream>, b: seq<Stream>)
    ensures Ending(a + b) == Ending(a) + Ending(b) && Staying(a + b) == Staying(a) + Staying(b)
  {
    if b == [] {
      assert a + b == a && Ending(a) + [] == Ending(a) && Staying(a) + [] == Staying(a);
    } else {
      var n, all := |b| - 1, a + b;
      assert all[..|all| - 1] == a + b[..n];
      EndingParts(a, b[..n]);
    }
  }

  /**
   What closing a list of streams does to one of them: it stays only if it was closed already, and
   its far end is told, in its turn, only if it was connected.
  */
  lemma EndingTurn(a: seq<Stream>, x: Stream, b: seq<Stream>)
    ensures Staying(a + [x] + b) == Staying(a) + (if x.state.Closed? then [x] else []) + Staying(b)
    ensures Ending(a + [x] + b) == Ending(a) + (if x.state.Connected? then [x.id] else []) + Ending(b)
    ensures Staying([]) == [] && Ending([]) == []
  {
    EndingParts(a + [x], b);
    EndingParts(a, [x]);
    assert [x][..0] == [] && Ending([x]) == (if x.state.Connected? then [x.id] else []);
  }

  lemma {:induction false} WithoutNone(ss: seq<Stream>, id: nat)
    requires forall x | x in ss :: x.id != id
    ensures Without(ss, id) == ss
  {
    if ss != [] {
      WithoutNone(ss[1..], id);
    }
  }

  lemma {:induction false} WithoutMiddle(a: seq<Stream>, x: Stream, b: seq<Stream>)
    requires forall y | y in a || y in b :: y.id != x.id
    ensures Without(a + [x] + b, x.id) == a + b
  {
    var all := a + [x] + b;
    if a == [] {
      assert all[1..] == b;
      WithoutNone(b, x.id);
    } else {
      assert all[0] == a[0] && all[1..] == a[1..] + [x] + b;
      WithoutMiddle(a[1..], x, b);
    }
  }

  lemma {:induction false} WithoutDistinct(ss: seq<Stream>, id: nat)
    requires Distinct(ss)
    ensures Distinct(Without(ss, id)) && forall x | x in Without(ss, id) :: x in ss
  {
    if ss != [] {
      var rest := Without(ss[1..], id);
      assert Distinct(ss[1..]);
      WithoutDistinct(ss[1..], id);
      forall j | 0 <= j < |rest|
        ensures rest[j].id != ss[0].id
      {
        assert rest[j] in rest;
        var k :| 0 <= k < |ss[1..]| && ss[1..][k] == rest[j];
        assert ss[k + 1] == rest[j];
      }
    }
  }

  /** One more stream of `all` closed: what is in the list then. */
  lemma ClosesNext(all: seq<Stream>, i: nat)
    requires Distinct(all) && i < |all|
    ensures var now, x := Staying(all[..i]) + all[i..], all[i];
            && Staying(all[..i + 1]) + all[i + 1..] == (if x.state.Closed? then now else Without(now, x.id))
            && Distinct(Staying(all[..i + 1]) + all[i + 1..])
  {
    var x, b := all[i], all[i + 1..];
    assert all[..i + 1][..i] == all[..i] && all[i..] == [x] + b;
    StayingIn(all[..i]);
    StayingIn(all[..i + 1]);
    Assoc(Staying(all[..i]), [x], b);
    if !x.state.Closed? {
      WithoutMiddle(Staying(all[..i]), x, b);
    }
  }

  class CircuitEntry {
    const id: nat
    var state: CircuitState
    var nodes: nat
    var streams: Streams
    var ends: seq<nat>                    // the streams in the END cells sent

    constructor (id: nat)
      ensures this.id == id && state == Unknown && nodes == 0 && streams == [] && ends == []
    {
      this.id, state, nodes, streams, ends := id, Unknown, 0, [], [];
    }

    /** The streams and the END cells once the circuit is destroyed: a circuit that stands closes its streams first. */
    function Final(): (r: (seq<Stream>, seq<nat>))
      reads this
    {
      if state == Connected then (Staying(streams), ends + Ending(streams)) else (streams, ends)
    }

    /** A stream that is closed already is passed over, and stays in the list. */
    method CloseStream(x: Stream)
      modifies this`streams, this`ends
      ensures streams == if x.state.Closed? then old(streams) else Without(old(streams), x.id)
      ensures ends == old(ends) + (if x.state.Connected? then [x.id] else [])
    {
      if x.state.Closed? {
        return;
      }
      if x.state.Connected? {
        ends := ends + [x.id];
      }
      WithoutDistinct(streams, x.id);
      streams := Without(streams, x.id);
    }

    /** Over a copy of the list, since closing takes streams out of it. */
    method CloseAllStreams()
      modifies this`streams, this`ends
      ensures streams == Staying(old(streams)) && ends == old(ends) + Ending(old(streams))
    {
      var all := streams;
      assert all[..0] == [] && [] + all == all && ends + [] == ends;
      for i := 0 to |all|
        invariant streams == Staying(all[..i]) + all[i..] && ends == old(ends) + Ending(all[..i])
      {
        ClosesNext(all, i);
        assert all[..i + 1][..i] == all[..i];
        CloseStream(all[i]);
        Assoc(old(ends), Ending(all[..i]), if all[i].state.Connected? then [all[i].id] else []);
      }
      assert all[..|all|] == all && Staying(all) + [] == Staying(all);
    }

    /** False, and no change, for a circuit that was never begun. */
    method Destroy(sendDestroy: bool) returns (ok: bool, sent: bool)
      modifies this
      ensures ok <==> old(state) != Unknown
      ensures sent <==> old(state) == Connected && sendDestroy
      ensures state == (if ok then Destroyed else Unknown) && nodes == old(nodes)
      ensures (streams, ends) == old(Final()) == Final()
      ensures old(state) == Connected ==> streams == Staying(old(streams)) && ends == old(ends) + Ending(old(streams))
      ensures old(state) != Connected ==> streams == old(streams) && ends == old(ends)
    {
      if state == Unknown {
        return false, false;
      }
      if state == Destroyed {
        return true, false;
      }
      sent := state == Connected && sendDestroy;
      if state == Connected {
        CloseAllStreams();
      }
      state := Destroyed;
      ok := true;
    }
  }

  class TorGuard {
    const replies: Replies
    var connected: bool
    var counter: nat                      // ids issued so far, with no other guard drawing any meanwhile
    var circuits: map<nat, CircuitEntry>
    var asked: nat                        // exchanges so far
    var destroys: seq<nat>                // ids in the DESTROY cells sent

    /** Every circuit stands under its own id, which is not above the last one issued, and was begun. */
    ghost predicate Valid()
      reads this, circuits.Values
    {
      && (forall id | id in circuits :: circuits[id].id == id && circuits[id].state != Unknown)
      && (forall id | id in circuits :: id <= MSB + counter)
    }

    constructor (replies: Replies)
      ensures Valid() && circuits == map[] && this.replies == replies && connected
    {
      this.replies, connected, counter, circuits, asked, destroys := replies, true, 0, map[], 0, [];
    }

    /** The registry's part in creating a circuit: below the forced bit, an id that no circuit has. */
    method CreateNew() returns (c: CircuitEntry)
      requires Valid() && counter + 1 < MSB
      modifies this`counter
      ensures fresh(c) && c.id == Id(counter) == MSB + counter && c.state == Unknown && c.nodes == 0
      ensures c.streams == [] && c.ends == []
      ensures counter == old(counter) + 1 && c.id !in circuits
    {
      counter := counter + 1;
      IdBits(counter);
      BitsOf(Id(counter));
      c := new CircuitEntry(Id(counter));
    }

    /** One handshake exchange: it adds a hop, or it fails. */
    method Exchange(c: CircuitEntry) returns (r: Reply)
      modifies this`asked, c`state, c`nodes
      ensures asked == old(asked) + 1 && r == replies(old(asked))
      ensures c.nodes == (if r.Answered? then old(c.nodes) + 1 else old(c.nodes))
      ensures c.state == match old(c.state)
                         case Unknown => if r.Answered? then Connected else Connecting
                         case s => if r.Truncation? then Truncated else s
    {
      r := replies(asked);
      asked := asked + 1;
      if c.state == Unknown {
        c.state := Connecting;
        if r.Answered? {
          c.nodes := c.nodes + 1;
          c.state := Connected;
        }
      } else if r.Answered? {
        c.nodes := c.nodes + 1;
      } else if r.Truncation? {
        c.state := Truncated;
      }
    }

    /** The exchanges from `from` on were all answered, and what comes of all `n` is decided by the others. */
    ghost predicate Standing(c: CircuitEntry, from: nat, n: nat)
      reads this, c
    {
      && c.state == Connected && 0 < c.nodes <= n && asked == from + c.nodes
      && FirstFailure(replies, from, n) == FirstFailure(replies, asked, n - c.nodes)
    }

    method Extend(c: CircuitEntry, ghost from: nat, ghost n: nat) returns (failure: Option<Reply>)
      requires Standing(c, from, n) && c.nodes < n
      modifies this`asked, c`state, c`nodes
      ensures failure.None? ==> Standing(c, from, n) && c.nodes == old(c.nodes) + 1
      ensures failure.Some? ==> FirstFailure(replies, from, n) == Some(old(asked))
      ensures failure.Some? ==> failure.value == replies(old(asked)) && asked == old(asked) + 1
      ensures failure.Some? ==> c.state == if failure.value.Truncation? then Truncated else Connected
    {
      var r := Exchange(c);
      return if r.Answered? then None else Some(r);
    }

    /** The hops of one circuit, the first by creation and the others by extension. */
    method Build(c: CircuitEntry, hops: int, extend: nat) returns (failure: Option<Reply>)
      requires c.state == Unknown && c.nodes == 0
      modifies this`asked, c`state, c`nodes
      ensures var n, from := Length(hops, extend), old(asked);
              match FirstFailure(replies, from, n)
              case None => failure == None && asked == from + n && c.state == Connected && c.nodes == n
              case Some(i) =>
                && failure == Some(replies(i)) && asked == i + 1
                && c.state == if i == from then Connecting else if replies(i).Truncation? then Truncated else Connected
    {
      ghost var n, from := Length(hops, extend), asked;
      var r := Exchange(c);
      if !r.Answered? {
        return Some(r);
      }
      while c.nodes < hops
        invariant Standing(c, from, n) && c.nodes <= n - extend && (hops > c.nodes || c.nodes == n - extend)
        decreases hops - c.nodes
      {
        failure := Extend(c, from, n);
        if failure.Some? {
          return;
        }
      }
      for i := 0 to extend
        invariant Standing(c, from, n) && c.nodes == n - extend + i
      {
        failure := Extend(c, from, n);
        if failure.Some? {
          return;
        }
      }
      return None;
    }

    /** Destroys a circuit, telling the guard if the circuit stands, and forgets it. */
    method DestroyCircuit(c: CircuitEntry, sendDestroy: bool)
      requires c.state != Unknown
      modifies this`circuits, this`destroys, c
      ensures c.state == Destroyed && c.nodes == old(c.nodes) && circuits == old(circuits) - {c.id}
      ensures (c.streams, c.ends) == old(c.Final()) == c.Final()
      ensures old(c.state) == Connected ==>
        c.streams == Staying(old(c.streams)) && c.ends == old(c.ends) + Ending(old(c.streams))
      ensures destroys == old(destroys) + (if old(c.state) == Connected && sendDestroy then [c.id] else [])
    {
      var _, sent := c.Destroy(sendDestroy);
      if sent {
        destroys := destroys + [c.id];
      }
      circuits := circuits - {c.id};
    }

    /** One attempt. A circuit that fails is destroyed, and the registry is as it was. */
    method Attempt(hops: int, extend: nat) returns (c: CircuitEntry, failure: Option<Reply>)
      requires Valid() && counter + 1 < MSB
      modifies this`counter, this`circuits, this`asked, this`destroys
      ensures Valid() && fresh(c) && counter == old(counter) + 1 && c.id == MSB + counter && c.id !in old(circuits)
      ensures var n, from := Length(hops, extend), old(asked);
              match FirstFailure(replies, from, n)
              case None => failure == None && asked == from + n && c.state == Connected && c.nodes == n
                && circuits == old(circuits)[c.id := c] && destroys == old(destroys)
              case Some(i) =>
                && failure == Some(replies(i)) && asked == i + 1 && c.state == Destroyed
                && circuits == old(circuits)
                && destroys == old(destroys) + Ids(Told(replies, from, i, counter))
    {
      c := CreateNew();
      circuits := circuits[c.id := c];
      failure := Build(c, hops, extend);
      if failure.Some? {
        DestroyCircuit(c, true);
        assert circuits == old(circuits);
      }
    }

    /** The circuits of the attempts since `counter` was `k`: ids in order, and all destroyed but a last good one. */
    ghost predicate Outcomes(attempted: seq<CircuitEntry>, k: nat, ok: bool)
      reads attempted
    {
      forall i | 0 <= i < |attempted| ::
        attempted[i].id == MSB + k + 1 + i && ((ok && i == |attempted| - 1) || attempted[i].state == Destroyed)
    }

    /** All that the attempts of a plan leave behind besides their circuits. */
    ghost predicate Accounts(p: Plan, k: nat, before: seq<nat>)
      reads this
    {
      asked == p.asked && counter == k + p.attempts && destroys == before + Ids(p.told)
    }

    /** With `left` attempts left of `times`, what is done so far and what is to come make up the plan. */
    ghost predicate Trying(times: nat, left: nat, n: nat, k: nat, told: seq<nat>, plan: Plan, before: seq<nat>)
      requires n > 0 && left > 0
      reads this
    {
      && left <= times && counter == k + times - left && destroys == before + Ids(told)
      && Goes(replies, asked, n, left, counter + 1, times - left, told, plan)
    }

    lemma StartsTrying(times: nat, n: nat, plan: Plan)
      requires n > 0 && times > 0 && plan == Attempts(replies, asked, n, times, counter + 1)
      ensures Trying(times, times, n, counter, [], plan, destroys)
    {
      assert [] + plan.told == plan.told && destroys + Ids([]) == destroys;
    }

    method TryOnce(hops: int, extend: nat, ghost times: nat, left: nat,
                   ghost k: nat, ghost told: seq<nat>, ghost plan: Plan, ghost before: seq<nat>)
      returns (c: CircuitEntry, again: bool, good: bool, ghost told': seq<nat>)
      requires Valid() && counter + 1 < MSB && left > 0
      requires Trying(times, left, Length(hops, extend), k, told, plan, before)
      modifies this`counter, this`circuits, this`asked, this`destroys
      ensures Valid() && fresh(c) && c.id == MSB + counter && counter == old(counter) + 1 && c.id !in old(circuits)
      ensures again ==> left > 1 && !good && Trying(times, left - 1, Length(hops, extend), k, told', plan, before)
      ensures !again ==> Accounts(plan, k, before) && plan.ok == good && plan.attempts == times - left + 1
      ensures good ==> c.state == Connected && c.nodes == Length(hops, extend) && circuits == old(circuits)[c.id := c]
      ensures !good ==> c.state == Destroyed && circuits == old(circuits)
    {
      ghost var now := asked;
      GoesOn(replies, asked, Length(hops, extend), left, counter + 1, times - left, told, plan);
      var failure;
      c, failure := Attempt(hops, extend);
      good := failure.None?;
      again := failure.Some? && Retryable(failure.value) && left > 1;
      told' := told;
      if !good {
        ghost var t := Told(replies, now, asked - 1, counter);
        IdsAppend(before, told, t);
        told' := told + t;
      }
    }

    /**
     Up to `times` attempts. On success there is exactly one circuit more, connected and of the
     full length; on failure the registry is as it was. Every circuit given up is destroyed.
    */
    method Retry(times: nat, hops: int, extend: nat) returns (r: Option<CircuitEntry>, ghost attempted: seq<CircuitEntry>)
      requires Valid() && times > 0 && counter + times < MSB
      modifies this`counter, this`circuits, this`asked, this`destroys
      ensures Valid()
      ensures var p := Attempts(replies, old(asked), Length(hops, extend), times, old(counter) + 1);
              (r.Some? <==> p.ok) && |attempted| == p.attempts && Accounts(p, old(counter), old(destroys))
      ensures Outcomes(attempted, old(counter), r.Some?) && forall c | c in attempted :: fresh(c)
      ensures r.None? ==> circuits == old(circuits)
      ensures r.Some? ==> attempted != [] && r.value == attempted[|attempted| - 1] && r.value.id !in old(circuits)
      ensures r.Some? ==> r.value.state == Connected && r.value.nodes == Length(hops, extend)
      ensures r.Some? ==> circuits == old(circuits)[r.value.id := r.value]
    {
      attempted := [];
      ghost var n, k, told, before := Length(hops, extend), counter, [], destroys;
      ghost var plan := Attempts(replies, asked, n, times, k + 1);
      StartsTrying(times, n, plan);
      var left := times;
      while true
        invariant Valid() && left > 0 && Trying(times, left, n, k, told, plan, before) && circuits == old(circuits)
        invariant |attempted| == times - left && Outcomes(attempted, k, false) && forall c | c in attempted :: fresh(c)
        decreases left
      {
        var c, again, good;
        c, again, good, told := TryOnce(hops, extend, times, left, k, told, plan, before);
        attempted := attempted + [c];
        if !again {
          return if good then Some(c) else None, attempted;
        }
        left := left - 1;
      }
    }

    /**
     A guard that is not connected makes no attempt. A connected one makes three at the most, and
     makes fewer without success only when an exchange broke down.
    */
    method CreateCircuit(hops: int, extend: nat) returns (r: Option<CircuitEntry>, ghost attempted: seq<CircuitEntry>)
      requires Valid() && counter + ATTEMPTS < MSB
      modifies this`counter, this`circuits, this`asked, this`destroys
      ensures Valid()
      ensures !connected ==> r == None && attempted == [] && asked == old(asked) && counter == old(counter)
      ensures connected ==>
        var p := Attempts(replies, old(asked), Length(hops, extend), ATTEMPTS, old(counter) + 1);
        (r.Some? <==> p.ok) && |attempted| == p.attempts && Accounts(p, old(counter), old(destroys))
      ensures |attempted| <= 3 && (connected && r.None? && |attempted| < 3 ==> asked > 0 && replies(asked - 1).Broken?)
      ensures Outcomes(attempted, old(counter), r.Some?) && forall c | c in attempted :: fresh(c)
      ensures r.None? ==> circuits == old(circuits)
      ensures r.Some? ==> attempted != [] && r.value == attempted[|attempted| - 1] && r.value.id !in old(circuits)
      ensures r.Some? ==> r.value.state == Connected && r.value.nodes == (if hops < 1 then 1 else hops) + extend
      ensures r.Some? ==> circuits == old(circuits)[r.value.id := r.value]
    {
      if !connected {
        return None, [];
      }
      AttemptsGivenUp(replies, asked, Length(hops, extend), counter + 1);
      r, attempted := Retry(ATTEMPTS, hops, extend);
    }

    /** A DESTROY cell from the guard: the circuit goes, and the guard is not told what it said itself. */
    method OnDestroy(id: nat) returns (found: bool)
      requires Valid()
      modifies this`circuits, this`destroys, circuits.Values
      ensures Valid() && destroys == old(destroys) && circuits == old(circuits) - {id}
      ensures found <==> id in old(circuits)
      ensures found ==> old(circuits)[id].state == Destroyed
      ensures found ==> (old(circuits)[id].streams, old(circuits)[id].ends) == old(circuits[id].Final())
      ensures forall k | k in circuits :: unchanged(circuits[k])
    {
      found := id in circuits;
      if found {
        DestroyCircuit(circuits[id], false);
        assert destroys == old(destroys) + [];
      } else {
        assert circuits == circuits - {id};
      }
    }

    ghost function Finals(): (f: map<nat, (seq<Stream>, seq<nat>)>)
      reads this, circuits.Values
    {
      map id | id in circuits :: circuits[id].Final()
    }

    /**
     Of the circuits `all`, those that are left are as they were; of the others the guard was told of
     those in `standing`. The streams of all of them are, or will be, as `finals` says.
    */
    ghost predicate Closing(all: map<nat, CircuitEntry>, standing: set<nat>, finals: map<nat, (seq<Stream>, seq<nat>)>,
                            before: seq<nat>, told: seq<nat>)
      reads this, all.Values, circuits.Values
    {
      && circuits.Keys <= all.Keys && destroys == before + told && Once(told, standing - circuits.Keys)
      && (forall id | id in circuits :: circuits[id] == all[id] && (id in standing <==> circuits[id].state == Connected))
      && (forall id | id in all && id !in circuits :: all[id].state == Destroyed)
      && (forall id | id in all :: all[id].id == id && id in finals && all[id].Final() == finals[id])
    }

    method DestroyNext(ghost all: map<nat, CircuitEntry>, ghost standing: set<nat>,
                       ghost finals: map<nat, (seq<Stream>, seq<nat>)>, ghost before: seq<nat>, ghost told: seq<nat>)
      returns (ghost told': seq<nat>)
      requires Valid() && circuits != map[] && Closing(all, standing, finals, before, told)
      modifies this`circuits, this`destroys, circuits.Values
      ensures Valid() && Closing(all, standing, finals, before, told')
      ensures circuits.Keys < old(circuits.Keys) && circuits.Values <= old(circuits.Values) && |circuits| < |old(circuits)|
    {
      var id :| id in circuits;
      OnceMore(told, standing, circuits.Keys, id);
      told' := told + (if id in standing then [id] else []);
      assert before + told' == destroys + (if id in standing then [id] else []);
      ghost var c := circuits[id];
      assert forall k | k in all && k != id :: all[k] != c;
      DestroyCircuit(circuits[id], true);
      assert circuits.Keys == old(circuits.Keys) - {id};
      assert forall k | k in all && k != id :: all[k].Final() == old(all[k].Final());
    }

    lemma ClosingStarts()
      requires Valid()
      ensures Closing(circuits, Connecteds(), Finals(), destroys, [])
    {
      assert Connecteds() - circuits.Keys == {} && destroys == destroys + [];
    }

    lemma ClosingEnds(all: map<nat, CircuitEntry>, standing: set<nat>, finals: map<nat, (seq<Stream>, seq<nat>)>,
                      before: seq<nat>, told: seq<nat>)
      requires Closing(all, standing, finals, before, told) && circuits == map[]
      ensures forall id | id in all ::
        id in finals && all[id].state == Destroyed && (all[id].streams, all[id].ends) == finals[id]
      ensures destroys == before + told && Once(told, standing)
    {
      assert standing - {} == standing;
    }

    /** Closing the guard destroys every circuit, and tells it, once each, of exactly those that stand. */
    method DestroyAll()
      requires Valid()
      modifies this`circuits, this`destroys, circuits.Values
      ensures Valid() && circuits == map[]
      ensures forall id | id in old(circuits) ::
        var c := old(circuits)[id]; c.state == Destroyed && (c.streams, c.ends) == old(Finals())[id]
      ensures exists told :: destroys == old(destroys) + told && Once(told, old(Connecteds()))
    {
      ghost var all, before, told, standing, finals := circuits, destroys, [], Connecteds(), Finals();
      ClosingStarts();
      while circuits != map[]
        invariant Valid() && Closing(all, standing, finals, before, told) && circuits.Values <= all.Values
        decreases |circuits|
      {
        told := DestroyNext(all, standing, finals, before, told);
      }
      ClosingEnds(all, standing, finals, before, told);
    }

    ghost function Connecteds(): (ids: set<nat>)
      reads this, circuits.Values
    {
      set id | id in circuits && circuits[id].state == Connected
    }
  }

  /** Every one of `ids`, once, in some order. */
  ghost predicate Once(told: seq<nat>, ids: set<nat>) {
    (forall id :: id in told <==> id in ids) && forall i, j | 0 <= i < j < |told| :: told[i] != told[j]
  }

  lemma OnceMore(told: seq<nat>, standing: set<nat>, todo: set<nat>, id: nat)
    requires Once(told, standing - todo) && id in todo
    ensures Once(told + (if id in standing then [id] else []), standing - (todo - {id}))
  {
  }

  const ATTEMPTS: nat := 3

  function Ids(ks: seq<nat>): (ids: seq<nat>) {
    seq(|ks|, i requires 0 <= i < |ks| => MSB + ks[i])
  }

  lemma IdsAppend(before: seq<nat>, a: seq<nat>, b: seq<nat>)
    ensures before + Ids(a) + Ids(b) == before + Ids(a + b)
  {
  }
}
