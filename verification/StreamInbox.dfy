/** A stream's receive buffer in buffer mode: the receiver thread fills it, one reader empties it. */
module StreamInbox {
  import opened Sequences
  import opened Bytes

  datatype StreamState = Closed | Connecting | Connected | Disconnected

  datatype Inbox = Inbox(state: StreamState, buffer: bytes, hasData: bool)

  // ---- the operations, each under the locks that it takes ----

  function Appended(i: Inbox, data: bytes): (i': Inbox) {
    if i.state.Closed? then i else i.(buffer := i.buffer + data, hasData := true)
  }

  function Ended(i: Inbox): (i': Inbox) {
    i.(state := if i.state.Connected? then Disconnected else i.state, hasData := true)
  }

  /** How much a read takes: all for -1, otherwise what the slice with the smaller bound gives. */
  function ToRead(i: Inbox, bufsize: int): (n: nat)
    ensures n <= |i.buffer|
  {
    if bufsize == -1 then |i.buffer|
    else Bound(if bufsize < |i.buffer| then bufsize else |i.buffer|, |i.buffer|)
  }

  function Taken(i: Inbox, bufsize: int): (r: (Inbox, bytes)) {
    var n := ToRead(i, bufsize);
    var rest := i.buffer[n..];
    (i.(buffer := rest, hasData := i.hasData && (rest != [] || i.state.Disconnected?)), i.buffer[..n])
  }

  /**
   What a read takes: everything for -1, the first bytes up to its size for a size that is not
   negative, and for any other size all but as many bytes from the end. The rest stays, in order.
  */
  lemma TakenIs(i: Inbox, bufsize: int)
    ensures var (rest, data) := Taken(i, bufsize);
            && i.buffer == data + rest.buffer && rest.state == i.state
            && (bufsize == -1 ==> rest.buffer == [])
            && (bufsize >= 0 ==> |data| <= bufsize && (|data| < bufsize ==> rest.buffer == []))
            && (bufsize < -1 ==> |rest.buffer| <= -bufsize && (|rest.buffer| < -bufsize ==> data == []))
  {
  }

  class StreamBuffer {
    var state: StreamState
    var buffer: bytes
    var hasData: bool

    function Now(): (i: Inbox)
      reads this
    {
      Inbox(state, buffer, hasData)
    }

    constructor ()
      ensures Now() == Inbox(Closed, [], false)
    {
      state, buffer, hasData := Closed, [], false;
    }

    method Append(data: bytes)
      modifies this
      ensures Now() == Appended(old(Now()), data)
    {
      if state == Closed {
        return;
      }
      buffer := buffer + data;
      hasData := true;
    }

    method End()
      modifies this
      ensures Now() == Ended(old(Now()))
    {
      if state == Connected {
        state := Disconnected;
      }
      hasData := true;
    }

    /** The part of a read that holds the data lock. */
    method Take(bufsize: int) returns (result: bytes)
      modifies this
      ensures (Now(), result) == Taken(old(Now()), bufsize)
      ensures old(buffer) == result + buffer && state == old(state)
      ensures bufsize == -1 ==> buffer == []
      ensures bufsize >= 0 ==> |result| <= bufsize && (|result| < bufsize ==> buffer == [])
    {
      var n: int;
      if bufsize == -1 {
        n := |buffer|;
      } else {
        n := if bufsize < |buffer| then bufsize else |buffer|;
      }
      var to := Bound(n, |buffer|);
      result := buffer[..to];
      buffer := buffer[to..];
      if buffer == [] && state != Disconnected {
        hasData := false;
      }
    }
  }

  // ---- the receiver, the reader and the closer, step by step ----

  /** Where the reader is inside `recv`. */
  datatype Reader =
    | Idle
    | Waiting(bufsize: int)     // for the event
    | Woken(bufsize: int)       // about to look at the state
    | Drained(bufsize: int)     // has seen the stream disconnected, about to look at the buffer
    | Taking(bufsize: int)      // about to take the lock

  datatype Outcome = Data(data: bytes) | Raised

  /**
   `accepted` and `returned` are the bytes that went in and came out; `ended` tells that an END was
   handled, `blank` that a data cell without data was accepted.
  */
  datatype State = State(inbox: Inbox, reader: Reader, accepted: bytes, returned: bytes, ended: bool, blank: bool)
  {
    /** Something was announced that is not in the buffer. */
    predicate Told() { ended || blank }
  }

  datatype Event =
    | Connect | Confirm | Append(data: bytes) | End | Close
    | Recv(bufsize: int) | Timeout | Wake | LookState | LookBuffer | Take

  const INITIAL: State := State(Inbox(Closed, [], false), Idle, [], [], false, false)

  predicate Enabled(s: State, e: Event) {
    match e
    case Connect => s.inbox.state.Closed?
    case Confirm => true
    case Append(_) => true
    case End => true
    case Close => true
    case Recv(_) => s.reader.Idle?
    case Timeout => s.reader.Waiting?
    case Wake => s.reader.Waiting? && s.inbox.hasData
    case LookState => s.reader.Woken?
    case LookBuffer => s.reader.Drained?
    case Take => s.reader.Taking?
  }

  /** The next state, and what `recv` hands to its caller if it returns in this step. */
  function Step(s: State, e: Event): (r: (State, Option<Outcome>))
    requires Enabled(s, e)
  {
    match e
    case Connect => (s.(inbox := s.inbox.(state := Connecting)), None)
    case Confirm => (s.(inbox := s.inbox.(state := Connected)), None)
    case Append(data) =>
      if s.inbox.state.Closed? then (s, None)
      else
        (s.(inbox := Appended(s.inbox, data), accepted := s.accepted + data, blank := s.blank || data == []), None)
    case End => (s.(inbox := Ended(s.inbox), ended := true), None)
    case Close => (s.(inbox := s.inbox.(state := Closed)), None)
    case Recv(n) => if s.inbox.state.Closed? then (s, Some(Raised)) else (s.(reader := Waiting(n)), None)
    case Timeout => (s.(reader := Idle), Some(Raised))
    case Wake => (s.(reader := Woken(s.reader.bufsize)), None)
    case LookState =>
      (s.(reader := if s.inbox.state.Disconnected? then Drained(s.reader.bufsize) else Taking(s.reader.bufsize)), None)
    case LookBuffer =>
      if s.inbox.buffer == [] then (s.(reader := Idle), Some(Data([])))
      else (s.(reader := Taking(s.reader.bufsize)), None)
    case Take =>
      var (i, data) := Taken(s.inbox, s.reader.bufsize);
      (s.(inbox := i, reader := Idle, returned := s.returned + data), Some(Data(data)))
  }

  /** The far end, its owner and a reader that is not reading yet can act at any time. */
  lemma AnyTime(s: State, e: Event)
    requires e.Confirm? || e.Append? || e.End? || e.Close? || (e.Recv? && s.reader.Idle?)
    ensures Enabled(s, e)
  {
  }

  /** What each step makes of the stream's state, and when a read raises. */
  lemma StateAfter(s: State, e: Event)
    requires Enabled(s, e)
    ensures Step(s, e).0.inbox.state ==
      match e
      case Connect => Connecting
      case Confirm => Connected
      case Close => Closed
      case End => if s.inbox.state == Connected then Disconnected else s.inbox.state
      case _ => s.inbox.state
    ensures Step(s, e).1 == Some(Raised) <==> e.Timeout? || (e.Recv? && s.inbox.state == Closed)
  {
  }

  /** What every step keeps. */
  ghost predicate Good(s: State) {
    && s.accepted == s.returned + s.inbox.buffer
    && (s.inbox.buffer != [] || s.inbox.state.Disconnected? ==> s.inbox.hasData)
    && (s.inbox.state.Disconnected? ==> s.ended)
    && (s.inbox.hasData ==> s.inbox.buffer != [] || s.Told())
    && (s.reader.Drained? ==> s.ended)
    && (s.reader.Woken? || s.reader.Taking? ==> s.inbox.buffer != [] || s.Told())
  }

  lemma StepKeeps(s: State, e: Event)
    requires Good(s) && Enabled(s, e)
    ensures Good(Step(s, e).0)
  {
    match e
    case Append(data) =>
      assert s.returned + s.inbox.buffer + data == s.returned + (s.inbox.buffer + data);
    case Take =>
      var n := ToRead(s.inbox, s.reader.bufsize);
      assert s.inbox.buffer == s.inbox.buffer[..n] + s.inbox.buffer[n..];
      assert s.returned + s.inbox.buffer[..n] + s.inbox.buffer[n..] == s.returned + s.inbox.buffer;
    case _ =>
  }

  // ---- first in, first out ----

  ghost predicate CanRun(s: State, es: seq<Event>)
    decreases |es|
  {
    es == [] || (Enabled(s, es[0]) && CanRun(Step(s, es[0]).0, es[1..]))
  }

  function After(s: State, es: seq<Event>): (t: State)
    requires CanRun(s, es)
    decreases |es|
  {
    if es == [] then s else After(Step(s, es[0]).0, es[1..])
  }

  function Handed(s: State, e: Event): (d: bytes)
    requires Enabled(s, e)
  {
    var r := Step(s, e).1;
    if r.Some? && r.value.Data? then r.value.data else []
  }

  function Offered(s: State, e: Event): (d: bytes) {
    if e.Append? && !s.inbox.state.Closed? then e.data else []
  }

  /** Everything that reads hand over during a run. */
  function Received(s: State, es: seq<Event>): (d: bytes)
    requires CanRun(s, es)
    decreases |es|
  {
    if es == [] then [] else Handed(s, es[0]) + Received(Step(s, es[0]).0, es[1..])
  }

  /** Everything that arrives while the stream is not closed. */
  function Accepted(s: State, es: seq<Event>): (d: bytes)
    requires CanRun(s, es)
    decreases |es|
  {
    if es == [] then [] else Offered(s, es[0]) + Accepted(Step(s, es[0]).0, es[1..])
  }

  lemma StepCounts(s: State, e: Event)
    requires Enabled(s, e)
    ensures Step(s, e).0.returned == s.returned + Handed(s, e)
    ensures Step(s, e).0.accepted == s.accepted + Offered(s, e)
  {
    assert s.returned + [] == s.returned && s.accepted + [] == s.accepted;
  }

  lemma {:induction false} RunKeeps(s: State, es: seq<Event>)
    requires Good(s) && CanRun(s, es)
    ensures Good(After(s, es))
    decreases |es|
  {
    if es != [] {
      StepKeeps(s, es[0]);
      RunKeeps(Step(s, es[0]).0, es[1..]);
    }
  }

  lemma {:induction false} RunReturns(s: State, es: seq<Event>)
    requires CanRun(s, es)
    ensures After(s, es).returned == s.returned + Received(s, es)
    decreases |es|
  {
    if es == [] {
      assert s.returned + [] == s.returned;
    } else {
      StepCounts(s, es[0]);
      RunReturns(Step(s, es[0]).0, es[1..]);
      Assoc(s.returned, Handed(s, es[0]), Received(Step(s, es[0]).0, es[1..]));
    }
  }

  lemma {:induction false} RunAccepts(s: State, es: seq<Event>)
    requires CanRun(s, es)
    ensures After(s, es).accepted == s.accepted + Accepted(s, es)
    decreases |es|
  {
    if es == [] {
      assert s.accepted + [] == s.accepted;
    } else {
      StepCounts(s, es[0]);
      RunAccepts(Step(s, es[0]).0, es[1..]);
      Assoc(s.accepted, Offered(s, es[0]), Accepted(Step(s, es[0]).0, es[1..]));
    }
  }

  /** Over every interleaving, what was read and what is still buffered is what came in, in order. */
  lemma Fifo(es: seq<Event>)
    requires CanRun(INITIAL, es)
    ensures Received(INITIAL, es) + After(INITIAL, es).inbox.buffer == Accepted(INITIAL, es)
  {
    RunKeeps(INITIAL, es);
    RunReturns(INITIAL, es);
    RunAccepts(INITIAL, es);
    var t := After(INITIAL, es);
    assert [] + Received(INITIAL, es) == Received(INITIAL, es) && [] + Accepted(INITIAL, es) == Accepted(INITIAL, es);
  }

  // ---- when the event is exact ----

  /** The event is set exactly when there is something to tell: bytes, or the end. */
  predicate Exact(i: Inbox) {
    i.hasData <==> i.buffer != [] || i.state.Disconnected?
  }

  /**
   The events that spoil that, each of them only while the buffer is empty: an END for a stream
   that is not connected, or a data cell without data, sets the event with nothing to tell; a
   disconnected stream that is closed, or confirmed again, leaves it set.
  */
  predicate Spoils(i: Inbox, e: Event) {
    i.buffer == [] &&
    match e
    case End => i.state.Closed? || i.state.Connecting?
    case Close => i.state.Disconnected?
    case Confirm => i.state.Disconnected?
    case Append(data) => data == [] && (i.state.Connecting? || i.state.Connected?)
    case _ => false
  }

  lemma StepExact(s: State, e: Event)
    requires Exact(s.inbox) && Enabled(s, e)
    ensures Exact(Step(s, e).0.inbox) <==> !Spoils(s.inbox, e)
  {
  }

  predicate Unspoilt(s: State, es: seq<Event>)
    requires CanRun(s, es)
    decreases |es|
  {
    es == [] || (!Spoils(s.inbox, es[0]) && Unspoilt(Step(s, es[0]).0, es[1..]))
  }

  predicate ExactThroughout(s: State, es: seq<Event>)
    requires CanRun(s, es)
    decreases |es|
  {
    Exact(s.inbox) && (es == [] || ExactThroughout(Step(s, es[0]).0, es[1..]))
  }

  /** The event is exact at every step of a run if and only if no event of the run spoils it. */
  lemma {:induction false} RunExact(s: State, es: seq<Event>)
    requires CanRun(s, es) && Exact(s.inbox)
    ensures ExactThroughout(s, es) <==> Unspoilt(s, es)
    decreases |es|
  {
    if es != [] {
      StepExact(s, es[0]);
      if !Spoils(s.inbox, es[0]) {
        RunExact(Step(s, es[0]).0, es[1..]);
      }
    }
  }

  /** As the far end should treat it: confirmed while connecting, ended while connected, no empty cells; and never closed. */
  predicate Orderly(s: State, es: seq<Event>)
    requires CanRun(s, es)
    decreases |es|
  {
    es == [] ||
    (&& !es[0].Close?
     && (es[0].Confirm? ==> s.inbox.state.Connecting?)
     && (es[0].End? ==> s.inbox.state.Connected?)
     && es[0] != Append([])
     && Orderly(Step(s, es[0]).0, es[1..]))
  }

  lemma {:induction false} OrderlyExact(s: State, es: seq<Event>)
    requires CanRun(s, es) && Exact(s.inbox) && Orderly(s, es)
    ensures ExactThroughout(s, es) && Exact(After(s, es).inbox)
    decreases |es|
  {
    if es != [] {
      StepExact(s, es[0]);
      OrderlyExact(Step(s, es[0]).0, es[1..]);
    }
  }

  // ---- end of file and wake-up ----

  /** Only a data cell without data makes a blank. */
  lemma {:induction false} NoBlanks(s: State, es: seq<Event>)
    requires CanRun(s, es) && Append([]) !in es && !s.blank
    ensures !After(s, es).blank
    decreases |es|
  {
    if es != [] {
      assert es[0] != Append([]);
      NoBlanks(Step(s, es[0]).0, es[1..]);
    }
  }

  /**
   A read of positive size, or of all, hands over nothing only with everything read, and after an
   END, unless a data cell without data came in.
  */
  lemma EmptyMeansEnd(es: seq<Event>, e: Event)
    requires CanRun(INITIAL, es) && Enabled(After(INITIAL, es), e)
    requires Step(After(INITIAL, es), e).1 == Some(Data([]))
    requires var n := After(INITIAL, es).reader.bufsize; n > 0 || n == -1
    ensures Received(INITIAL, es) == Accepted(INITIAL, es)
    ensures After(INITIAL, es).ended || Append([]) in es
  {
    RunKeeps(INITIAL, es);
    Fifo(es);
    if Append([]) !in es {
      NoBlanks(INITIAL, es);
    }
  }

  /** No wake-up is lost: a reader that cannot move has read everything, and the stream is not disconnected. */
  lemma NoLostWakeup(es: seq<Event>)
    requires CanRun(INITIAL, es)
    ensures var t := After(INITIAL, es);
            t.reader.Waiting? && !Enabled(t, Wake) ==>
              Received(INITIAL, es) == Accepted(INITIAL, es) && !t.inbox.state.Disconnected?
  {
    RunKeeps(INITIAL, es);
    Fifo(es);
  }

  /** The reader's steps in one `recv` that finds something, when nobody else moves. */
  function Alone(s: State, bufsize: int): (es: seq<Event>) {
    [Recv(bufsize)] + ([Wake] + ([LookState] + (
      if !s.inbox.state.Disconnected? then [Take]
      else if s.inbox.buffer == [] then [LookBuffer]
      else [LookBuffer] + [Take])))
  }

  lemma RunFirst(s: State, e: Event, es: seq<Event>)
    requires Enabled(s, e) && CanRun(Step(s, e).0, es)
    ensures CanRun(s, [e] + es) && After(s, [e] + es) == After(Step(s, e).0, es)
    ensures Received(s, [e] + es) == Handed(s, e) + Received(Step(s, e).0, es)
  {
    assert ([e] + es)[1..] == es;
  }

  lemma RunOne(s: State, e: Event)
    requires Enabled(s, e)
    ensures CanRun(s, [e]) && After(s, [e]) == Step(s, e).0 && Received(s, [e]) == Handed(s, e)
  {
    assert Handed(s, e) + [] == Handed(s, e);
  }

  lemma AloneReturns(s: State, bufsize: int)
    requires Good(s) && s.reader.Idle? && !s.inbox.state.Closed? && s.inbox.hasData
    ensures var es := Alone(s, bufsize);
            && CanRun(s, es)
            && After(s, es) == s.(inbox := Taken(s.inbox, bufsize).0, returned := s.returned + Taken(s.inbox, bufsize).1)
            && Received(s, es) == Taken(s.inbox, bufsize).1
  {
    var drained, taking := s.(reader := Drained(bufsize)), s.(reader := Taking(bufsize));
    RunOne(taking, Take);
    if !s.inbox.state.Disconnected? {
      LooksFirst(s, bufsize, [Take]);
    } else if s.inbox.buffer == [] {
      RunOne(drained, LookBuffer);
      LooksFirst(s, bufsize, [LookBuffer]);
      assert s.returned + [] == s.returned;
    } else {
      RunFirst(drained, LookBuffer, [Take]);
      LooksFirst(s, bufsize, [LookBuffer] + [Take]);
    }
  }

  lemma LooksFirst(s: State, bufsize: int, es: seq<Event>)
    requires s.reader.Idle? && !s.inbox.state.Closed? && s.inbox.hasData
    requires CanRun(s.(reader := if s.inbox.state.Disconnected? then Drained(bufsize) else Taking(bufsize)), es)
    ensures var t := s.(reader := if s.inbox.state.Disconnected? then Drained(bufsize) else Taking(bufsize));
            var all := [Recv(bufsize)] + ([Wake] + ([LookState] + es));
            CanRun(s, all) && After(s, all) == After(t, es) && Received(s, all) == Received(t, es)
  {
    RunFirst(s.(reader := Woken(bufsize)), LookState, es);
    RunFirst(s.(reader := Waiting(bufsize)), Wake, [LookState] + es);
    RunFirst(s, Recv(bufsize), [Wake] + ([LookState] + es));
  }

  /** On a disconnected stream a reader gets the rest of the bytes, and from then on only the end. */
  lemma DrainsThenEnds(s: State, bufsize: int)
    requires Good(s) && s.reader.Idle? && s.inbox.state.Disconnected? && (bufsize > 0 || bufsize == -1)
    ensures CanRun(s, Alone(s, bufsize))
    ensures var t, d := After(s, Alone(s, bufsize)), Received(s, Alone(s, bufsize));
            if s.inbox.buffer == [] then t == s && d == [] else d != [] && t.inbox.state.Disconnected? && t.reader.Idle?
  {
    AloneReturns(s, bufsize);
    assert s.returned + [] == s.returned;
  }

  /**
   An END is announced for good exactly when it finds the stream connected: otherwise the first
   read that comes back empty-handed takes the announcement with it.
  */
  lemma EndAnnounced(s: State, bufsize: int)
    requires Good(s) && s.reader.Idle? && s.inbox.buffer == [] && (s.inbox.state.Connecting? || s.inbox.state.Connected?)
    ensures var u := Step(s, End).0;
            && CanRun(u, Alone(u, bufsize)) && Received(u, Alone(u, bufsize)) == []
            && (After(u, Alone(u, bufsize)).inbox.hasData <==> s.inbox.state.Connected?)
  {
    StepKeeps(s, End);
    AloneReturns(Step(s, End).0, bufsize);
  }

  /** A data cell without data makes the next read on an empty, open stream look like the end. */
  lemma BlankRead(s: State, bufsize: int)
    requires Good(s) && s.reader.Idle? && s.inbox.buffer == [] && (s.inbox.state.Connecting? || s.inbox.state.Connected?)
    ensures var u := Step(s, Append([])).0;
            && CanRun(u, Alone(u, bufsize)) && Received(u, Alone(u, bufsize)) == []
            && u.inbox.state == s.inbox.state && u.ended == s.ended
  {
    StepKeeps(s, Append([]));
    AloneReturns(Step(s, Append([])).0, bufsize);
  }
}
