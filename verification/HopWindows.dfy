/**
 Windows on a circuit that grows: data comes from any hop, on streams that were opened when that hop
 was the last one, while the client sends every SENDME, of the circuit and of a stream, to the hop
 that is the last one when it is sent.
*/
module HopWindows {
  import opened Sequences
  import Flow = FlowControl

  /** One end of a conversation: a hop, on the circuit's window or on a stream's. */
  datatype Account = Account(hop: nat, stream: Option<nat>)

  /**
   `deliver` is the client's window and `peer` the hop's. Counted are the cells sent by the hop and
   received by the client, the SENDMEs that they made due, those of them not issued yet, and those
   issued to this account and landed.
  */
  datatype Lane = Lane(deliver: int, peer: int, sent: nat, received: nat, made: nat, due: nat, issued: nat, landed: nat)

  /** `home` is the hop that a stream was opened at; `reached` counts its cells that the circuit has seen. */
  datatype State = State(last: nat, home: map<nat, nat>, lanes: map<Account, Lane>, reached: map<nat, nat>)

  datatype Step =
    | Grow
    | Open(id: nat)
    | Send(id: nat)      // by the stream's hop
    | Arrive(id: nat)    // counted on the circuit
    | Hand(id: nat)      // counted on the stream
    | Issue(a: Account)  // a SENDME that is due goes to the last hop
    | Land(a: Account)

  function Window(c: Flow.Config, a: Account): (p: Flow.Params) {
    if a.stream.None? then c.circ else c.stream
  }

  function Get(c: Flow.Config, s: State, a: Account): (l: Lane) {
    var start := Window(c, a).start;
    if a in s.lanes then s.lanes[a] else Lane(start, start, 0, 0, 0, 0, 0, 0)
  }

  function Put(s: State, a: Account, l: Lane): (s': State) {
    s.(lanes := s.lanes[a := l])
  }

  function Reached(s: State, id: nat): (n: nat) {
    if id in s.reached then s.reached[id] else 0
  }

  const START: State := State(0, map[], map[], map[])

  /** An account that a hop keeps. */
  predicate Kept(s: State, a: Account) {
    if a.stream.None? then a.hop <= s.last else a.stream.value in s.home && s.home[a.stream.value] == a.hop
  }

  predicate Enabled(c: Flow.Config, s: State, e: Step) {
    match e
    case Grow => true
    case Open(id) => id !in s.home
    case Send(id) =>
      && id in s.home
      && Get(c, s, Account(s.home[id], None)).peer > 0 && Get(c, s, Account(s.home[id], Some(id))).peer > 0
    case Arrive(id) => id in s.home && Reached(s, id) < Get(c, s, Account(s.home[id], Some(id))).sent
    case Hand(id) => id in s.home && Get(c, s, Account(s.home[id], Some(id))).received < Reached(s, id)
    case Issue(a) => Kept(s, a) && Get(c, s, a).due > 0
    case Land(a) => Get(c, s, a).landed < Get(c, s, a).issued
  }

  function Sent(l: Lane): (l': Lane) {
    l.(peer := l.peer - 1, sent := l.sent + 1)
  }

  function Counted(p: Flow.Params, l: Lane): (l': Lane) {
    var (d, due) := Flow.Check(p, l.deliver - 1);
    var n := if due then 1 else 0;
    l.(deliver := d, received := l.received + 1, made := l.made + n, due := l.due + n)
  }

  /** The client addresses its last hop; one that does not know the stream drops the SENDME. */
  function Next(c: Flow.Config, s: State, e: Step): (s': State)
    requires Enabled(c, s, e)
  {
    match e
    case Grow => s.(last := s.last + 1)
    case Open(id) => s.(home := s.home[id := s.last])
    case Send(id) =>
      var a, b := Account(s.home[id], None), Account(s.home[id], Some(id));
      Put(Put(s, a, Sent(Get(c, s, a))), b, Sent(Get(c, s, b)))
    case Arrive(id) =>
      var a := Account(s.home[id], None);
      Put(s, a, Counted(c.circ, Get(c, s, a))).(reached := s.reached[id := Reached(s, id) + 1])
    case Hand(id) =>
      var b := Account(s.home[id], Some(id));
      Put(s, b, Counted(c.stream, Get(c, s, b)))
    case Issue(a) =>
      var l := Get(c, s, a);
      var u := Put(s, a, l.(due := l.due - 1));
      var to := a.(hop := s.last);
      Put(u, to, Get(c, u, to).(issued := Get(c, u, to).issued + 1))
    case Land(a) =>
      var l := Get(c, s, a);
      Put(s, a, l.(landed := l.landed + 1, peer := if Kept(s, a) then l.peer + Window(c, a).increment else l.peer))
  }

  /** Whatever is on its way goes on, kept account or not; and a hop with both windows open can send. */
  lemma NothingWaits(c: Flow.Config, s: State, id: nat, a: Account)
    ensures Enabled(c, s, Grow) && (id !in s.home ==> Enabled(c, s, Open(id)))
    ensures id in s.home ==>
      var circ, stream := Get(c, s, Account(s.home[id], None)), Get(c, s, Account(s.home[id], Some(id)));
      && (circ.peer > 0 && stream.peer > 0 <==> Enabled(c, s, Send(id)))
      && (stream.received < stream.sent ==> Enabled(c, s, Arrive(id)) || Enabled(c, s, Hand(id)))
    ensures Kept(s, a) && Get(c, s, a).due > 0 ==> Enabled(c, s, Issue(a))
    ensures Get(c, s, a).issued > Get(c, s, a).landed ==> Enabled(c, s, Land(a))
  {
  }

  // ---- one account ----

  ghost predicate LaneOk(p: Flow.Params, l: Lane)
    requires p.Valid()
  {
    && l.peer == p.start - l.sent + p.increment * l.landed && l.peer >= 0
    && l.deliver == p.start - l.received + p.increment * l.made && p.start - p.increment < l.deliver <= p.start
    && l.landed <= l.issued
  }

  lemma SentOk(p: Flow.Params, l: Lane)
    requires p.Valid() && LaneOk(p, l) && l.peer > 0
    ensures LaneOk(p, Sent(l))
  {
  }

  /** A SENDME is due for every increment of cells counted. */
  lemma CountedOk(p: Flow.Params, l: Lane)
    requires p.Valid() && LaneOk(p, l)
    ensures var l' := Counted(p, l);
            LaneOk(p, l') && l'.due - l'.made == l.due - l.made
  {
    Flow.MulNext(p.increment, l.made);
  }

  lemma MadeIsFloor(p: Flow.Params, l: Lane)
    requires p.Valid() && LaneOk(p, l)
    ensures l.made == l.received / p.increment && p.start - l.deliver == l.received % p.increment
  {
    Flow.DivUnique(l.received, p.increment, l.made);
    assert l.received == p.increment * (l.received / p.increment) + l.received % p.increment;
  }

  lemma LandedOk(p: Flow.Params, l: Lane)
    requires p.Valid() && LaneOk(p, l) && l.landed < l.issued
    ensures LaneOk(p, l.(landed := l.landed + 1, peer := l.peer + p.increment))
  {
    Flow.MulNext(p.increment, l.landed);
  }

  // ---- SENDMEs sent astray ----

  /** SENDMEs that an account has been given, or is about to be, beyond those that its own cells made due. */
  function Gap(l: Lane): (g: int) {
    l.issued + l.due - l.made
  }

  /** The same for the accounts of the hops before `n`, on the circuit's window or on one stream's. */
  function Gaps(c: Flow.Config, s: State, stream: Option<nat>, n: nat): (g: int) {
    if n == 0 then 0 else Gaps(c, s, stream, n - 1) + Gap(Get(c, s, Account(n - 1, stream)))
  }

  lemma {:induction false} GapsSame(c: Flow.Config, s: State, s': State, stream: Option<nat>, n: nat)
    requires forall h: nat | h < n :: Gap(Get(c, s', Account(h, stream))) == Gap(Get(c, s, Account(h, stream)))
    ensures Gaps(c, s', stream, n) == Gaps(c, s, stream, n)
  {
    if n > 0 {
      var a := Account(n - 1, stream);
      assert Gap(Get(c, s', a)) == Gap(Get(c, s, a));
      GapsSame(c, s, s', stream, n - 1);
    }
  }

  lemma {:induction false} GapsPut(c: Flow.Config, s: State, a: Account, l: Lane, n: nat)
    requires a.hop < n
    ensures Gaps(c, Put(s, a, l), a.stream, n) ==
            Gaps(c, s, a.stream, n) + Gap(l) - Gap(Get(c, s, a))
  {
    if a.hop == n - 1 {
      GapsSame(c, s, Put(s, a, l), a.stream, n - 1);
    } else {
      GapsPut(c, s, a, l, n - 1);
    }
  }

  lemma GapsPutElse(c: Flow.Config, s: State, a: Account, l: Lane, stream: Option<nat>, n: nat)
    requires stream == a.stream && a.hop < n ==> Gap(l) == Gap(Get(c, s, a))
    ensures Gaps(c, Put(s, a, l), stream, n) == Gaps(c, s, stream, n)
  {
    GapsSame(c, s, Put(s, a, l), stream, n);
  }

  // ---- every run ----

  /** What an account holds that nothing has been sent to. */
  predicate Blank(p: Flow.Params, l: Lane) {
    l == Lane(p.start, p.start, 0, 0, 0, 0, 0, 0)
  }

  ghost predicate AccountOk(c: Flow.Config, s: State, a: Account)
    requires c.circ.Valid() && c.stream.Valid()
  {
    var p, l := Window(c, a), Get(c, s, a);
    && (Kept(s, a) ==> LaneOk(p, l))
    && (!Kept(s, a) ==> l.made == 0 && l.due == 0)
    && (a.hop > s.last || (a.stream.Some? && a.stream.value !in s.home) ==> Blank(p, l))
  }

  ghost predicate Homes(s: State) {
    forall id | id in s.home :: s.home[id] <= s.last
  }

  /** Over all hops that there are. */
  ghost function Balance(c: Flow.Config, s: State, stream: Option<nat>): (g: int) {
    Gaps(c, s, stream, s.last + 1)
  }

  /** Every SENDME that cells made due has gone to some hop, or is about to. */
  ghost predicate Conserved(c: Flow.Config, s: State) {
    forall stream :: Balance(c, s, stream) == 0
  }

  ghost predicate Inv(c: Flow.Config, s: State) {
    && c.circ.Valid() && c.stream.Valid() && Homes(s)
    && (forall a :: AccountOk(c, s, a))
    && Conserved(c, s)
  }

  lemma {:induction false} NoGaps(c: Flow.Config, stream: Option<nat>, n: nat)
    ensures Gaps(c, START, stream, n) == 0
  {
    if n > 0 {
      NoGaps(c, stream, n - 1);
    }
  }

  lemma StartInv(c: Flow.Config)
    requires c.circ.Valid() && c.stream.Valid()
    ensures Inv(c, START)
  {
    forall stream
      ensures Balance(c, START, stream) == 0
    {
      NoGaps(c, stream, START.last + 1);
    }
  }

  lemma GrowKeeps(c: Flow.Config, s: State)
    requires Inv(c, s)
    ensures Inv(c, Next(c, s, Grow))
  {
    var s' := Next(c, s, Grow);
    forall a
      ensures AccountOk(c, s', a)
    {
      assert AccountOk(c, s, a);
    }
    forall stream
      ensures Balance(c, s', stream) == 0
    {
      assert Balance(c, s, stream) == 0;
      var a := Account(s'.last, stream);
      assert AccountOk(c, s, a);
      GapsSame(c, s, s', stream, s.last + 1);
    }
  }

  lemma OpenKeeps(c: Flow.Config, s: State, id: nat)
    requires Inv(c, s) && Enabled(c, s, Open(id))
    ensures Inv(c, Next(c, s, Open(id)))
  {
    var s' := Next(c, s, Open(id));
    forall a
      ensures AccountOk(c, s', a)
    {
      assert AccountOk(c, s, a);
    }
    forall stream
      ensures Balance(c, s', stream) == 0
    {
      assert Balance(c, s, stream) == 0;
      GapsSame(c, s, s', stream, s.last + 1);
    }
  }

  /** A kept account that takes another lane with no more SENDMEs given or due beyond its cells. */
  lemma PutKeeps(c: Flow.Config, s: State, a: Account, l: Lane)
    requires Inv(c, s) && Kept(s, a) && LaneOk(Window(c, a), l)
    requires Gap(l) == Gap(Get(c, s, a))
    ensures Inv(c, Put(s, a, l))
  {
    var s' := Put(s, a, l);
    forall b
      ensures AccountOk(c, s', b)
    {
      assert AccountOk(c, s, b);
    }
    forall stream
      ensures Balance(c, s', stream) == 0
    {
      assert Balance(c, s, stream) == 0;
      GapsPutElse(c, s, a, l, stream, s.last + 1);
    }
  }

  lemma SendKeeps(c: Flow.Config, s: State, id: nat)
    requires Inv(c, s) && Enabled(c, s, Send(id))
    ensures Inv(c, Next(c, s, Send(id)))
  {
    var a, b := Account(s.home[id], None), Account(s.home[id], Some(id));
    assert AccountOk(c, s, a) && AccountOk(c, s, b);
    SentOk(c.circ, Get(c, s, a));
    SentOk(c.stream, Get(c, s, b));
    PutKeeps(c, s, a, Sent(Get(c, s, a)));
    PutKeeps(c, Put(s, a, Sent(Get(c, s, a))), b, Sent(Get(c, s, b)));
  }

  lemma CountKeeps(c: Flow.Config, s: State, a: Account)
    requires Inv(c, s) && Kept(s, a)
    ensures Inv(c, Put(s, a, Counted(Window(c, a), Get(c, s, a))))
  {
    assert AccountOk(c, s, a);
    CountedOk(Window(c, a), Get(c, s, a));
    PutKeeps(c, s, a, Counted(Window(c, a), Get(c, s, a)));
  }

  lemma ReachedApart(c: Flow.Config, s: State, r: map<nat, nat>)
    requires Inv(c, s)
    ensures Inv(c, s.(reached := r))
  {
    var s' := s.(reached := r);
    forall a
      ensures AccountOk(c, s', a)
    {
      assert AccountOk(c, s, a);
    }
    forall stream
      ensures Balance(c, s', stream) == 0
    {
      assert Balance(c, s, stream) == 0;
      GapsSame(c, s, s', stream, s.last + 1);
    }
  }

  lemma IssueAccount(c: Flow.Config, s: State, a: Account, b: Account)
    requires c.circ.Valid() && c.stream.Valid() && Homes(s) && Enabled(c, s, Issue(a))
    requires AccountOk(c, s, a) && AccountOk(c, s, a.(hop := s.last)) && AccountOk(c, s, b)
    ensures AccountOk(c, Next(c, s, Issue(a)), b)
  {
    var u := Put(s, a, Get(c, s, a).(due := Get(c, s, a).due - 1));
    assert Window(c, a.(hop := s.last)) == Window(c, a);
    assert AccountOk(c, u, b);
  }

  lemma IssueBalance(c: Flow.Config, s: State, a: Account, stream: Option<nat>)
    requires Enabled(c, s, Issue(a)) && a.hop <= s.last
    ensures Balance(c, Next(c, s, Issue(a)), stream) == Balance(c, s, stream)
  {
    var l, to := Get(c, s, a), a.(hop := s.last);
    var u := Put(s, a, l.(due := l.due - 1));
    var m := Get(c, u, to).(issued := Get(c, u, to).issued + 1);
    if stream == a.stream {
      GapsPut(c, s, a, l.(due := l.due - 1), s.last + 1);
      GapsPut(c, u, to, m, s.last + 1);
    } else {
      GapsPutElse(c, s, a, l.(due := l.due - 1), stream, s.last + 1);
      GapsPutElse(c, u, to, m, stream, s.last + 1);
    }
  }

  /** A SENDME that is due leaves its own account for that of the last hop. */
  lemma IssueKeeps(c: Flow.Config, s: State, a: Account)
    requires Inv(c, s) && Enabled(c, s, Issue(a))
    ensures Inv(c, Next(c, s, Issue(a)))
  {
    var s' := Next(c, s, Issue(a));
    forall b
      ensures AccountOk(c, s', b)
    {
      assert AccountOk(c, s, a) && AccountOk(c, s, a.(hop := s.last)) && AccountOk(c, s, b);
      IssueAccount(c, s, a, b);
    }
    forall stream
      ensures Balance(c, s', stream) == 0
    {
      assert Balance(c, s, stream) == 0;
      IssueBalance(c, s, a, stream);
    }
  }

  lemma LandKeeps(c: Flow.Config, s: State, a: Account)
    requires Inv(c, s) && Enabled(c, s, Land(a))
    ensures Inv(c, Next(c, s, Land(a)))
  {
    var l := Get(c, s, a);
    assert AccountOk(c, s, a);
    if Kept(s, a) {
      LandedOk(Window(c, a), l);
      PutKeeps(c, s, a, l.(landed := l.landed + 1, peer := l.peer + Window(c, a).increment));
    } else {
      DropKeeps(c, s, a);
    }
  }

  lemma DropKeeps(c: Flow.Config, s: State, a: Account)
    requires Inv(c, s) && Enabled(c, s, Land(a)) && !Kept(s, a)
    ensures Inv(c, Next(c, s, Land(a)))
  {
    var s', l := Next(c, s, Land(a)), Get(c, s, a);
    forall b
      ensures AccountOk(c, s', b)
    {
      assert AccountOk(c, s, b);
    }
    forall stream
      ensures Balance(c, s', stream) == 0
    {
      assert Balance(c, s, stream) == 0;
      GapsPutElse(c, s, a, l.(landed := l.landed + 1), stream, s.last + 1);
    }
  }

  lemma StepKeeps(c: Flow.Config, s: State, e: Step)
    requires Inv(c, s) && Enabled(c, s, e)
    ensures Inv(c, Next(c, s, e))
  {
    match e
    case Grow => GrowKeeps(c, s);
    case Open(id) => OpenKeeps(c, s, id);
    case Send(id) => SendKeeps(c, s, id);
    case Arrive(id) =>
      CountKeeps(c, s, Account(s.home[id], None));
      ReachedApart(c, Put(s, Account(s.home[id], None), Counted(c.circ, Get(c, s, Account(s.home[id], None)))),
                   s.reached[id := Reached(s, id) + 1]);
    case Hand(id) => CountKeeps(c, s, Account(s.home[id], Some(id)));
    case Issue(a) => IssueKeeps(c, s, a);
    case Land(a) => LandKeeps(c, s, a);
  }

  ghost predicate CanRun(c: Flow.Config, s: State, es: seq<Step>)
    decreases |es|
  {
    es == [] || (Enabled(c, s, es[0]) && CanRun(c, Next(c, s, es[0]), es[1..]))
  }

  ghost function After(c: Flow.Config, s: State, es: seq<Step>): (t: State)
    requires CanRun(c, s, es)
    decreases |es|
  {
    if es == [] then s else After(c, Next(c, s, es[0]), es[1..])
  }

  lemma {:induction false} RunKeeps(c: Flow.Config, s: State, es: seq<Step>)
    requires Inv(c, s) && CanRun(c, s, es)
    ensures Inv(c, After(c, s, es))
    decreases |es|
  {
    if es != [] {
      StepKeeps(c, s, es[0]);
      RunKeeps(c, Next(c, s, es[0]), es[1..]);
    }
  }

  /** What hop or stream and client hold in every reachable state, as the code sends its SENDMEs. */
  lemma RepliesCount(c: Flow.Config, es: seq<Step>, a: Account)
    requires c.circ.Valid() && c.stream.Valid() && CanRun(c, START, es) && Kept(After(c, START, es), a)
    ensures var p, l := Window(c, a), Get(c, After(c, START, es), a);
            && l.deliver == p.start - l.received % p.increment && l.made == l.received / p.increment
            && l.peer == p.start - l.sent + p.increment * l.landed && l.peer >= 0 && l.landed <= l.issued
  {
    StartInv(c);
    RunKeeps(c, START, es);
    assert AccountOk(c, After(c, START, es), a);
    MadeIsFloor(Window(c, a), Get(c, After(c, START, es), a));
  }

  /** The hop's window when all that is on its way, cells and SENDMEs, has arrived. */
  function Settled(p: Flow.Params, l: Lane): (n: int) {
    l.peer + (l.sent - l.received) + p.increment * (l.issued - l.landed)
  }

  lemma MulMinus(i: nat, x: int, y: int)
    ensures i * (x - y) == i * x - i * y
  {
  }

  /** By how much an account is out of balance. */
  lemma Excess(c: Flow.Config, es: seq<Step>, a: Account)
    requires c.circ.Valid() && c.stream.Valid() && CanRun(c, START, es) && Kept(After(c, START, es), a)
    ensures var p, l := Window(c, a), Get(c, After(c, START, es), a);
            Settled(p, l) - l.deliver == p.increment * (l.issued - l.received / p.increment)
  {
    RepliesCount(c, es, a);
    var p, l := Window(c, a), Get(c, After(c, START, es), a);
    MulMinus(p.increment, l.issued, l.landed);
    MulMinus(p.increment, l.issued, l.received / p.increment);
    assert l.received == p.increment * (l.received / p.increment) + l.received % p.increment;
  }

  /** The equation of flow control holds for an account exactly when it was issued the SENDMEs of its own cells' number. */
  lemma BalancedIff(c: Flow.Config, es: seq<Step>, a: Account)
    requires c.circ.Valid() && c.stream.Valid() && CanRun(c, START, es) && Kept(After(c, START, es), a)
    ensures var p, l := Window(c, a), Get(c, After(c, START, es), a);
            Settled(p, l) == l.deliver <==> l.issued == l.received / p.increment
  {
    Excess(c, es, a);
    var p, l := Window(c, a), Get(c, After(c, START, es), a);
    MulNone(p.increment, l.issued - l.received / p.increment);
  }

  lemma MulNone(i: nat, x: int)
    requires i > 0
    ensures i * x == 0 <==> x == 0
  {
    if x > 0 {
      Flow.MulLess(i, 0, x);
    } else if x < 0 {
      MulMinus(i, 0, -x);
    }
  }

  /** Over all hops, the SENDMEs issued and still due are those that cells made due: none is lost or made up. */
  lemma SendmesConserved(c: Flow.Config, es: seq<Step>, stream: Option<nat>)
    requires c.circ.Valid() && c.stream.Valid() && CanRun(c, START, es)
    ensures var s := After(c, START, es); Gaps(c, s, stream, s.last + 1) == 0
  {
    StartInv(c);
    RunKeeps(c, START, es);
    assert Balance(c, After(c, START, es), stream) == 0;
  }

  // ---- a hop that is no longer the last ----

  lemma StepNotLast(c: Flow.Config, s: State, e: Step, a: Account)
    requires Inv(c, s) && Enabled(c, s, e) && Kept(s, a) && a.hop < s.last
    ensures var s' := Next(c, s, e);
            Kept(s', a) && a.hop < s'.last && Get(c, s', a).issued == Get(c, s, a).issued
  {
  }

  lemma {:induction false} NotLast(c: Flow.Config, s: State, es: seq<Step>, a: Account)
    requires Inv(c, s) && CanRun(c, s, es) && Kept(s, a) && a.hop < s.last
    ensures var t := After(c, s, es);
            Inv(c, t) && Kept(t, a) && Get(c, t, a).issued == Get(c, s, a).issued
    decreases |es|
  {
    if es != [] {
      StepKeeps(c, s, es[0]);
      StepNotLast(c, s, es[0], a);
      NotLast(c, Next(c, s, es[0]), es[1..], a);
    }
  }

  /**
   From the moment another hop is appended, a hop and its streams get no further SENDME: all that
   each can send, from first to last, is its starting window and an increment for every SENDME
   issued to it up to then, and it can send for exactly as long as it has sent less.
  */
  lemma MiddleHopStalls(c: Flow.Config, before: seq<Step>, s: State, es: seq<Step>, a: Account)
    requires c.circ.Valid() && c.stream.Valid() && CanRun(c, START, before) && s == After(c, START, before)
    requires CanRun(c, s, es) && Kept(s, a) && a.hop < s.last
    ensures var p, total := Window(c, a), Window(c, a).start + Window(c, a).increment * Get(c, s, a).issued;
            var l := Get(c, After(c, s, es), a);
            l.sent <= total && (l.landed == l.issued ==> (l.peer > 0 <==> l.sent < total))
  {
    StartInv(c);
    RunKeeps(c, START, before);
    NotLast(c, s, es, a);
    assert AccountOk(c, After(c, s, es), a);
    var l := Get(c, After(c, s, es), a);
    MulMinus(Window(c, a).increment, l.issued, l.landed);
    MulSign(Window(c, a).increment, l.issued - l.landed);
  }

  lemma MulSign(i: nat, x: int)
    requires x >= 0
    ensures i * x >= 0
  {
  }
}
