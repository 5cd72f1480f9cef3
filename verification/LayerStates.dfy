/**
 Where the client's running ciphers and digests stand in every reachable state, in terms of the
 secrets that the hops came with and the cells exchanged with them.
*/
module LayerStates {
  import opened Sequences
  import opened Bytes
  import opened RelayFormat
  import opened Layers
  import opened OnionChannel
  import opened OnionSteps
  import opened OnionRun

  /** The secrets of a run's extensions: hop `h` is made with the `h`-th. */
  function Secrets(es: seq<Event>): (ks: seq<bytes>) {
    if es == [] then [] else (if es[0].Extend? then [es[0].secret] else []) + Secrets(es[1..])
  }

  /** How many of the cells have hop `h` or one behind it as their far end. */
  function Reaching(ns: seq<Note>, h: nat): (n: nat) {
    if ns == [] then 0
    else
      var last := |ns| - 1;
      Reaching(ns[..last], h) + (if ns[last].edge >= h then 1 else 0)
  }

  /**
   509 octets of key stream for every cell through the hop, and behind the seed a digest history of
   every cell with the hop itself.
  */
  predicate Stands(l: Layer, key: bytes, seed: bytes, ns: seq<Note>, h: nat) {
    l == Layer(key, 509 * Reaching(ns, h), seed + History(Of(ns, h)))
  }

  ghost predicate Within(ns: seq<Note>, n: nat) {
    forall i | 0 <= i < |ns| :: ns[i].edge < n
  }

  /** The client's ends of both directions, hop by hop. */
  ghost predicate HopHeld(s: Circuit, secret: bytes, h: nat) {
    && h < |s.fwd.writer| && h < |s.back.reader| && |secret| == 72
    && Stands(s.fwd.writer[h], secret[40..56], secret[..20], s.fwd.sent, h)
    && Stands(s.back.reader[h], secret[56..72], secret[20..40], s.back.got, h)
  }

  ghost predicate Held(s: Circuit, ks: seq<bytes>) {
    && |ks| == |s.fwd.writer| == |s.back.reader|
    && Within(s.fwd.sent, |ks|) && Within(s.back.got, |ks|)
    && forall h | 0 <= h < |ks| :: HopHeld(s, ks[h], h)
  }

  // ---- one cell, one hop ----

  lemma OneMore(l: Layer, key: bytes, seed: bytes, ns: seq<Note>, n: Note, h: nat)
    requires Stands(l, key, seed, ns, h) && |n.plain| == 509
    ensures Stands(Layer(l.key, l.pos + (if h <= n.edge then 509 else 0),
                         l.hist + (if n.edge == h then Cleared(n.plain) else [])), key, seed, ns + [n], h)
  {
    var all := ns + [n];
    assert all[..|all| - 1] == ns;
    OfAppend(ns, [n], h);
    assert [n][1..] == [] && Of([n][1..], h) == [];
    var more := Of([n], h);
    assert more == if n.edge == h then [n.plain] else [];
    HistoryAppend(Of(ns, h), more);
    if n.edge == h {
      assert more[1..] == [] && History(more) == Cleared(n.plain) + [];
    }
    assert History(more) == if n.edge == h then Cleared(n.plain) else [];
    Assoc(seed, History(Of(ns, h)), History(more));
  }

  lemma {:induction false} NoneYet(ns: seq<Note>, h: nat)
    requires Within(ns, h)
    ensures Reaching(ns, h) == 0 && Of(ns, h) == []
  {
    if ns != [] {
      var last := |ns| - 1;
      NoneYet(ns[..last], h);
      OfAppend(ns[..last], [ns[last]], h);
      assert ns == ns[..last] + [ns[last]] && [ns[last]][1..] == [];
    }
  }

  lemma NewHop(key: bytes, seed: bytes, ns: seq<Note>, h: nat)
    requires Within(ns, h)
    ensures Stands(Layer(key, 0, seed), key, seed, ns, h)
  {
    NoneYet(ns, h);
    assert seed + [] == seed;
  }

  // ---- one step ----

  lemma SendHeld(prim: Primitives, s: Circuit, m: Message, ks: seq<bytes>)
    requires Held(s, ks) && Enabled(s, Send(m))
    ensures Held(Step(prim, s, Send(m)), ks)
  {
    var t, last := Step(prim, s, Send(m)), |s.fwd.writer| - 1;
    var f := Written(prim, s.fwd.writer, 0, last, m);
    var n := Note(last, f.plain);
    assert Notes([f]) == [n];
    forall h | 0 <= h < |ks|
      ensures HopHeld(t, ks[h], h)
    {
      assert HopHeld(s, ks[h], h);
      OneMore(s.fwd.writer[h], ks[h][40..56], ks[h][..20], s.fwd.sent, n, h);
      if h != last {
        assert s.fwd.writer[h].hist + [] == s.fwd.writer[h].hist;
      }
    }
  }

  lemma ReceiveHeld(prim: Primitives, s: Circuit, ks: seq<bytes>)
    requires Good(prim, s) && Held(s, ks) && Enabled(s, Receive) && NoAccident(prim, s, Receive)
    ensures Held(Step(prim, s, Receive), ks)
  {
    SealedRange(prim, s.back.reader, s.back.flights);
    TakeKeeps(prim, s.back);
    var t, f := Step(prim, s, Receive), s.back.flights[0];
    var n := Note(f.edge, f.plain);
    assert t.back.got == s.back.got + [n];
    forall h | 0 <= h < |ks|
      ensures HopHeld(t, ks[h], h)
    {
      assert HopHeld(s, ks[h], h);
      OneMore(s.back.reader[h], ks[h][56..72], ks[h][20..40], s.back.got, n, h);
      if h != f.edge {
        assert s.back.reader[h].hist + [] == s.back.reader[h].hist;
      }
    }
  }

  lemma ExtendHeld(prim: Primitives, s: Circuit, secret: bytes, ks: seq<bytes>)
    requires Held(s, ks) && |secret| == 72
    ensures Held(Step(prim, s, Extend(secret)), ks + [secret])
  {
    var t, all := Step(prim, s, Extend(secret)), ks + [secret];
    NewHop(secret[40..56], secret[..20], s.fwd.sent, |ks|);
    NewHop(secret[56..72], secret[20..40], s.back.got, |ks|);
    forall h | 0 <= h < |all|
      ensures HopHeld(t, all[h], h)
    {
      if h < |ks| {
        assert HopHeld(s, ks[h], h);
      }
    }
  }

  /** The relays' own steps touch neither end of the client. */
  lemma OthersHeld(prim: Primitives, s: Circuit, e: Event, ks: seq<bytes>)
    requires Held(s, ks) && Enabled(s, e) && (e.Pass? || e.Reply? || e.Hand?)
    ensures Held(Step(prim, s, e), ks)
  {
    var t := Step(prim, s, e);
    assert t.fwd.writer == s.fwd.writer && t.back.reader == s.back.reader;
    assert t.fwd.sent == s.fwd.sent && t.back.got == s.back.got;
    forall h | 0 <= h < |ks|
      ensures HopHeld(t, ks[h], h)
    {
      assert HopHeld(s, ks[h], h);
    }
  }

  lemma StepHeld(prim: Primitives, s: Circuit, e: Event, ks: seq<bytes>)
    requires Good(prim, s) && Held(s, ks) && Enabled(s, e) && NoAccident(prim, s, e)
    ensures Held(Step(prim, s, e), ks + (if e.Extend? then [e.secret] else []))
  {
    assert ks + [] == ks;
    match e
    case Send(m) => SendHeld(prim, s, m, ks);
    case Receive => ReceiveHeld(prim, s, ks);
    case Extend(secret) => ExtendHeld(prim, s, secret, ks);
    case _ => OthersHeld(prim, s, e, ks);
  }

  // ---- whole runs ----

  lemma {:induction false} RunHeld(prim: Primitives, s: Circuit, es: seq<Event>, t: Circuit, ks: seq<bytes>)
    requires Good(prim, s) && Held(s, ks) && IsRun(prim, s, es, t)
    ensures Held(t, ks + Secrets(es))
    decreases |es|
  {
    if es == [] {
      assert ks + [] == ks;
    } else {
      var u :| Goes(prim, s, es[0], u) && IsRun(prim, u, es[1..], t);
      var more := if es[0].Extend? then [es[0].secret] else [];
      StepKeeps(prim, s, es[0]);
      StepHeld(prim, s, es[0], ks);
      RunHeld(prim, u, es[1..], t, ks + more);
      Assoc(ks, more, Secrets(es[1..]));
    }
  }

  /**
   In every reachable state: hop `h` encrypts with its own Kf, 509 octets on for each cell sent to it
   or to a hop behind it, and digests its own Df and the cells sent to it; backward the same with Kb
   and Db and the cells read.
  */
  lemma ClientLayers(prim: Primitives, es: seq<Event>, s: Circuit, h: nat)
    requires IsRun(prim, NO_CIRCUIT, es, s) && h < |Secrets(es)|
    ensures |s.fwd.writer| == |s.back.reader| == |Secrets(es)| && |Secrets(es)[h]| == 72
    ensures var k := Secrets(es)[h];
            && s.fwd.writer[h]
               == Layer(k[40..56], 509 * Reaching(s.fwd.sent, h), k[..20] + History(Of(s.fwd.sent, h)))
            && s.back.reader[h]
               == Layer(k[56..72], 509 * Reaching(s.back.got, h), k[20..40] + History(Of(s.back.got, h)))
  {
    NoCircuitGood(prim);
    RunHeld(prim, NO_CIRCUIT, es, s, []);
    assert [] + Secrets(es) == Secrets(es);
    assert HopHeld(s, Secrets(es)[h], h);
  }

  lemma StampDigest(prim: Primitives, l: Layer, m: Message)
    requires m.Fits()
    ensures var p := Stamp(prim, l, m.num, m.streamId, m.payload);
            p[5..9] == prim.sha1(l.hist + Cleared(p))[..4]
  {
    StampRecognised(prim, l, m.num, m.streamId, m.payload);
  }

  lemma SendAdds(prim: Primitives, s: Circuit, m: Message)
    requires Enabled(s, Send(m))
    ensures var last := |s.fwd.writer| - 1;
            Step(prim, s, Send(m)).fwd.sent
            == s.fwd.sent + [Note(last, Stamp(prim, s.fwd.writer[last], m.num, m.streamId, m.payload))]
  {
    assert Notes([Written(prim, s.fwd.writer, 0, |s.fwd.writer| - 1, m)])
        == [Note(|s.fwd.writer| - 1, Written(prim, s.fwd.writer, 0, |s.fwd.writer| - 1, m).plain)];
  }

  /**
   A cell that the client sends is for the last hop. The digest in it is the front of the hash over
   that hop's seed, all cells sent to the hop so far, and this one with its digest octets zero.
  */
  lemma SentDigest(prim: Primitives, es: seq<Event>, s: Circuit, m: Message)
    requires IsRun(prim, NO_CIRCUIT, es, s) && Secrets(es) != [] && m.Fits()
    ensures Enabled(s, Send(m)) && |Secrets(es)[|Secrets(es)| - 1]| == 72
    ensures exists p | |p| == 509 ::
              var last := |Secrets(es)| - 1;
              && Step(prim, s, Send(m)).fwd.sent == s.fwd.sent + [Note(last, p)]
              && p[5..9] == prim.sha1(Secrets(es)[last][..20] + History(Of(s.fwd.sent, last)) + Cleared(p))[..4]
  {
    var last := |Secrets(es)| - 1;
    ClientLayers(prim, es, s, last);
    var l := s.fwd.writer[last];
    var p := Stamp(prim, l, m.num, m.streamId, m.payload);
    StampDigest(prim, l, m);
    SendAdds(prim, s, m);
    assert |p| == 509 && Step(prim, s, Send(m)).fwd.sent == s.fwd.sent + [Note(last, p)];
  }
}
