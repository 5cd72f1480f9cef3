/** When a consensus document counts as signed by the directory authorities, and which one is in force. */
module Quorum {
  import opened Sequences
  import DiffText

  /** A directory with a v3 identity has been given the v3 authority flag with it. */
  datatype Directory = Directory(v3ident: Option<string>, flagged: bool) {
    predicate V3() {
      v3ident.Some? || flagged
    }
  }

  datatype Signature = Signature(identity: string, algorithm: string, keyDigest: string, value: string)

  /** `text` is the raw document with its own digest, which diffs refer to. */
  datatype Document = Document(voters: seq<string>, signatures: seq<Signature>, digests: map<string, string>,
                               text: DiffText.Consensus)

  /** Certificates: signing keys by identity. */
  type Certs = map<string, string>

  /** The RSA check of a signature over a digest, by key. */
  type RsaVerify = (string, string, string) -> bool

  // ---- the directory list ----

  function Find(ds: seq<Directory>, identity: string): (d: Option<Directory>)
    ensures d.Some? <==> exists i | 0 <= i < |ds| :: ds[i].v3ident == Some(identity)
    ensures d.Some? ==> d.value in ds && d.value.v3ident == Some(identity)
  {
    if ds == [] then None
    else if ds[0].v3ident == Some(identity) then Some(ds[0])
    else
      assert ds == [ds[0]] + ds[1..];
      Find(ds[1..], identity)
  }

  function CountV3(ds: seq<Directory>): (n: nat) {
    if ds == [] then 0 else (if ds[0].V3() then 1 else 0) + CountV3(ds[1..])
  }

  /** The first signature of an identity. */
  function FindSignature(ss: seq<Signature>, identity: string): (s: Option<Signature>)
    ensures s.Some? ==> s.value in ss && s.value.identity == identity
  {
    if ss == [] then None else if ss[0].identity == identity then Some(ss[0]) else FindSignature(ss[1..], identity)
  }

  // ---- what one voter contributes ----

  datatype Trust = Trust(authorities: seq<Directory>, certs: Certs, rsa: RsaVerify)

  datatype Verdict = Skipped | Unsigned(ident: (string, string)) | Signed(ident: (string, string)) | Raises

  /**
   A document without any signature has no list of them, and the look-up itself fails; so does the
   check of a signature with an algorithm that the document has no digest for.
  */
  function Judge(t: Trust, doc: Document, voter: string): (v: Verdict) {
    if doc.signatures == [] then Raises
    else
      match FindSignature(doc.signatures, voter)
      case None => Skipped
      case Some(s) =>
        var ident := (s.identity, s.keyDigest);
        if Find(t.authorities, s.identity).None? then Skipped
        else if s.identity !in t.certs then Unsigned(ident)
        else if s.algorithm !in doc.digests then Raises
        else if t.rsa(t.certs[s.identity], s.value, doc.digests[s.algorithm]) then Signed(ident)
        else Unsigned(ident)
  }

  predicate Signs(t: Trust, doc: Document, voter: string) {
    Judge(t, doc, voter).Signed?
  }

  /** How many of the document's voters sign it; a voter listed twice counts twice. */
  function CountSigned(t: Trust, doc: Document, voters: seq<string>): (n: nat) {
    if voters == [] then 0
    else
      var n := |voters| - 1;
      CountSigned(t, doc, voters[..n]) + (if Signs(t, doc, voters[n]) then 1 else 0)
  }

  /** Whose certificates are worth fetching: the known voters with a signature, in order. */
  function Idents(t: Trust, doc: Document, voters: seq<string>): (ids: seq<(string, string)>) {
    if voters == [] then []
    else
      var n := |voters| - 1;
      var v := Judge(t, doc, voters[n]);
      Idents(t, doc, voters[..n]) + (if v.Signed? || v.Unsigned? then [v.ident] else [])
  }

  /** So does the loop over the voters of a document that lists none. */
  ghost predicate Raising(t: Trust, doc: Document) {
    doc.voters == [] || exists i | 0 <= i < |doc.voters| :: Judge(t, doc, doc.voters[i]).Raises?
  }

  /** More than half of the v3 authorities, by the count of voters that sign. */
  ghost predicate Accepts(t: Trust, doc: Document) {
    !Raising(t, doc) && CountSigned(t, doc, doc.voters) > CountV3(t.authorities) / 2
  }

  // ---- the same in terms of signatures, certificates and the RSA check ----

  /** The signature that a look-up by identity comes upon. */
  ghost predicate FirstSignature(ss: seq<Signature>, identity: string, i: nat) {
    i < |ss| && ss[i].identity == identity && forall j | 0 <= j < i :: ss[j].identity != identity
  }

  ghost predicate IsAuthority(ds: seq<Directory>, identity: string) {
    exists i | 0 <= i < |ds| :: ds[i].v3ident == Some(identity)
  }

  /** The RSA check passes with the certificate of the signature's identity, over the digest that it names. */
  predicate Passes(t: Trust, doc: Document, s: Signature) {
    && s.identity in t.certs && s.algorithm in doc.digests
    && t.rsa(t.certs[s.identity], s.value, doc.digests[s.algorithm])
  }

  ghost predicate ValidlySigned(t: Trust, doc: Document, identity: string) {
    exists i: nat :: FirstSignature(doc.signatures, identity, i) && Passes(t, doc, doc.signatures[i])
  }

  lemma {:induction false} FindSignatureIs(ss: seq<Signature>, identity: string, i: nat)
    requires FirstSignature(ss, identity, i)
    ensures FindSignature(ss, identity) == Some(ss[i])
  {
    if i > 0 {
      assert ss[0].identity != identity;
      assert FirstSignature(ss[1..], identity, i - 1);
      FindSignatureIs(ss[1..], identity, i - 1);
    }
  }

  lemma {:induction false} FoundSignature(ss: seq<Signature>, identity: string) returns (i: nat)
    requires FindSignature(ss, identity).Some?
    ensures FirstSignature(ss, identity, i) && ss[i] == FindSignature(ss, identity).value
  {
    i := 0;
    if ss[0].identity != identity {
      var k := FoundSignature(ss[1..], identity);
      i := k + 1;
      forall j | 0 <= j < i
        ensures ss[j].identity != identity
      {
        assert j > 0 ==> ss[j] == ss[1..][j - 1];
      }
    }
  }

  /** A voter counts if and only if it is an authority whose signature passes the RSA check. */
  lemma SignsIff(t: Trust, doc: Document, voter: string)
    ensures Signs(t, doc, voter) <==> IsAuthority(t.authorities, voter) && ValidlySigned(t, doc, voter)
  {
    if FindSignature(doc.signatures, voter).Some? {
      var i := FoundSignature(doc.signatures, voter);
      forall k: nat | FirstSignature(doc.signatures, voter, k)
        ensures doc.signatures[k] == doc.signatures[i]
      {
        FindSignatureIs(doc.signatures, voter, k);
      }
      if Signs(t, doc, voter) {
        assert FirstSignature(doc.signatures, voter, i) && Passes(t, doc, doc.signatures[i]);
      }
    } else {
      forall k: nat
        ensures !FirstSignature(doc.signatures, voter, k)
      {
        if FirstSignature(doc.signatures, voter, k) {
          FindSignatureIs(doc.signatures, voter, k);
        }
      }
    }
  }

  /** The voters of a document that are authorities with a signature that passes. */
  ghost function Signers(t: Trust, doc: Document): (s: set<string>) {
    set v | v in doc.voters && IsAuthority(t.authorities, v) && ValidlySigned(t, doc, v)
  }

  /** How many of the directories are v3 authorities. */
  ghost function NumV3(ds: seq<Directory>): (n: nat) {
    |set i | 0 <= i < |ds| && (ds[i].v3ident.Some? || ds[i].flagged)|
  }

  lemma {:induction false} CountV3Snoc(ds: seq<Directory>, d: Directory)
    ensures CountV3(ds + [d]) == CountV3(ds) + (if d.v3ident.Some? || d.flagged then 1 else 0)
  {
    if ds == [] {
      assert [] + [d] == [d] && [d][1..] == [];
    } else {
      assert (ds + [d])[1..] == ds[1..] + [d];
      CountV3Snoc(ds[1..], d);
    }
  }

  lemma {:induction false} CountV3Is(ds: seq<Directory>)
    ensures CountV3(ds) == NumV3(ds)
  {
    if ds != [] {
      var n := |ds| - 1;
      var front, d := ds[..n], ds[n];
      assert ds == front + [d];
      CountV3Snoc(front, d);
      CountV3Is(front);
      var all := set i | 0 <= i < |ds| && (ds[i].v3ident.Some? || ds[i].flagged);
      var before := set i | 0 <= i < |front| && (front[i].v3ident.Some? || front[i].flagged);
      assert all == if d.v3ident.Some? || d.flagged then before + {n} else before;
    }
  }

  // ---- one renewal ----

  /** What a directory answers, as far as it parses. */
  datatype Received = Whole(doc: Document) | Delta(diff: DiffText.Diff) | Unknown

  /** The parser of consensus texts, None where it raises, and the hex digest of a text. */
  datatype Reading = Reading(parse: string -> Option<Document>, sha3: string -> string)

  /** The document that an answer stands for; a diff stands for none without its own base, or if it misses its digest. */
  function Candidate(rd: Reading, current: Option<Document>, a: Received): (d: Option<Document>) {
    match a
    case Unknown => None
    case Whole(doc) => Some(doc)
    case Delta(diff) =>
      if current.None? || !diff.Named() || diff.actions == [] then None
      else if current.value.text.digest != DiffText.Lower(diff.fromDigest.value) then None
      else
        var raw := DiffText.Patched(current.value.text.raw, diff.actions);
        if rd.sha3(raw) != DiffText.Lower(diff.toDigest.value) then None else rd.parse(raw)
  }

  datatype State = State(certs: Certs, document: Option<Document>)

  /** `live` is what the clock makes of the current document; `fetched` are the certificates that a fetch would get, if it gets any. */
  datatype Attempt = Attempt(force: bool, live: bool, received: Received, fetched: Option<Certs>)

  datatype Renewal = Kept | Renewed | Raised

  ghost function Renewing(rd: Reading, t: Trust, s: State, a: Attempt): (r: (State, Renewal)) {
    if !a.force && s.document.Some? && a.live then (s, Kept)
    else
      var c := Candidate(rd, s.document, a.received);
      if c.None? || Raising(t.(certs := s.certs), c.value) then (s, Raised)
      else if Accepts(t.(certs := s.certs), c.value) then (s.(document := c), Renewed)
      else if a.fetched.None? then (s, Raised)
      else if Accepts(t.(certs := a.fetched.value), c.value) then (State(a.fetched.value, c), Renewed)
      else (s.(certs := a.fetched.value), Raised)
  }

  // ---- the consensus object ----

  datatype Check = Checked(verified: bool, idents: seq<(string, string)>) | Failed

  class TorConsensus {
    const authorities: seq<Directory>
    const rsa: RsaVerify
    var certs: Certs
    var document: Option<Document>

    function Trusted(certs: Certs): (t: Trust) {
      Trust(authorities, certs, rsa)
    }

    constructor (authorities: seq<Directory>, rsa: RsaVerify, certs: Certs, document: Option<Document>)
      ensures this.authorities == authorities && this.rsa == rsa && this.certs == certs && this.document == document
    {
      this.authorities, this.rsa, this.certs, this.document := authorities, rsa, certs, document;
    }

    /** The loop over the voters; it ends at the first that raises. */
    method Tally(doc: Document) returns (failed: bool, signed: nat, idents: seq<(string, string)>)
      ensures failed <==> exists i | 0 <= i < |doc.voters| :: Judge(Trusted(certs), doc, doc.voters[i]).Raises?
      ensures !failed ==> signed == CountSigned(Trusted(certs), doc, doc.voters)
      ensures !failed ==> idents == Idents(Trusted(certs), doc, doc.voters)
    {
      var t := Trusted(certs);
      signed, idents := 0, [];
      for i := 0 to |doc.voters|
        invariant signed == CountSigned(t, doc, doc.voters[..i]) && idents == Idents(t, doc, doc.voters[..i])
        invariant forall k | 0 <= k < i :: !Judge(t, doc, doc.voters[k]).Raises?
      {
        assert doc.voters[..i + 1][..i] == doc.voters[..i];
        var v := Judge(t, doc, doc.voters[i]);
        if v.Raises? {
          return true, signed, idents;
        }
        if v.Signed? {
          signed := signed + 1;
        }
        if !v.Skipped? {
          idents := idents + [v.ident];
        }
      }
      assert doc.voters[..|doc.voters|] == doc.voters;
      failed := false;
    }

    /** With no voter repeated: accepted if and only if more than half of the v3 authorities have signed validly. */
    method Verify(doc: Document) returns (r: Check)
      ensures r.Failed? <==> Raising(Trusted(certs), doc)
      ensures r.Checked? ==> (r.verified <==> Accepts(Trusted(certs), doc))
      ensures r.Checked? ==> r.idents == Idents(Trusted(certs), doc, doc.voters)
      ensures r.Checked? && NoRepeats(doc) ==>
        (r.verified <==> 2 * |Signers(Trusted(certs), doc)| > NumV3(authorities))
    {
      if doc.voters == [] {
        return Failed;
      }
      var failed, signed, idents := Tally(doc);
      if failed {
        return Failed;
      }
      MajorityDecides(Trusted(certs), doc);
      return Checked(signed > CountV3(authorities) / 2, idents);
    }

    function Now(): (s: State)
      reads this
    {
      State(certs, document)
    }

    /** The answer as a document, a diff by editing the current one. */
    method Build(rd: Reading, a: Received) returns (d: Option<Document>)
      ensures d == Candidate(rd, document, a)
    {
      match a
      case Unknown => return None;
      case Whole(doc) => return Some(doc);
      case Delta(diff) =>
        if document.None? {
          return None;
        }
        var r := DiffText.ApplyDiff(document.value.text, diff, rd.sha3);
        return if r.New? then rd.parse(r.raw) else None;
    }

    /** A live document is kept; another answer replaces it only when it is accepted, if need be with fetched certificates. */
    method Renew(rd: Reading, a: Attempt) returns (r: Renewal)
      modifies this
      ensures (Now(), r) == Renewing(rd, Trusted(old(certs)), old(Now()), a)
    {
      if !a.force && document.Some? && a.live {
        return Kept;
      }
      var doc := Build(rd, a.received);
      if doc.None? {
        return Raised;
      }
      var check := Verify(doc.value);
      if check.Failed? {
        return Raised;
      }
      if !check.verified {
        if a.fetched.None? {
          return Raised;
        }
        certs := a.fetched.value;
        check := Verify(doc.value);
        if check.Failed? || !check.verified {
          return Raised;
        }
      }
      document := doc;
      return Renewed;
    }
  }

  // ---- any number of renewals ----

  ghost function After(rd: Reading, t: Trust, s: State, run: seq<Attempt>): (s': State)
    decreases |run|
  {
    if run == [] then s else After(rd, t, Renewing(rd, t, s, run[0]).0, run[1..])
  }

  /** The certificates that were ever at hand. */
  function AtHand(s: State, run: seq<Attempt>): (cs: seq<Certs>) {
    [s.certs] + seq(|run|, i requires 0 <= i < |run| => if run[i].fetched.Some? then run[i].fetched.value else s.certs)
  }

  ghost predicate Accepted(t: Trust, cs: seq<Certs>, doc: Document) {
    exists i | 0 <= i < |cs| :: Accepts(t.(certs := cs[i]), doc)
  }

  ghost predicate SignedBy(t: Trust, cs: seq<Certs>, doc: Document, x: string) {
    exists i | 0 <= i < |cs| :: ValidlySigned(t.(certs := cs[i]), doc, x)
  }

  lemma AtHandLater(rd: Reading, t: Trust, s: State, run: seq<Attempt>, doc: Document)
    requires run != [] && Accepted(t, AtHand(Renewing(rd, t, s, run[0]).0, run[1..]), doc)
    ensures Accepted(t, AtHand(s, run), doc)
  {
    var u, cs := Renewing(rd, t, s, run[0]).0, AtHand(s, run);
    var later := AtHand(u, run[1..]);
    var i :| 0 <= i < |later| && Accepts(t.(certs := later[i]), doc);
    var k := if i > 0 && run[i].fetched.Some? then i + 1 else if u.certs == s.certs then 0 else 1;
    assert i > 0 ==> run[1..][i - 1] == run[i];
    assert cs[k] == later[i];
  }

  /**
   Whatever directories answer, the document in force is the one from the start, or one that was
   accepted with certificates at hand.
  */
  lemma {:induction false} InForceAccepted(rd: Reading, t: Trust, s: State, run: seq<Attempt>)
    ensures var s' := After(rd, t, s, run);
            s'.document == s.document || (s'.document.Some? && Accepted(t, AtHand(s, run), s'.document.value))
    decreases |run|
  {
    if run != [] {
      var u, s' := Renewing(rd, t, s, run[0]).0, After(rd, t, s, run);
      InForceAccepted(rd, t, u, run[1..]);
      if s'.document != u.document {
        AtHandLater(rd, t, s, run, s'.document.value);
      } else if u.document != s.document {
        var cs := AtHand(s, run);
        assert cs[0] == s.certs && (run[0].fetched.Some? ==> cs[1] == run[0].fetched.value);
      }
    }
  }

  /** No voter that has a signature is listed twice. */
  predicate NoRepeats(doc: Document) {
    forall i, j, k | 0 <= i < j < |doc.voters| && 0 <= k < |doc.signatures| ::
      doc.signatures[k].identity == doc.voters[j] ==> doc.voters[i] != doc.voters[j]
  }

  lemma NoneTwice(t: Trust, doc: Document)
    requires NoRepeats(doc)
    ensures Once(Signers(t, doc), doc.voters)
  {
  }

  /** Any two documents that were in force after a start without one share an authority that signed both. */
  lemma AnyTwoShareSigner(rd: Reading, t: Trust, s: State, a: seq<Attempt>, b: seq<Attempt>, d: Document, e: Document)
    returns (x: string)
    requires s.document.None? && NoRepeats(d) && NoRepeats(e)
    requires After(rd, t, s, a).document == Some(d) && After(rd, t, s, b).document == Some(e)
    ensures IsAuthority(t.authorities, x)
    ensures SignedBy(t, AtHand(s, a), d, x) && SignedBy(t, AtHand(s, b), e, x)
  {
    InForceAccepted(rd, t, s, a);
    InForceAccepted(rd, t, s, b);
    var cs, cs' := AtHand(s, a), AtHand(s, b);
    var i :| 0 <= i < |cs| && Accepts(t.(certs := cs[i]), d);
    var j :| 0 <= j < |cs'| && Accepts(t.(certs := cs'[j]), e);
    NoneTwice(t.(certs := cs[i]), d);
    NoneTwice(t.(certs := cs'[j]), e);
    x := AcceptedShareSigner(t.(certs := cs[i]), cs'[j], d, e);
    assert t.(certs := cs[i]).(certs := cs'[j]) == t.(certs := cs'[j]);
  }

  /** What comes of one renewal. */
  lemma WhatRenews(rd: Reading, t: Trust, s: State, a: Attempt)
    ensures var (s', r) := Renewing(rd, t, s, a);
            && (r == Kept <==> s.document.Some? && a.live && !a.force)
            && (r != Renewed ==> s'.document == s.document)
            && (s'.certs == s.certs || Some(s'.certs) == a.fetched)
            && (r == Renewed ==>
                  && s'.document.Some? && Accepts(t.(certs := s'.certs), s'.document.value)
                  && Answers(rd, s.document, a.received, s'.document.value))
    ensures var (s', r) := Renewing(rd, t, s, a);
            forall d | r != Kept && Answers(rd, s.document, a.received, d) && Accepts(t.(certs := s.certs), d) ::
              r == Renewed && s' == s.(document := Some(d))
    ensures var (s', r) := Renewing(rd, t, s, a);
            forall d | r != Kept && Answers(rd, s.document, a.received, d) && !Accepts(t.(certs := s.certs), d)
                       && !Raising(t.(certs := s.certs), d) && a.fetched.Some? ::
              && s'.certs == a.fetched.value
              && (r == Renewed <==> Accepts(t.(certs := a.fetched.value), d))
  {
  }

  /** A whole document, or the outcome of a diff whose base is the document in force and whose digest is right. */
  ghost predicate Answers(rd: Reading, current: Option<Document>, a: Received, d: Document) {
    match a
    case Unknown => false
    case Whole(doc) => d == doc
    case Delta(diff) =>
      && current.Some? && diff.fromDigest.Some? && diff.toDigest.Some? && diff.actions != []
      && current.value.text.digest == DiffText.Lower(diff.fromDigest.value)
      && var raw := DiffText.Patched(current.value.text.raw, diff.actions);
         rd.sha3(raw) == DiffText.Lower(diff.toDigest.value) && rd.parse(raw) == Some(d)
  }

  // ---- counting voters and counting authorities ----

  function CountIn(s: set<string>, voters: seq<string>): (n: nat) {
    if voters == [] then 0
    else
      var n := |voters| - 1;
      CountIn(s, voters[..n]) + (if voters[n] in s then 1 else 0)
  }

  lemma {:induction false} CountsSigners(t: Trust, doc: Document, voters: seq<string>)
    requires forall i | 0 <= i < |voters| :: voters[i] in doc.voters
    ensures CountSigned(t, doc, voters) == CountIn(Signers(t, doc), voters)
  {
    if voters != [] {
      var n := |voters| - 1;
      CountsSigners(t, doc, voters[..n]);
      SignsIff(t, doc, voters[n]);
    }
  }

  ghost function Members(s: set<string>, voters: seq<string>): (m: set<string>) {
    set v | v in voters && v in s
  }

  ghost predicate Once(s: set<string>, voters: seq<string>) {
    forall i, j | 0 <= i < j < |voters| && voters[j] in s :: voters[i] != voters[j]
  }

  lemma OnceSnoc(s: set<string>, front: seq<string>, v: string)
    ensures Once(s, front + [v]) <==> Once(s, front) && (v in s ==> v !in front)
  {
    var voters, n := front + [v], |front|;
    assert forall i | 0 <= i < n :: voters[i] == front[i];
    if v in s && v in front {
      var i :| 0 <= i < n && front[i] == v;
      assert voters[i] == voters[n];
    }
    if Once(s, front) && (v in s ==> v !in front) {
      forall i, j | 0 <= i < j < |voters| && voters[j] in s
        ensures voters[i] != voters[j]
      {
        assert voters[i] == front[i] && (j < n ==> voters[j] == front[j]);
      }
    }
  }

  lemma MembersSnoc(s: set<string>, front: seq<string>, v: string)
    ensures Members(s, front + [v]) == if v in s then Members(s, front) + {v} else Members(s, front)
  {
  }

  lemma {:induction false} CountAtLeast(s: set<string>, voters: seq<string>)
    ensures CountIn(s, voters) >= |Members(s, voters)|
    ensures CountIn(s, voters) == |Members(s, voters)| <==> Once(s, voters)
  {
    if voters != [] {
      var n := |voters| - 1;
      var front, v := voters[..n], voters[n];
      assert voters == front + [v];
      CountAtLeast(s, front);
      OnceSnoc(s, front, v);
      MembersSnoc(s, front, v);
      assert v in s ==> (v in front <==> v in Members(s, front));
    }
  }

  /** The count is the number of signers exactly when no signer is listed twice. */
  lemma CountIsSigners(t: Trust, doc: Document)
    ensures CountSigned(t, doc, doc.voters) == |Signers(t, doc)| <==> Once(Signers(t, doc), doc.voters)
    ensures CountSigned(t, doc, doc.voters) >= |Signers(t, doc)|
  {
    CountsSigners(t, doc, doc.voters);
    CountAtLeast(Signers(t, doc), doc.voters);
    assert Members(Signers(t, doc), doc.voters) == Signers(t, doc);
  }

  ghost function Identities(ds: seq<Directory>): (s: set<string>) {
    set d | d in ds && d.v3ident.Some? :: d.v3ident.value
  }

  lemma {:induction false} FewIdentities(ds: seq<Directory>)
    ensures |Identities(ds)| <= CountV3(ds)
  {
    if ds != [] {
      FewIdentities(ds[1..]);
      assert ds == [ds[0]] + ds[1..];
      if ds[0].v3ident.Some? {
        assert Identities(ds) == Identities(ds[1..]) + {ds[0].v3ident.value};
      } else {
        assert Identities(ds) == Identities(ds[1..]);
      }
    }
  }

  lemma SignersAreAuthorities(t: Trust, doc: Document)
    ensures Signers(t, doc) <= Identities(t.authorities)
  {
    forall v | v in Signers(t, doc)
      ensures v in Identities(t.authorities)
    {
      var i :| 0 <= i < |t.authorities| && t.authorities[i].v3ident == Some(v);
      assert t.authorities[i] in t.authorities;
    }
  }

  lemma SetsMeet(a: set<string>, b: set<string>, u: set<string>) returns (x: string)
    requires a <= u && b <= u && |a| + |b| > |u|
    ensures x in a && x in b
  {
    if a !! b {
      Fit(a + b, u);
      assert false;
    }
    x :| x in a && x in b;
  }

  lemma Fit(a: set<string>, u: set<string>)
    requires a <= u
    ensures |a| <= |u|
  {
    assert u == a + (u - a);
  }

  /** Voters listed once each: an accepted document has valid signatures of more than half of the v3 authorities. */
  lemma MajoritySigns(t: Trust, doc: Document)
    requires Accepts(t, doc) && Once(Signers(t, doc), doc.voters)
    ensures Signers(t, doc) <= Identities(t.authorities)
    ensures 2 * |Signers(t, doc)| > NumV3(t.authorities) >= |Identities(t.authorities)|
  {
    CountIsSigners(t, doc);
    SignersAreAuthorities(t, doc);
    FewIdentities(t.authorities);
    CountV3Is(t.authorities);
  }

  /** And such signatures of more than half are enough, however the voters are listed. */
  lemma MajorityAccepted(t: Trust, doc: Document)
    requires !Raising(t, doc) && 2 * |Signers(t, doc)| > NumV3(t.authorities)
    ensures Accepts(t, doc)
  {
    CountIsSigners(t, doc);
    CountV3Is(t.authorities);
  }

  lemma MajorityDecides(t: Trust, doc: Document)
    requires !Raising(t, doc)
    ensures NoRepeats(doc) ==> (Accepts(t, doc) <==> 2 * |Signers(t, doc)| > NumV3(t.authorities))
  {
    if NoRepeats(doc) && Accepts(t, doc) {
      NoneTwice(t, doc);
      MajoritySigns(t, doc);
    } else if 2 * |Signers(t, doc)| > NumV3(t.authorities) {
      MajorityAccepted(t, doc);
    }
  }

  /** A voter whose certificate is worth fetching: an authority that has a signature. */
  lemma IdentIff(t: Trust, doc: Document, voter: string, i: nat)
    requires FirstSignature(doc.signatures, voter, i) && !Judge(t, doc, voter).Raises?
    ensures Idents(t, doc, [voter]) ==
      if IsAuthority(t.authorities, voter) then [(voter, doc.signatures[i].keyDigest)] else []
  {
    FindSignatureIs(doc.signatures, voter, i);
    assert [voter][..0] == [] && Idents(t, doc, []) == [];
  }

  /**
   The check fails for a document without voters or without signatures, and for one with a voter
   that is an authority with a certificate and a signature over a digest that was not made.
  */
  lemma RaisingIff(t: Trust, doc: Document)
    ensures Raising(t, doc) <==>
      || doc.voters == [] || doc.signatures == []
      || exists v, i: nat :: NoDigest(t, doc, v, i)
  {
    if i: nat, v :| NoDigest(t, doc, v, i) {
      FindSignatureIs(doc.signatures, v, i);
      JudgeRaises(t, doc, v);
    } else if Raising(t, doc) && doc.voters != [] && doc.signatures != [] {
      var k :| 0 <= k < |doc.voters| && Judge(t, doc, doc.voters[k]).Raises?;
      var i := FoundSignature(doc.signatures, doc.voters[k]);
      assert NoDigest(t, doc, doc.voters[k], i);
    } else if doc.signatures == [] && doc.voters != [] {
      assert Judge(t, doc, doc.voters[0]).Raises?;
    }
  }

  ghost predicate NoDigest(t: Trust, doc: Document, v: string, i: nat) {
    && v in doc.voters && IsAuthority(t.authorities, v) && v in t.certs
    && FirstSignature(doc.signatures, v, i) && doc.signatures[i].algorithm !in doc.digests
  }

  lemma JudgeRaises(t: Trust, doc: Document, v: string)
    requires v in doc.voters && Judge(t, doc, v).Raises?
    ensures Raising(t, doc)
  {
    var k :| 0 <= k < |doc.voters| && doc.voters[k] == v;
    assert Judge(t, doc, doc.voters[k]).Raises?;
  }

  /** Any two accepted documents, whatever certificates each was checked with, have valid signatures of one authority. */
  lemma AcceptedShareSigner(t: Trust, certs: Certs, a: Document, b: Document) returns (x: string)
    requires Accepts(t, a) && Once(Signers(t, a), a.voters)
    requires var u := t.(certs := certs); Accepts(u, b) && Once(Signers(u, b), b.voters)
    ensures IsAuthority(t.authorities, x)
    ensures ValidlySigned(t, a, x) && ValidlySigned(t.(certs := certs), b, x)
  {
    MajoritySigns(t, a);
    MajoritySigns(t.(certs := certs), b);
    x := SetsMeet(Signers(t, a), Signers(t.(certs := certs), b), Identities(t.authorities));
  }

  /** Listing one signer `n` times is worth `n` signers to the check. */
  lemma {:induction false} RepeatedVoter(t: Trust, doc: Document, voter: string, n: nat)
    requires IsAuthority(t.authorities, voter) && ValidlySigned(t, doc, voter)
    ensures CountSigned(t, doc, seq(n, _ => voter)) == n
  {
    if n > 0 {
      SignsIff(t, doc, voter);
      RepeatedVoter(t, doc, voter, n - 1);
      assert seq(n, _ => voter)[..n - 1] == seq(n - 1, _ => voter);
    }
  }
}
