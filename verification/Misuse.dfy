/** Two runs in which the queue and the accounts go wrong, each from a database in good order.  In
    the first a canonized id is submitted once more, under its own certificate; in the second a
    certificate names another transaction than its own. */
module Misuse {
  import opened Ids
  import opened Ledger
  import opened Canonization
  import opened QueueShape
  import opened Protocol
  import opened Conversation
  import opened Safety
  import opened Theorems
  import opened Accounts
  import opened Contexts
  import opened Rounds
  import opened Stalled
  import opened Pipeline
  import opened ControlPackets
  import opened Attestation

  /** Some schedule leads from one state to the other. */
  ghost predicate Leads(s: Sys, t: Sys) {
    exists steps :: Exec(s, steps) == t
  }

  lemma LeadsByRun(s: Sys, steps: seq<Step>)
    ensures Leads(s, Exec(s, steps))
  {}

  lemma LeadsByStep(s: Sys, step: Step)
    requires Enabled(s, step)
    ensures Leads(s, Apply(s, step))
  {
    ExecCons(s, step, []);
    assert Exec(s, [step] + []) == Apply(s, step);
  }

  lemma LeadsOn(s: Sys, t: Sys, u: Sys)
    requires Leads(s, t) && Leads(t, u)
    ensures Leads(s, u)
  {
    var a :| Exec(s, a) == t;
    var b :| Exec(t, b) == u;
    ExecAppend(s, a, b);
  }

  lemma ReachableLeads(s: Sys, t: Sys)
    requires Reachable(s) && Leads(s, t)
    ensures Reachable(t)
  {
    var attesting, store, submitted, dropped, setup, steps :|
      GoodStart(attesting, store, submitted, dropped)
      && s == Exec(Begin(attesting, store, submitted, dropped, setup), steps);
    var more :| Exec(s, more) == t;
    ExecAppend(Begin(attesting, store, submitted, dropped, setup), steps, more);
  }

  // ---------- steps of the attestation service ----------

  /** It wakes up and reads the head. */
  lemma WakesUp(s: Sys)
    requires Plain(s.store.queue) && s.attesting && s.att.Asleep? && s.store.queue != []
    requires s.store.queue[0].state == Submitted && s.store.queue[0].cert.bytes != []
    ensures Leads(s, s.(att := At(s.store.queue[0], NextKey(s.store.queue, 0))))
  {
    var t := HeadRead(s);
    LeadsByStep(s, Waking);
    LeadsByStep(Wake(s), Reading);
    LeadsOn(s, Wake(s), t);
  }

  /** The state after it has accepted position `p`. */
  function TakenIn(s: Sys, p: nat): Sys
    requires p < |s.store.queue|
  {
    WithQueue(s, PromotedAt(s.store.queue, p)).(
      att := if p + 1 == |s.store.queue| then Asleep else Fetching(s.store.queue[p + 1].key, false))
  }

  lemma TakesIn(s: Sys, p: nat)
    requires Plain(s.store.queue) && p < |s.store.queue|
    requires s.att == At(s.store.queue[p], NextKey(s.store.queue, p))
    ensures Leads(s, TakenIn(s, p))
  {
    JudgeIs(s, p, true, true);
    assert s.log.dropped + {} == s.log.dropped;
    LeadsByStep(s, Judging(true, true));
  }

  lemma ReadsOn(s: Sys, p: nat)
    requires Plain(s.store.queue) && p < |s.store.queue| && s.att == Fetching(s.store.queue[p].key, false)
    requires s.store.queue[p].cert.bytes != []
    ensures Leads(s, s.(att := At(s.store.queue[p], NextKey(s.store.queue, p))))
  {
    ReadIs(s, p);
    LeadsByStep(s, Reading);
  }

  // ---------- a canonized id comes back ----------

  /** Two transactions, the first attested and ready for the chain, under certificates that name
      them. */
  predicate ReadyAndWaiting(a: Entry, b: Entry) {
    && a.key != b.key && EntryOk(a) && EntryOk(b)
    && a.state == Attested && b.state == Submitted
    && a.cert.Complete() && a.cert.prev.value == Zero
  }

  lemma TwoGood(a: Entry, b: Entry)
    requires ReadyAndWaiting(a, b)
    ensures GoodStart(true, Store([a, b], []), [a.key, b.key], {}) && EntriesOk([a, b])
    ensures Front([a, b]) == 1 && Drainable(Store([a, b], []), 1)
  {
    TwoConserved(a, b);
    FrontAtLeast([a, b], 1);
    assert Ready(Store([a, b], []), 0);
  }

  /** The attestation service has looked up the head, and a round begins. */
  lemma HeadLookedUp(a: Entry, b: Entry, setup: Setup) returns (s: Sys)
    requires ReadyAndWaiting(a, b)
    ensures Reachable(s) && AtStart(s) && s.store == Store([a, b], [])
    ensures s.attesting && s.att == Fetching(a.key, true)
  {
    var s0 := Begin(true, Store([a, b], []), [a.key, b.key], {}, setup);
    TwoGood(a, b);
    BeginIsReachable(true, Store([a, b], []), [a.key, b.key], {}, setup);
    ReachableStep(s0, Waking);
    s := RoundBegins(Wake(s0));
  }

  /** The round canonizes it. */
  lemma HeadCanonized(s: Sys, a: Entry, b: Entry) returns (t: Sys)
    requires AtStart(s) && s.store == Store([a, b], []) && ReadyAndWaiting(a, b)
    ensures Leads(s, t) && t.attesting == s.attesting && t.att == s.att
    ensures t.store.queue == [b] && CertIds(History(t.store.chain)) == [a.key]
  {
    var id, sig := Id(0), ZeroSignature();
    TwoGood(a, b);
    QuietRound(s, id, sig);
    HeadWritten(s, a, b, id, sig);
    t := LeadsToEnd(s, id, sig);
  }

  lemma LeadsToEnd(s: Sys, id: Uuid, sig: seq<byte>) returns (t: Sys)
    requires Inv(s) && !s.armed && |sig| == SIGNATURE_SIZE
    ensures t == Finish(s, id, sig) && Leads(s, t)
  {
    var steps := FinishIsARun(s, id, sig);
    LeadsByRun(s, steps);
    t := Finish(s, id, sig);
  }

  lemma HeadWritten(s: Sys, a: Entry, b: Entry, id: Uuid, sig: seq<byte>)
    requires Inv(s) && s.store == Store([a, b], []) && ReadyAndWaiting(a, b)
    requires SaneBlockId(id) && |sig| == SIGNATURE_SIZE
    ensures var t := Write(s.store, id, RoundBlock(s.store, 1, id, sig, s.canon.signer));
      t.queue == [b] && CertIds(History(t.chain)) == [a.key]
  {
    TwoGood(a, b);
    RoundBlockAccepted(s.store, s.log.submitted, s.log.dropped, 1, id, sig, s.canon.signer);
    OnlyBlock(a, b, BlockOf(RoundBlock(s.store, 1, id, sig, s.canon.signer)));
  }

  lemma OnlyBlock(a: Entry, b: Entry, blk: Block)
    requires CertIds(blk.certs) == Keys([a, b][..1])
    ensures [a, b][1..] == [b] && CertIds(History([] + [blk])) == [a.key]
  {
    HistoryAppend([], blk);
    assert [a, b][..1] == [a] && History([]) + blk.certs == blk.certs;
  }

  /** It is submitted again, and found and attested behind the other transaction. */
  lemma ComesBack(s: Sys, a: Entry, b: Entry) returns (t: Sys)
    requires ReadyAndWaiting(a, b) && s.attesting && s.att == Fetching(a.key, true) && s.store.queue == [b]
    ensures Leads(s, t) && t.attesting && t.att.Asleep? && t.store.queue == [b, a] && t.store.chain == s.store.chain
  {
    var back := a.(state := Submitted);
    var s1 := Enter(s, a.key, a.artifact, a.cert);
    assert Keys([b]) == [b.key] && s1.store.queue == [b, back];
    TwoPlain(b, back);
    var s2 := s1.(att := At(back, Ones));
    LateRead(s1, b, back);
    LeadsByStep(s, Submitting(a.key, a.artifact, a.cert));
    LeadsByStep(s1, Reading);
    LeadsOn(s, s1, s2);
    TakesIn(s2, 1);
    t := TakenIn(s2, 1);
    assert PromotedAt([b, back], 1) == [b, a];
    LeadsOn(s, s2, t);
  }

  lemma TwoPlain(a: Entry, b: Entry)
    requires a.key != b.key && !Sentinel(a.key) && !Sentinel(b.key)
    ensures Plain([a, b]) && Keys([a, b]) == [a.key, b.key]
  {}

  lemma LateRead(s: Sys, b: Entry, back: Entry)
    requires s.store.queue == [b, back] && Plain([b, back]) && back.state == Submitted && back.cert.bytes != []
    ensures Read(s, back.key, true) == s.(att := At(back, Ones))
  {
    PositionAt([b, back], 1);
  }

  /** A transaction attested ahead of another, in a run whose certificates all name their own
      transactions. */
  lemma OutOfTurn(a: Entry, b: Entry, setup: Setup) returns (s: Sys)
    requires ReadyAndWaiting(a, b)
    ensures Reachable(s) && s.attesting && s.att.Asleep?
    ensures s.store.queue == [b, a] && !Shaped(s.store.queue)
  {
    var s0 := HeadLookedUp(a, b, setup);
    var s1 := HeadCanonized(s0, a, b);
    s := ComesBack(s1, a, b);
    LeadsOn(s0, s1, s);
    ReachableLeads(s0, s);
    assert s.store.queue[0].state != Attested && s.store.queue[1].state == Attested;
  }

  /** The attestation service comes to the attested transaction again. */
  lemma ComesToIt(s: Sys, a: Entry, b: Entry) returns (t: Sys)
    requires ReadyAndWaiting(a, b) && s.attesting && s.att.Asleep? && s.store.queue == [b, a]
    ensures Leads(s, t) && t.att == At(a, Ones) && t.store.queue == [b.(state := Attested), a]
  {
    var b' := b.(state := Attested);
    TwoPlain(b, a);
    TwoPlain(b', a);
    var s1 := s.(att := At(b, a.key));
    WakesUp(s);
    TakesIn(s1, 0);
    var s2 := TakenIn(s1, 0);
    assert s2.store.queue == [b', a];
    LeadsOn(s, s1, s2);
    ReadsOn(s2, 1);
    t := s2.(att := At(a, Ones));
    LeadsOn(s, s2, t);
  }

  /** And then it may drop it. */
  lemma AttestedDropped(a: Entry, b: Entry, setup: Setup) returns (s: Sys)
    requires ReadyAndWaiting(a, b)
    ensures Reachable(s) && s.att == At(a, Ones) && a.state == Attested
    ensures var b' := b.(state := Attested);
      s.store.queue == [b', a] && Judge(s, a, Ones, false, true).store.queue == [b']
  {
    var s0 := OutOfTurn(a, b, setup);
    s := ComesToIt(s0, a, b);
    ReachableLeads(s0, s);
    DropsSecond(b.(state := Attested), a);
  }

  lemma DropsSecond(b: Entry, a: Entry)
    requires a.key != b.key
    ensures Drop([b, a], a.key) == [b]
  {
    PositionAt([b, a], 1);
  }

  // ---------- a certificate that names another transaction ----------

  /** A limit of one transaction. */
  const ONE := Setup(1, [])

  /** A request is served and its response delivered. */
  lemma Exchange(s: Sys, query: Query, id: Uuid, sig: seq<byte>) returns (t: Sys)
    requires Base(s) && !s.canon.forceExit && s.asked == [query] && |sig| == SIGNATURE_SIZE
    requires !IsWrite(query) && !NeedsSecondRead(s.store.queue, query, Choice(true, id, 0))
    ensures Base(t) && Leads(s, t) && SameBefore(s, t)
    ensures var r := AnswerTo(s.store, query, id).1;
      && Handles(s.canon, r)
      && var o := OnResponse(s.canon, r, NO_FAULTS, sig);
         t.canon == o.c && t.asked == (if o.effect.Send? then [Asked(o.effect.request)] else [])
  {
    var choice := Choice(true, id, 0);
    LoneQuery(s);
    Answers(s, query, id);
    ServeBase(s, choice);
    var u := Serve(s, 0, choice);
    t := AnswerTaken(u, u.answered[0], sig);
    LeadsByStep(s, Serving(0, choice));
    LeadsOn(s, u, t);
  }

  lemma AnswerTaken(s: Sys, r: Response, sig: seq<byte>) returns (t: Sys)
    requires Base(s) && s.answered == [r] && s.asked == [] && !s.canon.forceExit && |sig| == SIGNATURE_SIZE
    ensures Base(t) && Leads(s, t) && SameBefore(s, t) && Handles(s.canon, r)
    ensures var o := OnResponse(s.canon, r, NO_FAULTS, sig);
      t.canon == o.c && t.asked == (if o.effect.Send? then [Asked(o.effect.request)] else [])
  {
    AnyResponse(s, r, NO_FAULTS, sig);
    CallbackSigner(s.canon, r, NO_FAULTS, sig);
    DeliverParts(s, r, NO_FAULTS, sig);
    DeliverBase(s, NO_FAULTS, sig);
    t := Deliver(s, 0, NO_FAULTS, sig);
    LeadsByStep(s, Delivering(0, NO_FAULTS, sig));
  }

  lemma TimerFires(s: Sys) returns (t: Sys)
    requires Base(s) && s.armed && s.canon == Start(ONE)
    ensures Base(t) && Leads(s, t) && SameBefore(s, t) && t.asked == [Asked(AskRandom)]
    ensures t.canon == Start(ONE).(list := Some([]), phase := WaitRandom)
  {
    TimerShape(s, NO_FAULTS);
    TimerBase(s, NO_FAULTS);
    t := FireTimer(s, NO_FAULTS);
    LeadsByStep(s, TimerFiring(NO_FAULTS));
  }

  lemma LatestAsked(s: Sys, id: Uuid, sig: seq<byte>) returns (t: Sys)
    requires Base(s) && s.armed && s.canon == Start(ONE) && |sig| == SIGNATURE_SIZE
    ensures Base(t) && Leads(s, t) && SameBefore(s, t) && t.asked == [Asked(AskLatest(0))]
    ensures t.canon == Start(ONE).(list := Some([]), phase := WaitLatestId, blockId := id)
  {
    var s1 := TimerFires(s);
    var s2 := Exchange(s1, Asked(AskRandom), id, sig);
    t := Exchange(s2, Asked(AskContext), id, sig);
    LeadsOn(s1, s2, t);
    LeadsOn(s, s1, t);
  }

  function HeadBlock(e: Entry, id: Uuid, sig: seq<byte>): BlockCert {
    BlockCert(Some(id), Some(Root), Some(1), ZeroSignature(), [e.cert], Some(sig), Some([]), Some(0))
  }

  /** A round with a limit of one asks for a block made of the head. */
  lemma HeadAsked(s: Sys, id: Uuid, sig: seq<byte>) returns (t: Sys)
    requires Base(s) && s.armed && s.canon == Start(ONE) && s.store.chain == [] && s.store.queue != []
    requires s.store.queue[0].state == Attested && s.store.queue[0].cert.bytes != [] && |sig| == SIGNATURE_SIZE
    ensures Base(t) && Leads(s, t) && SameBefore(s, t)
    ensures t.asked == [Asked(AskWrite(0, id, HeadBlock(s.store.queue[0], id, sig)))]
  {
    var s1 := LatestAsked(s, id, sig);
    var s2 := Exchange(s1, Asked(AskLatest(0)), id, sig);
    t := HeadTaken(s2, id, sig);
    LeadsOn(s1, s2, t);
    LeadsOn(s, s1, t);
  }

  /** The instance at the start of its walk over the queue. */
  function FreshWalk(id: Uuid): Canon {
    Start(ONE).(list := Some([]), phase := WaitTxnFirst, blockId := id, prevBlockId := Root, height := 1)
  }

  lemma HeadTaken(s: Sys, id: Uuid, sig: seq<byte>) returns (t: Sys)
    requires Base(s) && s.asked == [Asked(AskFirst(0))] && s.store.queue != [] && |sig| == SIGNATURE_SIZE
    requires s.store.queue[0].state == Attested && s.store.queue[0].cert.bytes != []
    requires s.canon == FreshWalk(id)
    ensures Base(t) && Leads(s, t) && SameBefore(s, t)
    ensures t.asked == [Asked(AskWrite(0, id, HeadBlock(s.store.queue[0], id, sig)))]
  {
    var q := s.store.queue;
    var u := HeadFound(s, id);
    PositionAt(q, 0);
    t := Exchange(u, FirstFound(q[0].key), id, sig);
    HeadBuilt(u.canon, q[0], NextKey(q, 0), id, sig);
    LeadsOn(s, u, t);
  }

  lemma HeadFound(s: Sys, id: Uuid) returns (u: Sys)
    requires Base(s) && s.asked == [Asked(AskFirst(0))] && s.store.queue != []
    ensures u == s.(asked := [FirstFound(s.store.queue[0].key)]) && Base(u) && Leads(s, u)
  {
    var choice := Choice(true, id, 0);
    LoneQuery(s);
    QueueServed(s, Asked(AskFirst(0)), choice);
    ServeBase(s, choice);
    u := Serve(s, 0, choice);
    LeadsByStep(s, Serving(0, choice));
  }

  lemma HeadBuilt(c: Canon, e: Entry, next: Uuid, id: Uuid, sig: seq<byte>)
    requires c == FreshWalk(id)
    requires e.state == Attested
    ensures OnResponse(c, FirstIs(There(e, next)), NO_FAULTS, sig).effect
        == Send(AskWrite(0, id, HeadBlock(e, id, sig)))
  {
    assert [] + [e] == [e] && CertsOf([e]) == [e.cert];
  }

  /** Two submitted transactions; the certificate of the first names the second. */
  predicate Disagreeing(x: Entry, b: Entry) {
    && x.key != b.key && !Sentinel(x.key) && !Sentinel(b.key)
    && x.state == Submitted && b.state == Submitted && x.cert.bytes != []
    && x.cert.Complete() && x.cert.id.value == b.key && x.cert.prev.value == Zero
  }

  lemma Enters(s: Sys, e: Entry) returns (t: Sys)
    requires s.attesting && e.state == Submitted && Submittable(s.store.queue, e.key)
    ensures Leads(s, t) && t == WithQueue(s, s.store.queue + [e]).(
      log := s.log.(submitted := s.log.submitted + [e.key], honest := t.log.honest))
  {
    t := Enter(s, e.key, e.artifact, e.cert);
    LeadsByStep(s, Submitting(e.key, e.artifact, e.cert));
  }

  /** A database and services nobody has used yet. */
  function Unused(setup: Setup): Sys {
    Begin(true, Store([], []), [], {}, setup)
  }

  lemma UnusedIsReachable(setup: Setup)
    ensures Reachable(Unused(setup))
  {
    EmptyStoreIsGood(true);
    BeginIsReachable(true, Store([], []), [], {}, setup);
  }

  lemma BothSubmitted(x: Entry, b: Entry) returns (s: Sys)
    requires Disagreeing(x, b)
    ensures Leads(Unused(ONE), s) && s.attesting && s.armed && s.canon == Start(ONE) && s.att.Asleep?
    ensures s.store == Store([x, b], []) && s.log.submitted == [x.key, b.key] && s.log.dropped == {}
  {
    assert Keys([]) == [] && Keys([x]) == [x.key] && [] + [x] == [x] && [x] + [b] == [x, b];
    assert [] + [x.key] == [x.key] && [x.key] + [b.key] == [x.key, b.key];
    var s1 := Enters(Unused(ONE), x);
    s := Enters(s1, b);
    LeadsOn(Unused(ONE), s1, s);
  }

  /** The first is attested, and the attestation service is about to read the second. */
  lemma FirstAttested(x: Entry, b: Entry) returns (s: Sys)
    requires Disagreeing(x, b)
    ensures Leads(Unused(ONE), s) && s.armed && s.canon == Start(ONE) && s.att == Fetching(b.key, false)
    ensures s.store == Store([x.(state := Attested), b], [])
    ensures s.log.submitted == [x.key, b.key] && s.log.dropped == {}
  {
    var s0 := BothSubmitted(x, b);
    TwoPlain(x, b);
    var s1 := s0.(att := At(x, b.key));
    WakesUp(s0);
    TakesIn(s1, 0);
    s := TakenIn(s1, 0);
    assert PromotedAt([x, b], 0) == [x.(state := Attested), b];
    LeadsOn(s0, s1, s);
    LeadsOn(Unused(ONE), s0, s);
  }

  /** A block made of the first one alone is on its way. */
  lemma WrongBlockAsked(x: Entry, b: Entry, id: Uuid, sig: seq<byte>) returns (s: Sys)
    requires Disagreeing(x, b) && |sig| == SIGNATURE_SIZE
    ensures Reachable(s) && s.asked == [Asked(AskWrite(0, id, HeadBlock(x.(state := Attested), id, sig)))]
    ensures s.store == Store([x.(state := Attested), b], []) && s.att == Fetching(b.key, false)
    ensures s.log.submitted == [x.key, b.key] && s.log.dropped == {}
  {
    UnusedIsReachable(ONE);
    var s0 := FirstAttested(x, b);
    ReachableLeads(Unused(ONE), s0);
    ReachableBase(s0);
    s := HeadAsked(s0, id, sig);
    ReachableLeads(s0, s);
  }

  /** The block is accepted: the second transaction leaves the queue unattested, the first one
      stays, and the accounts are out of order. */
  lemma WrongOneTaken(x: Entry, b: Entry, id: Uuid, sig: seq<byte>) returns (s: Sys)
    requires Disagreeing(x, b) && SaneBlockId(id) && |sig| == SIGNATURE_SIZE
    ensures Reachable(s) && s.log.submitted == [x.key, b.key] && s.log.dropped == {}
    ensures s.store.queue == [x.(state := Attested)] && AllIds(s.store) == [b.key, x.key]
    ensures !Accounted(s) && s.att == Fetching(b.key, false)
  {
    var s0 := WrongBlockAsked(x, b, id, sig);
    var x', choice := x.(state := Attested), Choice(true, id, 0);
    QueryAlone(s0);
    WriteServed(s0, AskWrite(0, id, HeadBlock(x', id, sig)), choice);
    ReachableStep(s0, Serving(0, choice));
    s := Serve(s0, 0, choice);
    DisagreeingCertificate(x', b, id, sig);
  }

  lemma QueryAlone(s: Sys)
    requires Reachable(s) && s.asked != []
    ensures s.answered == [] && !s.armed
  {
    ReachableBase(s);
  }

  /** And the attestation service misses the transaction it is about to read. */
  lemma NodeMissed(x: Entry, b: Entry, id: Uuid, sig: seq<byte>) returns (s: Sys)
    requires Disagreeing(x, b) && SaneBlockId(id) && |sig| == SIGNATURE_SIZE
    ensures Reachable(s) && s.att.Stopped? && s.log.lost
  {
    var s0 := WrongOneTaken(x, b, id, sig);
    assert Keys(s0.store.queue) == [x.key];
    ReachableStep(s0, Reading);
    s := Read(s0, b.key, false);
  }
}
