/** When no block is ever written again.  An attested transaction that cannot be canonized, within
    reach of a round, stays where it is and spoils every block; and nothing else does. */
module Stalled {
  import opened Ids
  import opened Ledger
  import opened Canonization
  import opened QueueShape
  import opened Protocol
  import opened Conversation
  import opened Safety
  import opened Theorems
  import opened Rounds

  // ---------- a transaction in the way ----------

  /** Attested transactions at the front of the queue, the last of which cannot be canonized. */
  predicate Obstacle(chain: seq<Block>, front: seq<Entry>) {
    && front != [] && AttestedUpTo(front, |front|) && EntriesOk(front)
    && !Ready(Store(front, chain), |front| - 1)
  }

  predicate Begins(q: seq<Entry>, front: seq<Entry>) {
    |front| <= |q| && q[..|front|] == front
  }

  /** The attestation service has its eyes on none of them, except to find the head attested. */
  predicate Aside(att: Attest, front: seq<Entry>) {
    match att
    case Fetching(k, first) => first || k !in Keys(front)
    case At(e, next) => e.key !in Keys(front) && next !in Keys(front)
    case _ => true
  }

  /** As far as the list and the front both go, they agree. */
  predicate Covers(list: seq<Entry>, front: seq<Entry>) {
    forall j :: 0 <= j < |list| && j < |front| ==> list[j] == front[j]
  }

  /** The walk has passed the front, or the answer it gets is the next transaction of it. */
  predicate LeadsOn(list: seq<Entry>, front: seq<Entry>, a: ReadAnswer) {
    && Covers(list, front)
    && (|list| < |front| ==>
          || a.Failed?
          || (a.There? && a.entry == front[|list|] && (|list| + 1 < |front| ==> a.next == front[|list| + 1].key)))
  }

  predicate LeadsQuery(list: Option<seq<Entry>>, front: seq<Entry>, query: Query)
    requires front != []
  {
    match query
    case FirstFound(k) => k == front[0].key
    case Asked(AskTxn(_, id)) =>
      list.Some? && Covers(list.value, front) && (|list.value| < |front| ==> id == front[|list.value|].key)
    case _ => true
  }

  predicate LeadsAnswer(list: Option<seq<Entry>>, front: seq<Entry>, r: Response) {
    match r
    case FirstIs(a) => list == Some([]) && LeadsOn([], front, a)
    case TxnIs(a) => list.Some? && LeadsOn(list.value, front, a)
    case _ => true
  }

  /** A block write that takes the whole front with it. */
  predicate TakesAlong(query: Query, front: seq<Entry>) {
    IsWrite(query) ==>
      var certs := query.request.cert.certs;
      |certs| >= |front| && forall j :: 0 <= j < |front| ==> certs[j] == front[j].cert
  }

  /** Whatever is in flight ends in no block without the front. */
  predicate Reaches(c: Canon, front: seq<Entry>, asked: seq<Query>, answered: seq<Response>)
    requires front != []
  {
    && (asked != [] ==> TakesAlong(asked[0], front))
    && (asked != [] && !c.forceExit ==> LeadsQuery(c.list, front, asked[0]))
    && (answered != [] && !c.forceExit ==> LeadsAnswer(c.list, front, answered[0]))
  }

  /** The queue begins with an obstacle within every round's reach. */
  predicate InTheWay(s: Sys, front: seq<Entry>) {
    && Obstacle(s.store.chain, front)
    && Begins(s.store.queue, front)
    && (s.canon.maxTxns >= 1 ==> |front| <= s.canon.maxTxns)
    && Aside(s.att, front)
    && Reaches(s.canon, front, s.asked, s.answered)
  }

  predicate Stays(s: Sys, t: Sys, front: seq<Entry>) {
    InTheWay(t, front) && t.store.chain == s.store.chain
  }

  // ---------- steps of submitters and of the attestation service ----------

  lemma FrontKeys(q: seq<Entry>, front: seq<Entry>, p: nat)
    requires Begins(q, front) && p < |q|
    ensures p < |front| ==> q[p] == front[p] && q[p].key in Keys(front)
    ensures p >= |front| && Distinct(Keys(q)) ==> q[p].key !in Keys(front)
  {
    if p < |front| {
      assert front[p] == q[..|front|][p] && Keys(front)[p] == front[p].key;
    } else if Distinct(Keys(q)) {
      forall j | 0 <= j < |front| ensures Keys(front)[j] != q[p].key {
        assert front[j] == q[..|front|][j] && Keys(q)[j] == q[j].key && Keys(q)[p] == q[p].key;
      }
    }
  }

  /** Anybody may submit anything: it ends up behind the front. */
  lemma SubmitStays(s: Sys, key: Uuid, artifact: Uuid, cert: Certificate, front: seq<Entry>)
    requires InTheWay(s, front)
    ensures Stays(s, Enter(s, key, artifact, cert), front)
  {}

  lemma JudgeStays(s: Sys, accept: bool, recorded: bool, front: seq<Entry>)
    requires InTheWay(s, front) && s.att.At?
    ensures Stays(s, Judge(s, s.att.entry, s.att.next, accept, recorded), front)
  {
    var q := s.store.queue;
    var p := Position(q, s.att.entry.key);
    if p < |q| {
      FrontKeys(q, front, p);
    }
  }

  /** The round of the attestation service starts only at a submitted head. */
  lemma ReadStays(s: Sys, front: seq<Entry>)
    requires InTheWay(s, front) && s.att.Fetching? && Plain(s.store.queue)
    ensures Stays(s, Read(s, s.att.key, s.att.first), front)
  {
    ReadShape(s, s.att.key, s.att.first);
    ReadAside(s, s.att.key, s.att.first, front);
  }

  lemma ReadAside(s: Sys, key: Uuid, first: bool, front: seq<Entry>)
    requires Begins(s.store.queue, front) && Plain(s.store.queue) && EntriesOk(front) && AttestedUpTo(front, |front|)
    requires first || key !in Keys(front)
    ensures Aside(Read(s, key, first).att, front)
  {
    var q := s.store.queue;
    var p := Position(q, key);
    if p < |q| {
      FrontKeys(q, front, p);
      if p >= |front| {
        NextBehind(q, front, p);
      }
    }
  }

  lemma NextBehind(q: seq<Entry>, front: seq<Entry>, p: nat)
    requires Begins(q, front) && Distinct(Keys(q)) && EntriesOk(front) && |front| <= p < |q|
    ensures NextKey(q, p) !in Keys(front)
  {
    OnesElsewhere(front);
    if p + 1 < |q| {
      FrontKeys(q, front, p + 1);
    }
  }

  lemma OnesElsewhere(front: seq<Entry>)
    requires EntriesOk(front)
    ensures Ones !in Keys(front) && forall j :: 0 <= j < |front| ==> front[j].key != Ones && front[j].cert.bytes != []
  {
    forall j | 0 <= j < |front| ensures front[j].key != Ones && front[j].cert.bytes != [] {
      assert EntryOk(front[j]);
    }
  }

  // ---------- the peers ----------

  /** In a block that is accepted every transaction can be canonized. */
  lemma AcceptedReady(s: Store, front: seq<Entry>, id: Uuid, b: BlockCert)
    requires front != [] && EntriesOk(front) && |b.certs| >= |front|
    requires forall j :: 0 <= j < |front| ==> b.certs[j] == front[j].cert
    ensures Accepts(s, id, b) ==> Ready(Store(front, s.chain), |front| - 1)
  {
    if Accepts(s, id, b) {
      var n := |front|;
      forall j | 0 <= j < n ensures b.certs[j].id == Some(front[j].key) {
        assert EntryOk(front[j]) && b.certs[j].Complete();
      }
      assert CertIds(b.certs[..n]) == Keys(front) && front[..n] == front;
      assert PrevKnown(IdSet(History(s.chain)), b.certs, n - 1);
    }
  }

  lemma ServeWriteStays(s: Sys, choice: Choice, front: seq<Entry>)
    requires Base(s) && InTheWay(s, front) && s.asked != [] && IsWrite(s.asked[0])
    ensures Stays(s, Serve(s, 0, choice), front)
  {
    var req := s.asked[0].request;
    LoneQuery(s);
    AcceptedReady(s.store, front, req.id, req.cert);
    WriteServed(s, req, choice);
  }

  lemma ReadLeads(q: seq<Entry>, list: seq<Entry>, key: Uuid, front: seq<Entry>, ok: bool)
    requires Distinct(Keys(q)) && EntriesOk(front) && Begins(q, front) && Covers(list, front)
    requires |list| < |front| ==> key == front[|list|].key
    ensures LeadsOn(list, front, ReadOf(ok, Get(q, key)))
  {
    var n := |list|;
    if n < |front| && ok {
      FrontKeys(q, front, n);
      PositionAt(q, n);
      OnesElsewhere(front);
      if n + 1 < |front| {
        FrontKeys(q, front, n + 1);
      }
    }
  }

  lemma AnswerLeads(c: Canon, q: seq<Entry>, query: Query, choice: Choice, front: seq<Entry>)
    requires Distinct(Keys(q)) && EntriesOk(front) && front != [] && Begins(q, front)
    requires QueueQuery(query) && LeadsQuery(c.list, front, query)
    requires !NeedsSecondRead(q, query, choice) && (query.FirstFound? || query.request.AskFirst? ==> c.list == Some([]))
    ensures LeadsAnswer(c.list, front, QueueAnswer(q, query, choice))
  {
    if query.FirstFound? {
      ReadLeads(q, [], query.key, front, choice.ok);
    } else if query.request.AskTxn? {
      ReadLeads(q, c.list.value, query.request.id, front, choice.ok);
    }
  }

  lemma ServeQueueStays(s: Sys, choice: Choice, front: seq<Entry>)
    requires Base(s) && InTheWay(s, front) && s.asked != [] && QueueQuery(s.asked[0])
    ensures Stays(s, Serve(s, 0, choice), front)
  {
    var q, query := s.store.queue, s.asked[0];
    LoneQuery(s);
    QueueServed(s, query, choice);
    if NeedsSecondRead(q, query, choice) {
      FrontKeys(q, front, 0);
    } else if !s.canon.forceExit {
      AnswerLeads(s.canon, q, query, choice, front);
    }
  }

  lemma ServeOtherStays(s: Sys, choice: Choice, front: seq<Entry>)
    requires Base(s) && InTheWay(s, front) && s.asked != [] && !QueueQuery(s.asked[0]) && !IsWrite(s.asked[0])
    ensures Stays(s, Serve(s, 0, choice), front)
  {
    var req := s.asked[0].request;
    LoneQuery(s);
    if req.AskBlock? {
      BlockServed(s, req, choice);
    } else {
      OtherServed(s, req, choice);
    }
  }

  lemma ServeStays(s: Sys, choice: Choice, front: seq<Entry>)
    requires Base(s) && InTheWay(s, front) && s.asked != []
    ensures Stays(s, Serve(s, 0, choice), front)
  {
    if QueueQuery(s.asked[0]) {
      ServeQueueStays(s, choice, front);
    } else if IsWrite(s.asked[0]) {
      ServeWriteStays(s, choice, front);
    } else {
      ServeOtherStays(s, choice, front);
    }
  }

  // ---------- responses ----------

  /** A read response leads on through the front, or to a block with all of it. */
  lemma ReadLeadsOn(c: Canon, r: Response, f: Faults, sig: seq<byte>, front: seq<Entry>)
    requires !c.forceExit && (r.FirstIs? || r.TxnIs?) && front != [] && LeadsAnswer(c.list, front, r)
    requires AttestedUpTo(front, |front|) && EntriesOk(front)
    requires (c.maxTxns >= 1 ==> |front| <= c.maxTxns) && (r.TxnIs? ==> c.list.value != [])
    ensures var o := OnResponse(c, r, f, sig);
      o.effect.Send? ==>
        TakesAlong(Asked(o.effect.request), front) && LeadsQuery(o.c.list, front, Asked(o.effect.request))
  {
    if r.answer.There? && r.answer.entry.state == Attested && !f.alloc && !f.list {
      TakeLeads(c, r.TxnIs?, r.answer, f, sig, front);
    } else if r.TxnIs? && !r.answer.Failed? && |c.list.value| >= |front| {
      MakeTakes(c, f, sig, front);
    }
  }

  /** A block made of a list that covers the front. */
  lemma MakeTakes(c: Canon, f: Faults, sig: seq<byte>, front: seq<Entry>)
    requires c.list.Some? && Covers(c.list.value, front) && 0 < |front| <= |c.list.value|
    ensures var o := MakeBlock(c, f, sig);
      o.effect.Send? ==> IsWrite(Asked(o.effect.request)) && TakesAlong(Asked(o.effect.request), front)
  {}

  lemma TakeLeads(c: Canon, later: bool, a: ReadAnswer, f: Faults, sig: seq<byte>, front: seq<Entry>)
    requires c.list.Some? && front != [] && EntriesOk(front) && LeadsOn(c.list.value, front, a)
    requires a.There? && a.entry.state == Attested && !f.alloc && !f.list && (c.maxTxns >= 1 ==> |front| <= c.maxTxns)
    ensures var o := OnRead(c, !later, a, f, sig);
      o.effect.Send? ==>
        TakesAlong(Asked(o.effect.request), front) && LeadsQuery(o.c.list, front, Asked(o.effect.request))
  {
    var taken := c.(list := Some(c.list.value + [a.entry]));
    OnesElsewhere(front);
    assert Covers(taken.list.value, front);
    if |taken.list.value| == c.maxTxns || IsEnd(a.next) {
      MakeTakes(taken, f, sig, front);
    }
  }

  lemma DeliverStays(s: Sys, f: Faults, sig: seq<byte>, front: seq<Entry>)
    requires Base(s) && InTheWay(s, front) && s.answered != [] && |sig| == SIGNATURE_SIZE
    ensures Stays(s, Deliver(s, 0, f, sig), front)
  {
    OneToken(s);
    var r := s.answered[0];
    assert s.answered == [r];
    if !s.canon.forceExit {
      LoneAnswer(s);
      AnyResponse(s, r, f, sig);
      DeliverParts(s, r, f, sig);
      if r.FirstIs? || r.TxnIs? {
        if r.TxnIs? {
          WalkStarted(s);
        }
        ReadLeadsOn(s.canon, r, f, sig, front);
      } else {
        OthersAskElse(s.canon, r, f, sig);
      }
    }
  }

  lemma WalkStarted(s: Sys)
    requires Base(s) && s.answered != [] && s.answered[0].TxnIs? && !s.canon.forceExit
    ensures s.canon.list.Some? && s.canon.list.value != []
  {}

  // ---------- every run ----------

  lemma TimerStays(s: Sys, f: Faults, front: seq<Entry>)
    requires Base(s) && InTheWay(s, front) && s.armed
    ensures Stays(s, FireTimer(s, f), front)
  {}

  lemma StepStays(s: Sys, step: Step, front: seq<Entry>)
    requires Base(s) && InTheWay(s, front) && Enabled(s, step)
    ensures Stays(s, Apply(s, step), front)
  {
    OneToken(s);
    if step.Serving? {
      ServeStays(s, step.choice, front);
    } else if step.Delivering? {
      DeliverStays(s, step.f, step.sig, front);
    } else if step.TimerFiring? {
      TimerStays(s, step.f, front);
    } else {
      OthersStay(s, step, front);
    }
  }

  lemma OthersStay(s: Sys, step: Step, front: seq<Entry>)
    requires InTheWay(s, front) && Plain(s.store.queue) && Enabled(s, step)
    requires !step.Serving? && !step.Delivering? && !step.TimerFiring?
    ensures Stays(s, Apply(s, step), front)
  {
    if step.Submitting? {
      SubmitStays(s, step.key, step.artifact, step.cert, front);
    } else if step.Reading? {
      ReadStays(s, front);
    } else if step.Judging? {
      JudgeStays(s, step.accept, step.recorded, front);
    } else {
      RestStays(s, step, front);
    }
  }

  lemma RestStays(s: Sys, step: Step, front: seq<Entry>)
    requires InTheWay(s, front) && Enabled(s, step) && (step.Killing? || step.Waking? || step.Halting?)
    ensures Stays(s, Apply(s, step), front)
  {}

  /** Whatever happens from then on, the obstacle stays and the chain does not grow. */
  lemma {:induction false} RunStays(s: Sys, steps: seq<Step>, front: seq<Entry>)
    requires Base(s) && InTheWay(s, front)
    ensures Base(Exec(s, steps)) && Stays(s, Exec(s, steps), front)
    decreases |steps|
  {
    if steps != [] {
      var n := |steps| - 1;
      var t := Exec(s, steps[..n]);
      RunStays(s, steps[..n], front);
      if Enabled(t, steps[n]) {
        StepStays(t, steps[n], front);
        StepKeepsBase(t, steps[n]);
      }
    }
  }

  /** No schedule ever adds a block, whoever submits what. */
  ghost predicate NeverAgain(s: Sys) {
    forall steps :: Exec(s, steps).store.chain == s.store.chain
  }

  /** An id no block has. */
  lemma {:induction false} UnusedId(chain: seq<Block>) returns (n: nat)
    ensures forall i, m: nat :: 0 <= i < |chain| && m >= n ==> chain[i].id != Id(m)
  {
    n := 0;
    if chain != [] {
      var last := chain[|chain| - 1];
      n := UnusedId(chain[..|chain| - 1]);
      if last.id.Id? && last.id.n >= n {
        n := last.id.n + 1;
      }
      assert forall i :: 0 <= i < |chain| - 1 ==> chain[i] == chain[..|chain| - 1][i];
    }
  }

  /** When all that a round would take can be canonized, some schedule adds a block. */
  lemma SomeBlock(s: Sys) returns (steps: seq<Step>)
    requires AtStart(s) && Front(s.store.queue) > 0
    requires Drainable(s.store, Share(s.canon.maxTxns, Front(s.store.queue)))
    ensures Exec(s, steps).store.chain != s.store.chain
  {
    var k, sig := Share(s.canon.maxTxns, Front(s.store.queue)), ZeroSignature();
    var n := UnusedId(s.store.chain);
    QuietRound(s, Id(n), sig);
    RoundBlockAccepted(s.store, s.log.submitted, s.log.dropped, k, Id(n), sig, s.canon.signer);
    steps := FinishIsARun(s, Id(n), sig);
    assert |Exec(s, steps).store.chain| == |s.store.chain| + 1;
  }

  /** From the start of a round with attested transactions in the queue: no schedule ever adds a
      block exactly when one of the transactions the round would take cannot be canonized. */
  lemma StalledExactly(s: Sys)
    requires AtStart(s) && Front(s.store.queue) > 0
    ensures NeverAgain(s) <==> !Drainable(s.store, Share(s.canon.maxTxns, Front(s.store.queue)))
  {
    var q, k := s.store.queue, Share(s.canon.maxTxns, Front(s.store.queue));
    if Drainable(s.store, k) {
      var steps := SomeBlock(s);
    } else {
      var i :| 0 <= i < k && !Ready(s.store, i);
      StartsInTheWay(s, i);
      forall steps ensures Exec(s, steps).store.chain == s.store.chain {
        RunStays(s, steps, q[..i + 1]);
      }
    }
  }

  lemma StartsInTheWay(s: Sys, i: nat)
    requires AtStart(s) && i < Share(s.canon.maxTxns, Front(s.store.queue)) && !Ready(s.store, i)
    ensures InTheWay(s, s.store.queue[..i + 1])
  {
    var q, front := s.store.queue, s.store.queue[..i + 1];
    assert front[..i + 1] == front && front[i] == q[i];
    assert forall j :: 0 <= j <= i ==> front[j] == q[j];
    AttestationAside(s, front);
  }

  /** The attestation service works behind the attested transactions. */
  lemma AttestationAside(s: Sys, front: seq<Entry>)
    requires Inv(s) && Begins(s.store.queue, front) && |front| <= Front(s.store.queue) && EntriesOk(front)
    ensures Aside(s.att, front)
  {
    var q := s.store.queue;
    ConservedFacts(s.store, s.log.submitted, s.log.dropped);
    OnesElsewhere(front);
    if s.att.At? {
      var p := Position(q, s.att.entry.key);
      FrontKeys(q, front, p);
      NextBehind(q, front, p);
    } else if s.att.Fetching? && !s.att.first {
      FrontKeys(q, front, Position(q, s.att.key));
    }
  }

  // ---------- such states exist ----------

  /** A transaction whose predecessor nobody knows. */
  function Orphan(key: Uuid, artifact: Uuid, prev: Uuid): Certificate {
    Certificate([1], Some(key), Some(prev), Some(artifact), Some(0))
  }

  /** One honest submission to an empty database, attested if the build has attestation at all, and
      the first round can never write a block again. */
  lemma StallIsReachable(attesting: bool, key: Uuid, artifact: Uuid, prev: Uuid, setup: Setup) returns (s: Sys)
    requires !Sentinel(key) && prev != key && prev != Zero
    ensures Reachable(s) && s.log.honest && AtStart(s) && NeverAgain(s)
    ensures s.store.chain == [] && s.store.queue == [Entry(key, artifact, Orphan(key, artifact, prev), Attested)]
  {
    var s0 := Begin(attesting, Store([], []), [], {}, setup);
    EmptyStoreIsGood(attesting);
    BeginIsReachable(attesting, Store([], []), [], {}, setup);
    var s1 := AttestedAlone(s0, key, artifact, Orphan(key, artifact, prev));
    s := RoundBegins(s1);
    OrphanStalls(s, prev);
  }

  lemma RoundBegins(s: Sys) returns (t: Sys)
    requires Reachable(s) && s.log.honest && s.armed && !s.canon.forceExit && s.asked == []
    ensures Reachable(t) && t.log.honest && AtStart(t) && SameBefore(s, t)
  {
    t := FireTimer(s, NO_FAULTS);
    assert t.asked == [Asked(AskRandom)] && t.log.honest;
    ReachableStep(s, TimerFiring(NO_FAULTS));
    ReachableInv(t);
  }

  predicate Untouched(s: Sys) {
    s.store == Store([], []) && s.log.submitted == [] && s.log.honest && s.armed && !s.canon.forceExit && s.att.Asleep?
  }

  /** A submission to an idle system and, where there is attestation, its promotion. */
  lemma AttestedAlone(s: Sys, key: Uuid, artifact: Uuid, cert: Certificate) returns (t: Sys)
    requires Reachable(s) && Untouched(s) && !Sentinel(key) && cert.bytes != [] && cert.id == Some(key)
    ensures Reachable(t) && t.log.honest && t.store == Store([Entry(key, artifact, cert, Attested)], [])
    ensures t.armed && t.asked == s.asked && t.canon == s.canon
  {
    var step := Submitting(key, artifact, cert);
    var e := Entry(key, artifact, cert, EntryState(s.attesting));
    assert Keys([]) == [] && [] + [e] == [e];
    ReachableStep(s, step);
    t := Apply(s, step);
    if s.attesting {
      t := PromotedAlone(t);
    }
  }

  /** The attestation service promotes the only transaction there is. */
  lemma PromotedAlone(s: Sys) returns (t: Sys)
    requires Reachable(s) && s.attesting && s.att.Asleep? && |s.store.queue| == 1
    requires s.store.queue[0].state == Submitted && s.store.queue[0].cert.bytes != []
    ensures Reachable(t) && t == WithQueue(s, [s.store.queue[0].(state := Attested)])
  {
    HeadPromoted(s);
    ReachableStep(s, Waking);
    ReachableStep(Wake(s), Reading);
    var u := s.(att := At(s.store.queue[0], Ones));
    ReachableStep(u, Judging(true, true));
    t := Judge(u, u.att.entry, Ones, true, true);
  }

  lemma HeadPromoted(s: Sys)
    requires s.att.Asleep? && |s.store.queue| == 1
    requires s.store.queue[0].state == Submitted && s.store.queue[0].cert.bytes != []
    ensures var u := s.(att := At(s.store.queue[0], Ones));
      && Read(Wake(s), s.store.queue[0].key, true) == u
      && Judge(u, u.att.entry, Ones, true, true) == WithQueue(s, [s.store.queue[0].(state := Attested)])
  {
    PositionAt(s.store.queue, 0);
  }

  lemma OrphanStalls(s: Sys, prev: Uuid)
    requires AtStart(s) && s.store.chain == [] && |s.store.queue| == 1 && s.store.queue[0].state == Attested
    requires s.store.queue[0].cert.prev == Some(prev) && prev != Zero && prev != s.store.queue[0].key
    ensures NeverAgain(s)
  {
    OrphanUnready(s.store, prev);
    FrontAtLeast(s.store.queue, 1);
    StalledExactly(s);
  }

  lemma OrphanUnready(s: Store, prev: Uuid)
    requires s.chain == [] && |s.queue| == 1 && s.queue[0].cert.prev == Some(prev)
    requires prev != Zero && prev != s.queue[0].key
    ensures !Ready(s, 0)
  {
    assert Keys(s.queue[..1]) == [s.queue[0].key];
  }
}
