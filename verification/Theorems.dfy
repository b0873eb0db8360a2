/** What the invariants say about every run of the block-making protocol.  The results about the
    chain, the messages and the rounds hold whoever submits what; those about the queue hold for
    clean runs, and so in particular when every submission was honest.  Soundness.dfy has those
    about the attestation service. */
module Theorems {
  import opened Ids
  import opened Ledger
  import opened Canonization
  import opened QueueShape
  import opened Protocol
  import opened Conversation
  import opened Safety

  /** A state some schedule leads to, from a database in good order. */
  ghost predicate Reachable(s: Sys) {
    exists attesting, store, submitted, dropped, setup, steps ::
      && GoodStart(attesting, store, submitted, dropped)
      && s == Exec(Begin(attesting, store, submitted, dropped, setup), steps)
  }

  lemma ReachableBase(s: Sys)
    requires Reachable(s)
    ensures Base(s)
  {
    var attesting, store, submitted, dropped, setup, steps :|
      GoodStart(attesting, store, submitted, dropped)
      && s == Exec(Begin(attesting, store, submitted, dropped, setup), steps);
    BeginTidy(attesting, store, submitted, dropped, setup);
    RunKeepsBase(Begin(attesting, store, submitted, dropped, setup), steps);
  }

  /** A state some clean schedule leads to: no id enters the queue twice, and every block takes
      what it names. */
  ghost predicate CleanlyReachable(s: Sys) {
    exists attesting, store, submitted, dropped, setup, steps ::
      && GoodStart(attesting, store, submitted, dropped)
      && CleanRun(Begin(attesting, store, submitted, dropped, setup), steps)
      && s == Exec(Begin(attesting, store, submitted, dropped, setup), steps)
  }

  lemma CleanlyReachableTidy(s: Sys)
    requires CleanlyReachable(s)
    ensures Tidy(s)
  {
    var attesting, store, submitted, dropped, setup, steps :|
      GoodStart(attesting, store, submitted, dropped)
      && CleanRun(Begin(attesting, store, submitted, dropped, setup), steps)
      && s == Exec(Begin(attesting, store, submitted, dropped, setup), steps);
    BeginTidy(attesting, store, submitted, dropped, setup);
    RunKeepsTidy(Begin(attesting, store, submitted, dropped, setup), steps);
  }

  /** Honest submissions are enough for a clean run. */
  lemma HonestlyReachable(s: Sys)
    requires Reachable(s) && s.log.honest
    ensures Inv(s) && CleanlyReachable(s)
  {
    var attesting, store, submitted, dropped, setup, steps :|
      GoodStart(attesting, store, submitted, dropped)
      && s == Exec(Begin(attesting, store, submitted, dropped, setup), steps);
    BeginTidy(attesting, store, submitted, dropped, setup);
    HonestFromStart(Begin(attesting, store, submitted, dropped, setup), steps);
    RunKeepsInv(Begin(attesting, store, submitted, dropped, setup), steps);
  }

  lemma ReachableInv(s: Sys)
    requires Reachable(s) && s.log.honest
    ensures Inv(s)
  {
    HonestlyReachable(s);
  }

  /** Another step leads to another reachable state. */
  lemma ReachableStep(s: Sys, step: Step)
    requires Reachable(s) && Enabled(s, step)
    ensures Reachable(Apply(s, step))
  {
    var attesting, store, submitted, dropped, setup, steps :|
      GoodStart(attesting, store, submitted, dropped)
      && s == Exec(Begin(attesting, store, submitted, dropped, setup), steps);
    var more := steps + [step];
    assert more[..|steps|] == steps;
    assert Apply(s, step) == Exec(Begin(attesting, store, submitted, dropped, setup), more);
  }

  lemma BeginIsReachable(attesting: bool, store: Store, submitted: seq<Uuid>, dropped: set<Uuid>, setup: Setup)
    requires GoodStart(attesting, store, submitted, dropped)
    ensures Reachable(Begin(attesting, store, submitted, dropped, setup))
  {
    assert Begin(attesting, store, submitted, dropped, setup)
        == Exec(Begin(attesting, store, submitted, dropped, setup), []);
  }

  /** An empty database is in good order, so runs from a first start are covered. */
  lemma EmptyStoreIsGood(attesting: bool)
    ensures GoodStart(attesting, Store([], []), [], {})
  {
    assert CertIds([]) + Keys([]) == [];
  }

  /** Conservation and order: the blocks' transactions followed by the queue are the submitted
      ids minus the dropped ones, in submission order; none of them occurs twice, none is lost. */
  lemma ConservationAndOrder(s: Sys)
    requires CleanlyReachable(s)
    ensures CertIds(History(s.store.chain)) + Keys(s.store.queue) == Kept(s.log.submitted, s.log.dropped)
    ensures Distinct(CertIds(History(s.store.chain)) + Keys(s.store.queue))
    ensures forall id :: id in s.log.submitted <==>
      id in CertIds(History(s.store.chain)) || id in Keys(s.store.queue) || id in s.log.dropped
    ensures forall id :: id in s.log.dropped ==>
      id !in CertIds(History(s.store.chain)) && id !in Keys(s.store.queue)
  {
    CleanlyReachableTidy(s);
    var all := CertIds(History(s.store.chain)) + Keys(s.store.queue);
    KeptDistinct(s.log.submitted, s.log.dropped);
    forall id ensures id in all <==> id in s.log.submitted && id !in s.log.dropped {
      KeptMembers(s.log.submitted, s.log.dropped, id);
    }
    assert forall id :: id in all <==> id in CertIds(History(s.store.chain)) || id in Keys(s.store.queue);
  }

  /** Chain: heights 1..n, each block naming the block before it and carrying its 64-byte
      signature; the first one names the root block and carries zeroes. */
  lemma ChainIsLinked(s: Sys, i: nat)
    requires Reachable(s) && i < |s.store.chain|
    ensures s.store.chain[i].height == i + 1
    ensures i == 0 ==> s.store.chain[0].prev == Root && s.store.chain[0].prevSig == ZeroSignature()
    ensures i > 0 ==>
      && s.store.chain[i].prev == s.store.chain[i - 1].id
      && s.store.chain[i - 1].sig == Some(s.store.chain[i].prevSig)
      && |s.store.chain[i].prevSig| == SIGNATURE_SIZE
  {
    ReachableBase(s);
    var chain := s.store.chain;
    assert BlockLinked(chain, i);
    if i > 0 {
      assert BlockLinked(chain, i - 1);
      assert chain[..i][|chain[..i]| - 1] == chain[i - 1];
    }
  }

  /** Every block on its way to the data service carries the links of the chain as it is now. */
  lemma PendingBlockIsLinked(s: Sys, ctx: nat, id: Uuid, b: BlockCert)
    requires Reachable(s) && Asked(AskWrite(ctx, id, b)) in s.asked
    ensures b.height == Some(|s.store.chain| + 1) && b.prev == Some(Latest(s.store.chain)) && b.id == Some(id)
    ensures s.store.chain != [] ==> s.store.chain[|s.store.chain| - 1].sig == Some(b.prevSig)
    ensures s.store.chain == [] ==> b.prevSig == ZeroSignature()
    ensures b.certs != [] && b.sig.Some? && |b.sig.value| == SIGNATURE_SIZE
  {
    ReachableBase(s);
    if s.store.chain != [] {
      assert BlockLinked(s.store.chain, |s.store.chain| - 1);
    }
  }

  /** And, in a clean run, the certificates of an attested prefix of the queue as it is now. */
  lemma PendingBlockIsRight(s: Sys, ctx: nat, id: Uuid, b: BlockCert)
    requires CleanlyReachable(s) && Asked(AskWrite(ctx, id, b)) in s.asked
    ensures 0 < |b.certs| <= |s.store.queue|
    ensures forall i :: 0 <= i < |b.certs| ==>
      b.certs[i] == s.store.queue[i].cert && s.store.queue[i].state == Attested
  {
    CleanlyReachableTidy(s);
    CleanIsReachable(s);
    PendingBlockIsLinked(s, ctx, id, b);
    assert s.asked[0] == Asked(AskWrite(ctx, id, b));
    assert WriteTaken(s.store.queue, s.asked[0]);
  }

  lemma CleanIsReachable(s: Sys)
    requires CleanlyReachable(s)
    ensures Reachable(s)
  {}

  /** Such a block is accepted exactly when its random id is usable and its certificates are
      complete, name different queued transactions and known previous ones. */
  lemma PendingBlockAcceptedExactly(s: Sys, ctx: nat, id: Uuid, b: BlockCert)
    requires CleanlyReachable(s) && Asked(AskWrite(ctx, id, b)) in s.asked
    ensures Accepts(s.store, id, b) <==>
      && SaneBlockId(id) && id !in BlockIds(s.store.chain)
      && Distinct(CertIds(b.certs))
      && (forall i :: 0 <= i < |b.certs| ==>
            && b.certs[i].Complete() && b.certs[i].id.value in Keys(s.store.queue)
            && PrevKnown(IdSet(History(s.store.chain)), b.certs, i))
  {
    CleanlyReachableTidy(s);
    CleanIsReachable(s);
    PendingBlockIsLinked(s, ctx, id, b);
    ConservedFacts(s.store, s.log.submitted, s.log.dropped);
    LinkedAcceptedExactly(s.store, id, b);
  }

  lemma LinkedAcceptedExactly(s: Store, id: Uuid, b: BlockCert)
    requires b.height == Some(|s.chain| + 1) && b.prev == Some(Latest(s.chain)) && b.id == Some(id) && b.certs != []
    requires forall k :: k in Keys(s.queue) ==> k !in CertIds(History(s.chain))
    ensures Accepts(s, id, b) <==>
      && SaneBlockId(id) && id !in BlockIds(s.chain)
      && Distinct(CertIds(b.certs))
      && (forall i :: 0 <= i < |b.certs| ==>
            && b.certs[i].Complete() && b.certs[i].id.value in Keys(s.queue)
            && PrevKnown(IdSet(History(s.chain)), b.certs, i))
  {}

  /** After honest submissions they name different queued transactions anyway. */
  lemma HonestBlockAcceptedExactly(s: Sys, ctx: nat, id: Uuid, b: BlockCert)
    requires Reachable(s) && s.log.honest && Asked(AskWrite(ctx, id, b)) in s.asked
    ensures Accepts(s.store, id, b) <==>
      && SaneBlockId(id) && id !in BlockIds(s.store.chain)
      && (forall i :: 0 <= i < |b.certs| ==>
            b.certs[i].Complete() && PrevKnown(IdSet(History(s.store.chain)), b.certs, i))
  {
    HonestlyReachable(s);
    PendingBlockIsLinked(s, ctx, id, b);
    PendingBlockIsRight(s, ctx, id, b);
    TakenAcceptedExactly(s.store, s.log.submitted, s.log.dropped, id, b);
  }

  lemma TakenAcceptedExactly(s: Store, submitted: seq<Uuid>, dropped: set<Uuid>, id: Uuid, b: BlockCert)
    requires Conserved(s, submitted, dropped) && EntriesOk(s.queue) && 0 < |b.certs| <= |s.queue|
    requires forall i :: 0 <= i < |b.certs| ==> b.certs[i] == s.queue[i].cert
    requires b.height == Some(|s.chain| + 1) && b.prev == Some(Latest(s.chain)) && b.id == Some(id)
    ensures Accepts(s, id, b) <==>
      && SaneBlockId(id) && id !in BlockIds(s.chain)
      && (forall i :: 0 <= i < |b.certs| ==>
            b.certs[i].Complete() && PrevKnown(IdSet(History(s.chain)), b.certs, i))
  {
    var q, n := s.queue, |b.certs|;
    ConservedFacts(s, submitted, dropped);
    if forall i :: 0 <= i < n ==> b.certs[i].Complete() {
      forall i | 0 <= i < n ensures CertIds(b.certs)[i] == Keys(q)[i] && b.certs[i].id.value in KeySet(q) {
        assert b.certs[i] == q[i].cert && EntryOk(q[i]) && Keys(q)[i] == q[i].key;
      }
    }
  }

  /** Single token: until a forced exit exactly one of the armed timer, a pending request or a
      pending response exists; it fits the state, and the list is absent exactly when idle. */
  lemma SingleToken(s: Sys)
    requires Reachable(s)
    ensures |s.asked| + |s.answered| + (if s.armed then 1 else 0) <= 1
    ensures !s.canon.forceExit ==>
      && |s.asked| + |s.answered| + (if s.armed then 1 else 0) == 1
      && (s.armed <==> s.canon.phase == Idle)
      && (s.canon.list == None <==> s.canon.phase == Idle)
      && (s.asked != [] ==> s.canon.phase == PhaseOfQuery(s.asked[0]))
      && (s.answered != [] ==> s.canon.phase == PhaseOfResponse(s.answered[0]))
    ensures !s.log.crashed
  {
    ReachableBase(s);
  }

  function PhaseOfQuery(q: Query): Phase {
    match q
    case FirstFound(_) => WaitTxnFirst
    case Asked(AskRandom) => WaitRandom
    case Asked(AskContext) => WaitContextCreate
    case Asked(AskLatest(_)) => WaitLatestId
    case Asked(AskBlock(_, _)) => WaitBlockGet
    case Asked(AskFirst(_)) => WaitTxnFirst
    case Asked(AskTxn(_, _)) => WaitTxnFirst
    case Asked(AskWrite(_, _, _)) => WaitBlockMake
    case Asked(AskNotify(_)) => WaitNotify
    case Asked(AskClose(_)) => WaitContextClose
  }

  function PhaseOfResponse(r: Response): Phase {
    match r
    case RandomIs(_, _) => WaitRandom
    case ContextIs(_, _) => WaitContextCreate
    case LatestIs(_, _) => WaitLatestId
    case BlockIs(_, _, _) => WaitBlockGet
    case FirstIs(_) => WaitTxnFirst
    case TxnIs(_) => WaitTxnFirst
    case WriteIs(_) => WaitBlockMake
    case NotifyIs(_) => WaitNotify
    case CloseIs => WaitContextClose
    case Broken => Idle
  }

  /** After a forced exit, whatever happens, no request is sent and no timer is set. */
  lemma {:induction false} SilentAfterExit(s: Sys, steps: seq<Step>)
    requires s.canon.forceExit
    ensures Exec(s, steps).canon == s.canon
    ensures Exec(s, steps).log.sent == s.log.sent
    ensures Exec(s, steps).armed ==> s.armed
    decreases |steps|
  {
    if steps != [] {
      var n := |steps| - 1;
      SilentAfterExit(s, steps[..n]);
      var t := Exec(s, steps[..n]);
      if Enabled(t, steps[n]) {
        SilentStep(t, steps[n]);
      }
    }
  }

  lemma SilentStep(s: Sys, step: Step)
    requires s.canon.forceExit && Enabled(s, step)
    ensures Apply(s, step).canon == s.canon
    ensures Apply(s, step).log.sent == s.log.sent
    ensures Apply(s, step).armed ==> s.armed
  {
    if step.Serving? {
      ServeLeaves(s, step.i, step.choice);
    }
  }

  /** Walk: at every step of a clean run the collected list is an attested prefix of the queue as it is now,
      whatever submitters and the attestation service did meanwhile. */
  lemma WalkIsAttestedPrefix(s: Sys)
    requires CleanlyReachable(s) && !s.canon.forceExit && s.canon.phase == WaitTxnFirst
    ensures s.canon.list.Some?
    ensures |s.canon.list.value| <= |s.store.queue|
    ensures s.canon.list.value == s.store.queue[..|s.canon.list.value|]
    ensures forall e :: e in s.canon.list.value ==> e.state == Attested
    ensures s.canon.maxTxns >= 1 ==> |s.canon.list.value| < s.canon.maxTxns
  {
    CleanlyReachableTidy(s);
    TidyWalk(s);
  }

  lemma TidyWalk(s: Sys)
    requires Tidy(s) && !s.canon.forceExit && s.canon.phase == WaitTxnFirst
    ensures s.canon.list.Some? && Taken(s.store.queue, s.canon.list.value)
    ensures s.canon.maxTxns >= 1 ==> |s.canon.list.value| < s.canon.maxTxns
  {}

  /** Notification accounting: one request for each block write response, and one more once a
      round has found nothing to canonize. */
  lemma NotificationAccounting(s: Sys)
    requires Reachable(s) && !s.canon.forceExit
    ensures Notices(s.log.sent) == s.log.writeReplies + if s.log.emptyRounds > 0 then 1 else 0
  {
    ReachableBase(s);
  }

  /** What a notification names: the catch-up and every accepted block name the latest block of
      the chain; only a rejected write is announced under an id that is not the latest. */
  lemma NotificationNames(s: Sys, i: nat, f: Faults, sig: seq<byte>, id: Uuid)
    requires Reachable(s) && Enabled(s, Delivering(i, f, sig))
    requires Deliver(s, i, f, sig).log.sent == s.log.sent + [AskNotify(id)]
    ensures s.answered[i] != WriteIs(false) ==> id == Latest(s.store.chain)
    ensures s.answered[i] == WriteIs(false) ==> id == s.canon.blockId
    ensures !s.answered[i].WriteIs? ==> s.log.emptyRounds == 0 && Deliver(s, i, f, sig).log.emptyRounds == 1
    ensures Deliver(s, i, f, sig).store == s.store
  {
    ReachableBase(s);
    var r := s.answered[i];
    assert i == 0 && s.answered == [r];
    NoticeSent(s, r, f, sig, id);
    if r.WriteIs? {
      assert id == s.canon.blockId;
    } else {
      NoticeIsCatchUp(s, r, f, sig, id);
    }
  }

  lemma NoticeSent(s: Sys, r: Response, f: Faults, sig: seq<byte>, id: Uuid)
    requires s.answered == [r] && Deliver(s, 0, f, sig).log.sent == s.log.sent + [AskNotify(id)]
    ensures !s.canon.forceExit && Handles(s.canon, r)
    ensures OnResponse(s.canon, r, f, sig).effect == Send(AskNotify(id))
    ensures Deliver(s, 0, f, sig).log.emptyRounds == s.log.emptyRounds + if FoundNothing(s.canon, r) then 1 else 0
    ensures Deliver(s, 0, f, sig).store == s.store
  {
    assert (s.log.sent + [AskNotify(id)])[|s.log.sent|] == AskNotify(id);
    if !s.canon.forceExit && Handles(s.canon, r) {
      var o := OnResponse(s.canon, r, f, sig);
      if o.effect.Send? {
        assert (s.log.sent + [o.effect.request])[|s.log.sent|] == o.effect.request;
      }
    }
  }

  lemma NoticeIsCatchUp(s: Sys, r: Response, f: Faults, sig: seq<byte>, id: Uuid)
    requires Base(s) && s.answered == [r] && !s.canon.forceExit && Handles(s.canon, r) && !r.WriteIs?
    requires OnResponse(s.canon, r, f, sig).effect == Send(AskNotify(id))
    ensures id == Latest(s.store.chain) && s.canon.firstTime && FoundNothing(s.canon, r)
  {
    assert r.FirstIs? || r.TxnIs?;
  }

  /** What the log of a run records, step by step. */
  lemma LogRecordsRequests(s: Sys, i: nat, choice: Choice)
    requires i < |s.asked|
    ensures var t, q := Serve(s, i, choice), s.asked[i];
      && t.log.opens == s.log.opens + (if q == Asked(AskContext) && choice.ok then 1 else 0)
      && t.log.context == (if q == Asked(AskContext) && choice.ok then choice.ctx else s.log.context)
      && t.log.closes == s.log.closes + (if q.Asked? && q.request.AskClose? then 1 else 0)
  {
    if QueueQuery(s.asked[i]) {
      QueueRequestLogged(s, i, choice);
    } else {
      OtherRequestLogged(s, i, choice);
    }
  }

  lemma QueueRequestLogged(s: Sys, i: nat, choice: Choice)
    requires i < |s.asked| && QueueQuery(s.asked[i])
    ensures Serve(s, i, choice).log == s.log
  {}

  lemma OtherRequestLogged(s: Sys, i: nat, choice: Choice)
    requires i < |s.asked| && !QueueQuery(s.asked[i])
    ensures var t, q := Serve(s, i, choice), s.asked[i];
      && t.log.opens == s.log.opens + (if q == Asked(AskContext) && choice.ok then 1 else 0)
      && t.log.context == (if q == Asked(AskContext) && choice.ok then choice.ctx else s.log.context)
      && t.log.closes == s.log.closes + (if q.Asked? && q.request.AskClose? then 1 else 0)
  {}

  /** A response that reaches its callback is counted, one that ends a round is compared with the
      longest round so far, and what the callback sends is recorded. */
  lemma LogRecordsResponses(s: Sys, r: Response, f: Faults, sig: seq<byte>)
    requires s.answered == [r] && !s.canon.forceExit && Handles(s.canon, r)
    ensures var t, e, n := Deliver(s, 0, f, sig), OnResponse(s.canon, r, f, sig).effect, s.log.replies + 1;
      && t.log.writeReplies == s.log.writeReplies + (if r.WriteIs? then 1 else 0)
      && t.log.emptyRounds == s.log.emptyRounds + (if FoundNothing(s.canon, r) then 1 else 0)
      && t.log.sent == s.log.sent + (if e.Send? then [e.request] else [])
      && (!r.CloseIs? ==> t.log.replies == n && t.log.longest == s.log.longest)
      && (r.CloseIs? ==> t.log.longest == if n > s.log.longest then n else s.log.longest)
      && !t.log.crashed == !s.log.crashed
  {}

  /** A response without the list it needs, and a timer over a list in use, are recorded too. */
  lemma LogRecordsCrashes(s: Sys, f: Faults, sig: seq<byte>)
    requires !s.canon.forceExit
    ensures s.answered != [] && !Handles(s.canon, s.answered[0]) ==> Deliver(s, 0, f, sig).log.crashed
    ensures s.canon.list.Some? ==> FireTimer(s, f).log.crashed
    ensures s.log.crashed ==> FireTimer(s, f).log.crashed
  {}

  /** And so are the ids that enter and leave the queue, and the transactions that are missed. */
  lemma LogRecordsSubmissions(s: Sys, key: Uuid, artifact: Uuid, cert: Certificate)
    ensures Enter(s, key, artifact, cert).log.submitted ==
      s.log.submitted + if !Sentinel(key) && key !in Keys(s.store.queue) then [key] else []
  {}

  lemma LogRecordsJudgements(s: Sys, e: Entry, next: Uuid, recorded: bool)
    ensures Judge(s, e, next, false, recorded).log.dropped ==
      s.log.dropped + if e.key in Keys(s.store.queue) then {e.key} else {}
    ensures Judge(s, e, next, true, recorded).log.lost == (s.log.lost || e.key !in Keys(s.store.queue))
  {}

  /** Child contexts: never more than one open. */
  lemma ContextBalance(s: Sys)
    requires Reachable(s)
    ensures s.log.closes <= s.log.opens <= s.log.closes + 1
    ensures s.armed && !s.canon.forceExit ==> s.log.opens == s.log.closes
  {
    ReachableBase(s);
  }

  /** Round bound: with room for a transaction, no round takes more than max + 7 responses. */
  lemma RoundBound(s: Sys)
    requires Reachable(s) && s.canon.maxTxns >= 1
    ensures s.log.longest <= s.canon.maxTxns + 7
    ensures !s.canon.forceExit ==> s.log.replies <= s.canon.maxTxns + 7
  {
    ReachableBase(s);
    if !s.canon.forceExit {
      assert Rank(s.canon) >= 0;
    }
  }

  /** Each response brings the end of the round closer. */
  lemma RoundProgress(s: Sys, f: Faults, sig: seq<byte>)
    requires Reachable(s) && s.canon.maxTxns >= 1 && !s.canon.forceExit
    requires s.answered != [] && !s.answered[0].CloseIs? && |sig| == SIGNATURE_SIZE
    ensures var t := Deliver(s, 0, f, sig); t.canon.forceExit || 0 < Rank(t.canon) < Rank(s.canon)
  {
    ReachableBase(s);
    var r := s.answered[0];
    assert s.answered == [r];
    AnyResponse(s, r, f, sig);
    RankFalls(s, r, f, sig);
  }

  lemma RankFalls(s: Sys, r: Response, f: Faults, sig: seq<byte>)
    requires s.answered == [r] && !s.canon.forceExit && Handles(s.canon, r) && !r.CloseIs? && s.canon.maxTxns >= 1
    requires GoodOut(s, r, OnResponse(s.canon, r, f, sig))
    ensures var t := Deliver(s, 0, f, sig); t.canon.forceExit || 0 < Rank(t.canon) < Rank(s.canon)
  {
    var o := OnResponse(s.canon, r, f, sig);
    assert Deliver(s, 0, f, sig).canon == o.c;
  }
}
