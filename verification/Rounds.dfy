/** Rounds of the canonization service that nobody disturbs: peers answer, no call fails, and no
    other service moves.  What such a round writes, when it sleeps, and how a backlog drains. */
module Rounds {
  import opened Ids
  import opened Ledger
  import opened Canonization
  import opened QueueShape
  import opened Protocol
  import opened Conversation
  import opened Safety
  import opened Theorems
  import opened ControlPackets

  const NO_FAULTS := Faults(false, false, false, false, false, 0)

  function PhaseRank(p: Phase): nat {
    match p
    case Idle => 0
    case WaitRandom => 8
    case WaitContextCreate => 7
    case WaitLatestId => 6
    case WaitBlockGet => 5
    case WaitTxnFirst => 4
    case WaitTxnGet => 0
    case WaitBlockMake => 3
    case WaitNotify => 2
    case WaitContextClose => 1
  }

  /** Transactions the walk has not reached. */
  function WalkLeft(s: Sys): nat {
    var n := if s.canon.list.Some? then |s.canon.list.value| else 0;
    if s.canon.phase == WaitTxnFirst && n <= |s.store.queue| then |s.store.queue| - n else 0
  }

  function Stage(s: Sys): nat {
    if s.asked == [] then 0 else if s.asked[0].FirstFound? then 1 else 2
  }

  /** When nothing fails a callback moves on to a later phase, or takes one more attested
      transaction. */
  lemma PhaseFalls(c: Canon, r: Response, sig: seq<byte>)
    requires !c.forceExit && c.list.Some? && !r.CloseIs? && !r.Broken? && c.phase == PhaseOfResponse(r)
    ensures var o := OnResponse(c, r, NO_FAULTS, sig);
      && !o.effect.Arm?
      && (|| o.c.forceExit
          || PhaseRank(o.c.phase) < PhaseRank(c.phase)
          || (o.c.phase == c.phase == WaitTxnFirst && (r.FirstIs? || r.TxnIs?)
              && r.answer.There? && r.answer.entry.state == Attested
              && o.c.list == Some(c.list.value + [r.answer.entry])))
  {}

  /** A pending response is the only message, and the instance waits for it. */
  lemma LoneAnswer(s: Sys)
    requires Base(s) && !s.canon.forceExit && s.answered != []
    ensures s.answered == [s.answered[0]] && s.asked == [] && !s.armed
    ensures s.canon.list.Some? && s.canon.phase == PhaseOfResponse(s.answered[0])
    ensures !s.answered[0].Broken? && Handles(s.canon, s.answered[0])
  {}

  lemma LoneQuery(s: Sys)
    requires Base(s) && s.asked != []
    ensures s.asked == [s.asked[0]] && s.answered == [] && !s.armed
  {}

  /** An answer that lets the walk go on is the next transaction of the queue. */
  lemma WalkRoom(s: Sys)
    requires Inv(s) && !s.canon.forceExit && s.answered != [] && s.canon.list.Some?
    ensures var r := s.answered[0];
      (r.FirstIs? || r.TxnIs?) && r.answer.There? && r.answer.entry.state == Attested ==>
        |s.canon.list.value| < |s.store.queue|
  {
    LoneAnswer(s);
  }

  /** A response other than the last one of a round brings its end closer, whatever the limit. */
  lemma CalmProgress(s: Sys, sig: seq<byte>)
    requires Inv(s) && !s.canon.forceExit && s.answered != [] && !s.answered[0].CloseIs?
    ensures var t := Deliver(s, 0, NO_FAULTS, sig);
      && !t.armed
      && (|| t.canon.forceExit
          || PhaseRank(t.canon.phase) < PhaseRank(s.canon.phase)
          || (t.canon.phase == s.canon.phase && WalkLeft(t) < WalkLeft(s)))
  {
    var r := s.answered[0];
    LoneAnswer(s);
    WalkRoom(s);
    PhaseFalls(s.canon, r, sig);
    DeliverParts(s, r, NO_FAULTS, sig);
    DeliverArms(s, r, NO_FAULTS, sig);
  }

  lemma DeliverArms(s: Sys, r: Response, f: Faults, sig: seq<byte>)
    requires s.answered == [r] && !s.canon.forceExit && Handles(s.canon, r)
    ensures Deliver(s, 0, f, sig).armed == (s.armed || OnResponse(s.canon, r, f, sig).effect.Arm?)
  {}

  lemma CalmServe(s: Sys, id: Uuid)
    requires Base(s) && s.asked != []
    ensures var t := Serve(s, 0, Choice(true, id, 0));
      t.canon == s.canon && !t.armed && Stage(t) < Stage(s)
      && (s.canon.phase == WaitTxnFirst && !s.canon.forceExit ==> t.store == s.store)
  {
    LoneQuery(s);
    ServeLeaves(s, 0, Choice(true, id, 0));
    StageFalls(s, s.asked[0], id);
    if !IsWrite(s.asked[0]) {
      ServeReads(s, 0, Choice(true, id, 0));
    }
  }

  lemma StageFalls(s: Sys, query: Query, id: Uuid)
    requires s.asked == [query] && s.answered == []
    ensures Stage(Serve(s, 0, Choice(true, id, 0))) < Stage(s)
  {
    var choice := Choice(true, id, 0);
    if QueueQuery(query) {
      QueueServed(s, query, choice);
    } else if query.request.AskWrite? {
      WriteServed(s, query.request, choice);
    } else if query.request.AskBlock? {
      BlockServed(s, query.request, choice);
    } else {
      OtherServed(s, query.request, choice);
    }
  }

  /** The rest of an undisturbed round, up to and including the reply that ends it. */
  function Finish(s: Sys, id: Uuid, sig: seq<byte>): Sys
    requires Inv(s) && !s.armed && |sig| == SIGNATURE_SIZE
    decreases PhaseRank(s.canon.phase), WalkLeft(s), Stage(s)
  {
    if s.canon.forceExit then s
    else if s.asked != [] then
      ServeStep(s, Choice(true, id, 0));
      CalmServe(s, id);
      Finish(Serve(s, 0, Choice(true, id, 0)), id, sig)
    else
      DeliverStep(s, NO_FAULTS, sig);
      if s.answered[0].CloseIs? then Deliver(s, 0, NO_FAULTS, sig)
      else
        CalmProgress(s, sig);
        var t := Deliver(s, 0, NO_FAULTS, sig);
        if t.canon.forceExit then t else Finish(t, id, sig)
  }

  lemma {:induction false} ExecCons(s: Sys, step: Step, steps: seq<Step>)
    requires Enabled(s, step)
    ensures Exec(s, [step] + steps) == Exec(Apply(s, step), steps)
    decreases |steps|
  {
    var all := [step] + steps;
    if steps == [] {
      assert all[..0] == [];
    } else {
      var n := |steps| - 1;
      assert all[..n + 1] == [step] + steps[..n];
      ExecCons(s, step, steps[..n]);
    }
  }

  /** An undisturbed round is one of the protocol's runs, and submits nothing. */
  lemma {:induction false} FinishIsARun(s: Sys, id: Uuid, sig: seq<byte>) returns (steps: seq<Step>)
    requires Inv(s) && !s.armed && |sig| == SIGNATURE_SIZE
    ensures Exec(s, steps) == Finish(s, id, sig)
    decreases PhaseRank(s.canon.phase), WalkLeft(s), Stage(s), 1
  {
    if s.canon.forceExit {
      steps := [];
    } else if s.asked != [] {
      var choice := Choice(true, id, 0);
      ServeStep(s, choice);
      CalmServe(s, id);
      var rest := FinishIsARun(Serve(s, 0, choice), id, sig);
      ExecCons(s, Serving(0, choice), rest);
      steps := [Serving(0, choice)] + rest;
    } else {
      steps := FinishByDelivery(s, id, sig);
    }
  }

  lemma {:induction false} FinishByDelivery(s: Sys, id: Uuid, sig: seq<byte>) returns (steps: seq<Step>)
    requires Inv(s) && !s.armed && |sig| == SIGNATURE_SIZE && !s.canon.forceExit && s.asked == []
    ensures Exec(s, steps) == Finish(s, id, sig)
    decreases PhaseRank(s.canon.phase), WalkLeft(s), 0, 0
  {
    var t := Deliver(s, 0, NO_FAULTS, sig);
    DeliverStep(s, NO_FAULTS, sig);
    var rest := [];
    if !s.answered[0].CloseIs? {
      CalmProgress(s, sig);
      if !t.canon.forceExit {
        rest := FinishIsARun(t, id, sig);
      }
    }
    ExecCons(s, Delivering(0, NO_FAULTS, sig), rest);
    steps := [Delivering(0, NO_FAULTS, sig)] + rest;
  }

  // ---------- one round ----------

  predicate Calm(s: Sys) {
    Inv(s) && !s.canon.forceExit && !s.armed
  }

  /** A round is about to begin: only the request for a block id is pending. */
  predicate AtStart(s: Sys) {
    Calm(s) && s.asked == [Asked(AskRandom)]
  }

  /** What an undisturbed round leaves alone, the store apart. */
  predicate SameLists(s: Sys, t: Sys) {
    && t.attesting == s.attesting && t.att == s.att
    && t.log.submitted == s.log.submitted && t.log.dropped == s.log.dropped
    && t.canon.maxTxns == s.canon.maxTxns && t.canon.signer == s.canon.signer
  }

  /** What every step of a round before its block write leaves alone. */
  predicate SameBefore(s: Sys, t: Sys) {
    t.store == s.store && SameLists(s, t)
  }

  /** What a peer answers when nothing fails, and the store after that. */
  function AnswerTo(store: Store, query: Query, id: Uuid): (Store, Response) {
    var choice := Choice(true, id, 0);
    if QueueQuery(query) then (store, QueueAnswer(store.queue, query, choice))
    else if query.request.AskWrite? then WriteAnswer(store, query.request, choice)
    else if query.request.AskBlock? then (store, BlockAnswer(true, store.chain, query.request.id))
    else (store, OtherAnswer(store.chain, query.request, choice))
  }

  /** The pending request is answered. */
  lemma Answers(s: Sys, query: Query, id: Uuid)
    requires s.asked == [query] && s.answered == [] && !NeedsSecondRead(s.store.queue, query, Choice(true, id, 0))
    ensures var u, a := Serve(s, 0, Choice(true, id, 0)), AnswerTo(s.store, query, id);
      u.asked == [] && u.answered == [a.1] && u.store == a.0 && SameBut(s, u)
  {
    var choice := Choice(true, id, 0);
    ServeLeaves(s, 0, choice);
    if QueueQuery(query) {
      QueueServed(s, query, choice);
    } else if query.request.AskWrite? {
      WriteServed(s, query.request, choice);
    } else if query.request.AskBlock? {
      BlockServed(s, query.request, choice);
    } else {
      OtherServed(s, query.request, choice);
    }
  }

  /** The state after a request has been answered with `r` and the callback has had outcome `o`. */
  predicate Turned(s: Sys, t: Sys, store: Store, o: Out) {
    && Inv(t) && !t.armed && t.answered == []
    && t.store == store && t.canon == o.c
    && t.asked == (if o.effect.Send? then [Asked(o.effect.request)] else [])
    && t.attesting == s.attesting && t.att == s.att
    && t.log.submitted == s.log.submitted && t.log.dropped == s.log.dropped
  }

  lemma Delivers(u: Sys, r: Response, sig: seq<byte>)
    requires Inv(u) && u.answered == [r] && u.asked == [] && !u.armed && !u.canon.forceExit && !r.CloseIs?
    requires |sig| == SIGNATURE_SIZE
    ensures Handles(u.canon, r)
    ensures Turned(u, Deliver(u, 0, NO_FAULTS, sig), u.store, OnResponse(u.canon, r, NO_FAULTS, sig))
  {
    LoneAnswer(u);
    DeliverStep(u, NO_FAULTS, sig);
    DeliverParts(u, r, NO_FAULTS, sig);
    CalmProgress(u, sig);
  }

  /** The pending request is served and its response delivered. */
  lemma Turn(s: Sys, query: Query, id: Uuid, sig: seq<byte>) returns (t: Sys)
    requires Calm(s) && s.asked == [query] && |sig| == SIGNATURE_SIZE && !query.FirstFound? && !query.request.AskClose?
    requires !NeedsSecondRead(s.store.queue, query, Choice(true, id, 0))
    ensures var a := AnswerTo(s.store, query, id);
      Handles(s.canon, a.1) && Turned(s, t, a.0, OnResponse(s.canon, a.1, NO_FAULTS, sig))
    ensures !t.canon.forceExit ==> Finish(s, id, sig) == Finish(t, id, sig)
  {
    var u := Serve(s, 0, Choice(true, id, 0));
    LoneQuery(s);
    ServeStep(s, Choice(true, id, 0));
    CalmServe(s, id);
    Answers(s, query, id);
    t := Deliver(u, 0, NO_FAULTS, sig);
    Delivers(u, u.answered[0], sig);
    assert Finish(s, id, sig) == Finish(u, id, sig);
  }

  lemma ToLatest(s: Sys, id: Uuid, sig: seq<byte>) returns (t: Sys)
    requires AtStart(s) && |sig| == SIGNATURE_SIZE
    ensures Calm(t) && SameBefore(s, t) && t.asked == [Asked(AskLatest(t.canon.ctx))]
    ensures t.canon.blockId == id && t.canon.firstTime == s.canon.firstTime
    ensures Finish(s, id, sig) == Finish(t, id, sig)
  {
    var v := ToContext(s, id, sig);
    RandomThenContext(s.canon, id, sig);
    t := Turn(v, Asked(AskContext), id, sig);
  }

  lemma ToContext(s: Sys, id: Uuid, sig: seq<byte>) returns (v: Sys)
    requires AtStart(s) && |sig| == SIGNATURE_SIZE
    ensures s.canon.phase == WaitRandom
    ensures Calm(v) && SameBefore(s, v) && v.asked == [Asked(AskContext)]
    ensures v.canon == s.canon.(blockId := id, phase := WaitContextCreate)
    ensures Finish(s, id, sig) == Finish(v, id, sig)
  {
    RandomThenContext(s.canon, id, sig);
    v := Turn(s, Asked(AskRandom), id, sig);
  }

  lemma RandomThenContext(c: Canon, id: Uuid, sig: seq<byte>)
    requires !c.forceExit && c.phase == WaitRandom
    ensures var o := OnResponse(c, RandomIs(true, id), NO_FAULTS, sig);
      && o == Out(c.(blockId := id, phase := WaitContextCreate), Send(AskContext))
      && OnResponse(o.c, ContextIs(true, 0), NO_FAULTS, sig)
           == Out(o.c.(ctx := 0, phase := WaitLatestId), Send(AskLatest(0)))
  {}

  lemma ToFirst(s: Sys, id: Uuid, sig: seq<byte>) returns (t: Sys)
    requires Calm(s) && s.asked == [Asked(AskLatest(s.canon.ctx))] && |sig| == SIGNATURE_SIZE
    ensures Calm(t) && SameBefore(s, t) && t.asked == [Asked(AskFirst(t.canon.ctx))]
    ensures t.canon.blockId == s.canon.blockId && t.canon.firstTime == s.canon.firstTime
    ensures Finish(s, id, sig) == Finish(t, id, sig)
  {
    var chain := s.store.chain;
    t := Turn(s, s.asked[0], id, sig);
    if chain != [] {
      assert BlockLinked(chain, |chain| - 1);
      var v := t;
      t := PastBlock(v, id, sig);
    }
  }

  /** The previous block is read. */
  lemma PastBlock(s: Sys, id: Uuid, sig: seq<byte>) returns (t: Sys)
    requires Calm(s) && s.asked == [Asked(AskBlock(s.canon.ctx, s.canon.prevBlockId))] && |sig| == SIGNATURE_SIZE
    ensures Calm(t) && SameBefore(s, t) && t.asked == [Asked(AskFirst(t.canon.ctx))]
    ensures t.canon.blockId == s.canon.blockId && t.canon.firstTime == s.canon.firstTime
    ensures Finish(s, id, sig) == Finish(t, id, sig)
  {
    var chain := s.store.chain;
    LastBlockAnswer(chain);
    t := Turn(s, s.asked[0], id, sig);
  }

  lemma LastBlockAnswer(chain: seq<Block>)
    requires ChainLinked(chain)
    ensures chain != [] ==>
      BlockAnswer(true, chain, Latest(chain)) == BlockIs(true, |chain|, Some(LastSignature(chain)))
      && |LastSignature(chain)| == SIGNATURE_SIZE
  {
    if chain != [] {
      assert BlockLinked(chain, |chain| - 1);
    }
  }

  /** How many transactions an undisturbed round takes: as many attested ones as the queue has in
      front, up to the limit; a limit of zero is no limit. */
  function Share(maxTxns: nat, front: nat): nat {
    if maxTxns == 0 || front <= maxTxns then front else maxTxns
  }

  /** The walk has ended with the list it was after. */
  predicate WalkDone(s: Sys, t: Sys, sig: seq<byte>) {
    var k := Share(s.canon.maxTxns, Front(s.store.queue));
    && Calm(t) && SameBefore(s, t)
    && t.canon.list == Some(s.store.queue[..k])
    && if k == 0 then t.asked == [Asked(AskNotify(t.canon.blockId))] || t.asked == [Asked(AskClose(t.canon.ctx))]
       else
         && t.canon.blockId == s.canon.blockId
         && t.asked == [Asked(AskWrite(t.canon.ctx, s.canon.blockId,
           RoundBlock(s.store, k, s.canon.blockId, sig, s.canon.signer)))]
  }

  /** The block that takes the first `k` queued transactions. */
  function RoundBlock(s: Store, k: nat, id: Uuid, sig: seq<byte>, signer: seq<byte>): BlockCert
    requires k <= |s.queue|
  {
    BlockCert(Some(id), Some(Latest(s.chain)), Some(|s.chain| + 1), LastSignature(s.chain),
              CertsOf(s.queue[..k]), Some(sig), Some(signer), Some(0))
  }

  lemma FrontAtLeast(q: seq<Entry>, n: nat)
    requires AttestedUpTo(q, n)
    ensures n <= Front(q)
    ensures n == |q| || q[n].state != Attested ==> Front(q) == n
  {}

  /** The answer to a read by a queued key. */
  lemma AnswerAt(q: seq<Entry>, n: nat)
    requires Distinct(Keys(q)) && EntriesOk(q) && n < |q|
    ensures ReadOf(true, Get(q, q[n].key)) == There(q[n], NextKey(q, n))
    ensures NextKey(q, n) == Ones <==> n + 1 == |q|
  {
    PositionAt(q, n);
    assert EntryOk(q[n]);
  }

  // ---------- the walk ----------

  /** The first `n` transactions are taken and the read of the next one is pending. */
  predicate Before(s: Sys, n: nat) {
    && n < |s.store.queue| && s.canon.list == Some(s.store.queue[..n])
    && s.asked == [PendingRead(s, n)]
  }

  function PendingRead(s: Sys, n: nat): Query
    requires n < |s.store.queue|
  {
    if n == 0 then FirstFound(s.store.queue[0].key) else Asked(AskTxn(s.canon.ctx, s.store.queue[n].key))
  }

  /** The walk goes on past position `n`. */
  predicate GoesOn(s: Sys, n: nat) {
    n + 1 < |s.store.queue| && s.store.queue[n].state == Attested && n + 1 != s.canon.maxTxns
  }

  /** The round ends alike from `s` and from `t`, whatever id the random service hands out. */
  ghost predicate SameEnd(s: Sys, t: Sys, sig: seq<byte>) {
    Calm(s) && Calm(t) && |sig| == SIGNATURE_SIZE && forall id :: Finish(s, id, sig) == Finish(t, id, sig)
  }

  /** The response to the pending read of position `n`. */
  function ReadReply(q: seq<Entry>, n: nat): Response
    requires n < |q|
  {
    var a := There(q[n], NextKey(q, n));
    if n == 0 then FirstIs(a) else TxnIs(a)
  }

  /** A queue read is served and its response delivered; the id of the block plays no part. */
  lemma ReadTurn(s: Sys, n: nat, sig: seq<byte>) returns (t: Sys)
    requires Calm(s) && |sig| == SIGNATURE_SIZE && Before(s, n)
    ensures Turned(s, t, s.store, OnResponse(s.canon, ReadReply(s.store.queue, n), NO_FAULTS, sig))
    ensures !t.canon.forceExit ==> SameEnd(s, t, sig)
  {
    var q, query, u := s.store.queue, s.asked[0], Serve(s, 0, Choice(true, Zero, 0));
    ConservedFacts(s.store, s.log.submitted, s.log.dropped);
    AnswerAt(q, n);
    ServeStep(s, Choice(true, Zero, 0));
    Answers(s, query, Zero);
    assert u.answered == [ReadReply(q, n)];
    t := Deliver(u, 0, NO_FAULTS, sig);
    Delivers(u, ReadReply(q, n), sig);
    if !t.canon.forceExit {
      forall id ensures Finish(s, id, sig) == Finish(t, id, sig) {
        ReadTurnFor(s, query, u, id, sig);
      }
    }
  }

  lemma ReadTurnFor(s: Sys, query: Query, u: Sys, id: Uuid, sig: seq<byte>)
    requires Calm(s) && |sig| == SIGNATURE_SIZE && s.asked == [query] && QueueQuery(query)
    requires !NeedsSecondRead(s.store.queue, query, Choice(true, Zero, 0))
    requires u == Serve(s, 0, Choice(true, Zero, 0)) && Inv(u) && u.asked == [] && u.answered != []
    requires !u.answered[0].CloseIs?
    ensures var t := Deliver(u, 0, NO_FAULTS, sig);
      !t.canon.forceExit ==> Inv(t) && !t.armed && Finish(s, id, sig) == Finish(t, id, sig)
  {
    LoneQuery(s);
    QueueServed(s, query, Choice(true, Zero, 0));
    QueueServed(s, query, Choice(true, id, 0));
    assert Serve(s, 0, Choice(true, id, 0)) == u;
    CalmProgress(u, sig);
    DeliverStep(u, NO_FAULTS, sig);
    CalmServe(s, id);
    assert Finish(s, id, sig) == Finish(u, id, sig);
  }

  /** What the callback makes of the read of position `n`. */
  lemma ReadOutcome(c: Canon, q: seq<Entry>, n: nat, sig: seq<byte>)
    requires !c.forceExit && n < |q| && c.list == Some(q[..n]) && (NextKey(q, n) == Ones <==> n + 1 == |q|)
    ensures var o := OnResponse(c, ReadReply(q, n), NO_FAULTS, sig);
      && (q[n].state == Attested && n + 1 < |q| && n + 1 != c.maxTxns ==>
            o == Out(c.(list := Some(q[..n + 1])), Send(AskTxn(c.ctx, q[n + 1].key))))
      && (q[n].state == Attested && !(n + 1 < |q| && n + 1 != c.maxTxns) ==>
            o == Out(c.(list := Some(q[..n + 1]), phase := WaitBlockMake),
                     Send(AskWrite(c.ctx, c.blockId, BuiltBlock(c.(list := Some(q[..n + 1])), 0, sig)))))
      && (q[n].state != Attested && n > 0 ==>
            o == Out(c.(phase := WaitBlockMake), Send(AskWrite(c.ctx, c.blockId, BuiltBlock(c, 0, sig)))))
      && (q[n].state != Attested && n == 0 ==> o == CompleteUpdate(c, NO_FAULTS))
  {
    assert q[..n + 1] == q[..n] + [q[n]];
  }

  /** The share of the round, read off the point where the walk stops. */
  lemma ShareAt(q: seq<Entry>, n: nat, max: nat)
    requires n < |q| && AttestedUpTo(q, n) && (max >= 1 ==> n < max)
    ensures q[n].state != Attested ==> Share(max, Front(q)) == n
    ensures q[n].state == Attested && !(n + 1 < |q| && n + 1 != max) ==> Share(max, Front(q)) == n + 1
  {
    FrontAtLeast(q, n);
    if q[n].state == Attested {
      FrontAtLeast(q, n + 1);
    }
  }

  /** The walk stands at position `n` with links and room in order. */
  lemma WalkState(s: Sys, n: nat)
    requires Calm(s) && Before(s, n)
    ensures LinksOk(s.canon, s.store.chain) && AttestedUpTo(s.store.queue, n)
    ensures s.canon.maxTxns >= 1 ==> n < s.canon.maxTxns
    ensures s.canon.phase == WaitTxnFirst
  {
    assert |s.store.queue[..n]| == n;
  }

  /** One transaction of the walk: it ends there, or stands before the next one. */
  lemma WalkOne(s: Sys, n: nat, sig: seq<byte>) returns (t: Sys)
    requires Calm(s) && |sig| == SIGNATURE_SIZE && Before(s, n)
    ensures SameBefore(s, t) && SameEnd(s, t, sig)
    ensures GoesOn(s, n) ==> Before(t, n + 1) && t.canon.blockId == s.canon.blockId
    ensures !GoesOn(s, n) ==> WalkDone(s, t, sig)
  {
    var q, c := s.store.queue, s.canon;
    ConservedFacts(s.store, s.log.submitted, s.log.dropped);
    AnswerAt(q, n);
    WalkState(s, n);
    ShareAt(q, n, c.maxTxns);
    t := ReadTurn(s, n, sig);
    if GoesOn(s, n) {
      GoesOnWith(s, t, n, sig);
    } else {
      StopsWith(s, t, n, sig);
    }
  }

  lemma GoesOnWith(s: Sys, t: Sys, n: nat, sig: seq<byte>)
    requires n < |s.store.queue| && s.canon.list == Some(s.store.queue[..n]) && GoesOn(s, n) && !s.canon.forceExit
    requires Turned(s, t, s.store, OnResponse(s.canon, ReadReply(s.store.queue, n), NO_FAULTS, sig))
    requires NextKey(s.store.queue, n) == Ones <==> n + 1 == |s.store.queue|
    ensures Before(t, n + 1) && t.canon.blockId == s.canon.blockId && !t.canon.forceExit && SameBefore(s, t)
  {
    ReadOutcome(s.canon, s.store.queue, n, sig);
  }

  lemma StopsWith(s: Sys, t: Sys, n: nat, sig: seq<byte>)
    requires n < |s.store.queue| && s.canon.list == Some(s.store.queue[..n]) && !GoesOn(s, n) && !s.canon.forceExit
    requires LinksOk(s.canon, s.store.chain)
    requires Turned(s, t, s.store, OnResponse(s.canon, ReadReply(s.store.queue, n), NO_FAULTS, sig))
    requires NextKey(s.store.queue, n) == Ones <==> n + 1 == |s.store.queue|
    requires Share(s.canon.maxTxns, Front(s.store.queue)) == if s.store.queue[n].state == Attested then n + 1 else n
    ensures WalkDone(s, t, sig)
  {
    var q, c := s.store.queue, s.canon;
    ReadOutcome(c, q, n, sig);
    var k := if q[n].state == Attested then n + 1 else n;
    if k > 0 {
      assert BuiltBlock(c.(list := Some(q[..k])), 0, sig) == RoundBlock(s.store, k, c.blockId, sig, c.signer);
    }
  }

  lemma {:induction false} WalkOn(s: Sys, n: nat, sig: seq<byte>) returns (t: Sys)
    requires Calm(s) && |sig| == SIGNATURE_SIZE && Before(s, n)
    ensures WalkDone(s, t, sig) && SameEnd(s, t, sig)
    decreases |s.store.queue| - n
  {
    t := WalkOne(s, n, sig);
    if GoesOn(s, n) {
      var v := t;
      t := WalkOn(v, n + 1, sig);
      WalkDoneFrom(s, v, t, sig);
    }
  }

  lemma WalkDoneFrom(s: Sys, v: Sys, t: Sys, sig: seq<byte>)
    requires SameBefore(s, v) && v.canon.blockId == s.canon.blockId && WalkDone(v, t, sig)
    ensures WalkDone(s, t, sig)
  {}

  lemma Walk(s: Sys, id: Uuid, sig: seq<byte>) returns (t: Sys)
    requires Calm(s) && |sig| == SIGNATURE_SIZE && s.asked == [Asked(AskFirst(s.canon.ctx))]
    ensures WalkDone(s, t, sig) && Finish(s, id, sig) == Finish(t, id, sig)
  {
    if s.store.queue == [] {
      t := EmptyWalk(s, id, sig);
    } else {
      var v := LookFirst(s, id, sig);
      t := WalkOn(v, 0, sig);
      WalkDoneFrom(s, v, t, sig);
    }
  }

  /** The first of the two reads behind "get first" finds a head. */
  lemma LookFirst(s: Sys, id: Uuid, sig: seq<byte>) returns (v: Sys)
    requires Calm(s) && |sig| == SIGNATURE_SIZE && s.asked == [Asked(AskFirst(s.canon.ctx))] && s.store.queue != []
    ensures Calm(v) && SameBefore(s, v) && v.canon == s.canon && Before(v, 0)
    ensures Finish(s, id, sig) == Finish(v, id, sig)
  {
    LoneQuery(s);
    ServeStep(s, Choice(true, id, 0));
    CalmServe(s, id);
    v := Serve(s, 0, Choice(true, id, 0));
    QueueServed(s, s.asked[0], Choice(true, id, 0));
    assert s.store.queue[..0] == [];
  }

  lemma EmptyWalk(s: Sys, id: Uuid, sig: seq<byte>) returns (t: Sys)
    requires Calm(s) && |sig| == SIGNATURE_SIZE && s.store.queue == [] && s.asked == [Asked(AskFirst(s.canon.ctx))]
    ensures WalkDone(s, t, sig) && Finish(s, id, sig) == Finish(t, id, sig)
  {
    EmptyList(s);
    NothingThere(s.store, s.canon.ctx, id);
    t := Turn(s, Asked(AskFirst(s.canon.ctx)), id, sig);
    EmptyDone(s, t, sig);
  }

  lemma NothingThere(store: Store, ctx: nat, id: Uuid)
    requires store.queue == []
    ensures AnswerTo(store, Asked(AskFirst(ctx)), id) == (store, FirstIs(NotThere))
    ensures !NeedsSecondRead(store.queue, Asked(AskFirst(ctx)), Choice(true, id, 0))
  {}

  lemma EmptyDone(s: Sys, t: Sys, sig: seq<byte>)
    requires s.store.queue == [] && !s.canon.forceExit && s.canon.list == Some([])
    requires Turned(s, t, s.store, OnResponse(s.canon, FirstIs(NotThere), NO_FAULTS, sig))
    ensures WalkDone(s, t, sig) && !t.canon.forceExit
  {
    EmptyAnswer(s.canon, sig);
  }

  lemma EmptyList(s: Sys)
    requires Base(s) && !s.canon.forceExit && s.asked == [Asked(AskFirst(s.canon.ctx))]
    ensures s.canon.list == Some([])
  {}

  lemma EmptyAnswer(c: Canon, sig: seq<byte>)
    requires !c.forceExit && c.list == Some([])
    ensures var o := OnResponse(c, FirstIs(NotThere), NO_FAULTS, sig);
      && !o.c.forceExit && o.c.list == c.list && o.c.maxTxns == c.maxTxns && o.c.signer == c.signer
      && (o.effect == Send(AskNotify(o.c.blockId)) || o.effect == Send(AskClose(o.c.ctx)))
  {}

  /** A round has ended with `k` transactions taken: the timer is set unless `k` is the limit, and
      then the next round has begun. */
  predicate RoundOver(t: Sys, k: nat) {
    && Inv(t) && !t.canon.forceExit
    && (if k != t.canon.maxTxns then t.armed else AtStart(t))
  }

  lemma CloseTurn(s: Sys, id: Uuid, sig: seq<byte>)
    requires Calm(s) && |sig| == SIGNATURE_SIZE && s.asked == [Asked(AskClose(s.canon.ctx))]
    ensures var t := Finish(s, id, sig); RoundOver(t, |s.canon.list.value|) && SameBefore(s, t)
  {
    var u := Serve(s, 0, Choice(true, id, 0));
    ServeStep(s, Choice(true, id, 0));
    CalmServe(s, id);
    Answers(s, s.asked[0], id);
    LoneAnswer(u);
    DeliverStep(u, NO_FAULTS, sig);
    CloseShape(u, sig);
    assert Finish(s, id, sig) == Finish(u, id, sig) == Deliver(u, 0, NO_FAULTS, sig);
  }

  /** The reply that ends a round: sleep, or the next round at once. */
  lemma CloseShape(u: Sys, sig: seq<byte>)
    requires u.answered == [CloseIs] && u.asked == [] && !u.armed && !u.canon.forceExit && u.canon.list.Some?
    ensures var t := Deliver(u, 0, NO_FAULTS, sig);
      && !t.canon.forceExit && SameBefore(u, t)
      && t.armed == (|u.canon.list.value| != u.canon.maxTxns)
      && (!t.armed ==> t.asked == [Asked(AskRandom)])
  {}

  lemma NotifyTurn(s: Sys, id: Uuid, sig: seq<byte>)
    requires Calm(s) && |sig| == SIGNATURE_SIZE && s.asked == [Asked(AskNotify(s.canon.blockId))]
    ensures var t := Finish(s, id, sig); RoundOver(t, |s.canon.list.value|) && SameBefore(s, t)
  {
    var v := Turn(s, s.asked[0], id, sig);
    CloseTurn(v, id, sig);
  }

  lemma WriteTurn(s: Sys, id: Uuid, sig: seq<byte>, b: BlockCert)
    requires Calm(s) && |sig| == SIGNATURE_SIZE && s.asked == [Asked(AskWrite(s.canon.ctx, s.canon.blockId, b))]
    ensures var t := Finish(s, id, sig);
      RoundOver(t, |s.canon.list.value|) && t.store == Write(s.store, s.canon.blockId, b) && SameLists(s, t)
  {
    var v := PastWrite(s, id, sig, b);
    NotifyTurn(v, id, sig);
  }

  /** The write is answered, one way or the other, and the notification is sent. */
  lemma PastWrite(s: Sys, id: Uuid, sig: seq<byte>, b: BlockCert) returns (v: Sys)
    requires Calm(s) && |sig| == SIGNATURE_SIZE && s.asked == [Asked(AskWrite(s.canon.ctx, s.canon.blockId, b))]
    ensures Calm(v) && Finish(s, id, sig) == Finish(v, id, sig)
    ensures v.store == Write(s.store, s.canon.blockId, b) && v.asked == [Asked(AskNotify(v.canon.blockId))]
    ensures SameLists(s, v) && v.canon.list == s.canon.list
  {
    v := Turn(s, s.asked[0], id, sig);
  }

  /** An undisturbed round takes exactly the longest attested prefix of the queue, up to the
      limit, into one block, and sleeps exactly when it did not reach the limit. */
  lemma QuietRound(s: Sys, id: Uuid, sig: seq<byte>)
    requires AtStart(s) && |sig| == SIGNATURE_SIZE
    ensures var k, t := Share(s.canon.maxTxns, Front(s.store.queue)), Finish(s, id, sig);
      && t.store == (if k == 0 then s.store else Write(s.store, id, RoundBlock(s.store, k, id, sig, s.canon.signer)))
      && Inv(t) && !t.canon.forceExit && t.canon.maxTxns == s.canon.maxTxns
      && (t.armed <==> k != s.canon.maxTxns)
      && (!t.armed ==> AtStart(t))
      && SameLists(s, t)
  {
    var k := Share(s.canon.maxTxns, Front(s.store.queue));
    var t1 := ToLatest(s, id, sig);
    var t2 := ToFirst(t1, id, sig);
    var t3 := Walk(t2, id, sig);
    if k == 0 {
      if t3.asked == [Asked(AskClose(t3.canon.ctx))] {
        CloseTurn(t3, id, sig);
      } else {
        NotifyTurn(t3, id, sig);
      }
    } else {
      WriteTurn(t3, id, sig, RoundBlock(s.store, k, id, sig, s.canon.signer));
    }
  }

  // ---------- draining a backlog ----------

  /** The certificate at position `i` can be canonized once those before it are. */
  predicate Ready(s: Store, i: nat)
    requires i < |s.queue|
  {
    var cert := s.queue[i].cert;
    && cert.Complete()
    && (|| cert.prev.value == Zero
        || cert.prev.value in IdSet(History(s.chain))
        || cert.prev.value in Keys(s.queue[..i + 1]))
  }

  predicate Drainable(s: Store, n: nat) {
    n <= |s.queue| && forall i :: 0 <= i < n ==> Ready(s, i)
  }

  /** Block ids the random service may hand out: usable, new, and no two alike. */
  predicate FreshIds(chain: seq<Block>, ids: seq<Uuid>) {
    && Distinct(ids)
    && forall i :: 0 <= i < |ids| ==> SaneBlockId(ids[i]) && ids[i] !in BlockIds(chain)
  }

  lemma RoundBlockAccepted(s: Store, submitted: seq<Uuid>, dropped: set<Uuid>, k: nat, id: Uuid, sig: seq<byte>,
                           signer: seq<byte>)
    requires Conserved(s, submitted, dropped) && EntriesOk(s.queue) && AttestedUpTo(s.queue, k) && k > 0
    requires Drainable(s, k)
    requires SaneBlockId(id) && id !in BlockIds(s.chain) && |sig| == SIGNATURE_SIZE
    ensures var b := RoundBlock(s, k, id, sig, signer);
      && CertIds(b.certs) == Keys(s.queue[..k])
      && Write(s, id, b) == Store(s.queue[k..], s.chain + [BlockOf(b)])
  {
    var b := RoundBlock(s, k, id, sig, signer);
    ConservedFacts(s, submitted, dropped);
    RoundBlockIds(s, k, b.certs);
    RoundBlockProcessable(s, k, b.certs);
    WriteMovesPrefix(s, id, b);
  }

  lemma RoundBlockIds(s: Store, k: nat, certs: seq<Certificate>)
    requires Drainable(s, k) && EntriesOk(s.queue) && certs == CertsOf(s.queue[..k])
    ensures CertIds(certs) == Keys(s.queue[..k])
    ensures forall j: nat :: j <= k ==> CertIds(certs[..j]) == Keys(s.queue[..j])
  {
    forall i | 0 <= i < k ensures certs[i].id == Some(s.queue[i].key) {
      assert Ready(s, i) && EntryOk(s.queue[i]);
    }
  }

  lemma RoundBlockProcessable(s: Store, k: nat, certs: seq<Certificate>)
    requires Drainable(s, k) && EntriesOk(s.queue) && certs == CertsOf(s.queue[..k]) && Distinct(Keys(s.queue))
    requires forall key :: key in Keys(s.queue) ==> key !in CertIds(History(s.chain))
    ensures Processable(KeySet(s.queue), IdSet(History(s.chain)), certs)
  {
    RoundBlockIds(s, k, certs);
    var done := IdSet(History(s.chain));
    forall i | 0 <= i < k
      ensures certs[i].Complete() && certs[i].id.value in KeySet(s.queue) && certs[i].id.value !in done
      ensures PrevKnown(done, certs, i)
    {
      assert Ready(s, i) && EntryOk(s.queue[i]) && Keys(s.queue)[i] == s.queue[i].key;
      assert CertIds(certs[..i + 1]) == Keys(s.queue[..i + 1]);
    }
    assert forall i :: 0 <= i < k ==> CertIds(certs)[i] == Keys(s.queue)[i];
  }

  /** What is left can still be canonized once the first `k` have been. */
  lemma DrainableRest(s: Store, n: nat, k: nat, blk: Block)
    requires Drainable(s, n) && k <= n && CertIds(blk.certs) == Keys(s.queue[..k])
    ensures Drainable(Store(s.queue[k..], s.chain + [blk]), n - k)
  {
    var t := Store(s.queue[k..], s.chain + [blk]);
    HistoryAppend(s.chain, blk);
    CertIdsAppend(History(s.chain), blk.certs);
    forall i | 0 <= i < n - k ensures Ready(t, i) {
      assert Ready(s, k + i);
      assert s.queue[..k + i + 1] == s.queue[..k] + t.queue[..i + 1];
      KeysAppend(s.queue[..k], t.queue[..i + 1]);
    }
  }

  /** Rounds with the given block ids, one after the other, until one of them sleeps. */
  function After(s: Sys, ids: seq<Uuid>, sig: seq<byte>): Sys
    requires Inv(s) && (s.armed || AtStart(s)) && |sig| == SIGNATURE_SIZE
    decreases |ids|
  {
    if ids == [] || s.armed then s
    else
      QuietRound(s, ids[0], sig);
      After(Finish(s, ids[0], sig), ids[1..], sig)
  }

  /** How many of these rounds run again at once instead of sleeping. */
  function Wakeful(s: Sys, ids: seq<Uuid>, sig: seq<byte>): nat
    requires Inv(s) && (s.armed || AtStart(s)) && |sig| == SIGNATURE_SIZE
    decreases |ids|
  {
    if ids == [] || s.armed then 0
    else
      QuietRound(s, ids[0], sig);
      var t := Finish(s, ids[0], sig);
      if t.armed then 0 else 1 + Wakeful(t, ids[1..], sig)
  }

  /** The store after a round that takes `k` of `n` drainable transactions. */
  ghost predicate Moved(s: Store, t: Store, n: nat, k: nat, id: Uuid) {
    && k <= n <= |s.queue|
    && t.queue == s.queue[k..] && Drainable(t, n - k) && Front(t.queue) == n - k
    && CertIds(History(t.chain)) == CertIds(History(s.chain)) + Keys(s.queue[..k])
    && BlockIds(t.chain) <= BlockIds(s.chain) + {id}
    && |t.chain| == |s.chain| + (if k == 0 then 0 else 1)
  }

  lemma StoreMoves(s: Store, submitted: seq<Uuid>, dropped: set<Uuid>, n: nat, k: nat, id: Uuid, sig: seq<byte>,
                   signer: seq<byte>)
    requires Conserved(s, submitted, dropped) && EntriesOk(s.queue) && n == Front(s.queue) && k <= n && Drainable(s, n)
    requires SaneBlockId(id) && id !in BlockIds(s.chain) && |sig| == SIGNATURE_SIZE
    ensures Moved(s, if k == 0 then s else Write(s, id, RoundBlock(s, k, id, sig, signer)), n, k, id)
  {
    FrontOfRest(s.queue, n, k);
    if k == 0 {
      assert s.queue[0..] == s.queue && Keys(s.queue[..0]) == [];
    } else {
      RoundBlockAccepted(s, submitted, dropped, k, id, sig, signer);
      var blk := BlockOf(RoundBlock(s, k, id, sig, signer));
      DrainableRest(s, n, k, blk);
      HistoryAppend(s.chain, blk);
      CertIdsAppend(History(s.chain), blk.certs);
      assert BlockIds(s.chain + [blk]) <= BlockIds(s.chain) + {id};
    }
  }

  /** One draining round: `k` transactions move from the queue to a new block. */
  lemma DrainRound(s: Sys, n: nat, id: Uuid, sig: seq<byte>)
    requires AtStart(s) && |sig| == SIGNATURE_SIZE && s.canon.maxTxns >= 1
    requires n == Front(s.store.queue) && Drainable(s.store, n) && SaneBlockId(id) && id !in BlockIds(s.store.chain)
    ensures var k, t := Share(s.canon.maxTxns, n), Finish(s, id, sig);
      && Inv(t) && !t.canon.forceExit && (t.armed <==> k != s.canon.maxTxns) && (!t.armed ==> AtStart(t))
      && t.canon.maxTxns == s.canon.maxTxns
      && Moved(s.store, t.store, n, k, id)
  {
    var k := Share(s.canon.maxTxns, n);
    QuietRound(s, id, sig);
    StoreMoves(s.store, s.log.submitted, s.log.dropped, n, k, id, sig, s.canon.signer);
  }

  lemma FrontOfRest(q: seq<Entry>, n: nat, k: nat)
    requires n == Front(q) && k <= n
    ensures Front(q[k..]) == n - k
  {
    FrontAtLeast(q[k..], n - k);
  }

  /** Rounds that reach the limit, and blocks written, while `n` transactions drain. */
  function FullRounds(n: nat, max: nat): nat
    requires max >= 1
  {
    if n < max then 0 else 1 + FullRounds(n - max, max)
  }

  function BlocksFor(n: nat, max: nat): nat
    requires max >= 1
  {
    if n == 0 then 0 else if n < max then 1 else 1 + BlocksFor(n - max, max)
  }

  lemma {:induction false} DrainNumbers(n: nat, max: nat)
    requires max >= 1
    ensures FullRounds(n, max) == n / max
    ensures BlocksFor(n, max) == (n + max - 1) / max
  {
    if n < max {
      Quotients(n, max);
    } else {
      QuotientStep(n, max);
      DrainNumbers(n - max, max);
    }
  }

  /** The outcome of a drain from `s` to `t`: the full rounds that ran on, then one that slept,
      with all `n` attested transactions canonized in queue order. */
  ghost predicate Drained(s: Sys, t: Sys, wakeful: nat) {
    var n, max := Front(s.store.queue), s.canon.maxTxns;
    && max >= 1
    && wakeful == FullRounds(n, max)
    && t.armed
    && t.store.queue == s.store.queue[n..]
    && CertIds(History(t.store.chain)) == CertIds(History(s.store.chain)) + Keys(s.store.queue[..n])
    && |t.store.chain| == |s.store.chain| + BlocksFor(n, max)
  }

  lemma {:induction false} DrainAll(s: Sys, ids: seq<Uuid>, sig: seq<byte>)
    requires AtStart(s) && |sig| == SIGNATURE_SIZE && s.canon.maxTxns >= 1
    requires Drainable(s.store, Front(s.store.queue)) && FreshIds(s.store.chain, ids)
    requires |ids| > FullRounds(Front(s.store.queue), s.canon.maxTxns)
    ensures Drained(s, After(s, ids, sig), Wakeful(s, ids, sig))
    decreases Front(s.store.queue)
  {
    var t := FirstRound(s, ids, sig);
    if t.armed {
      DrainEnds(s, t, ids[0]);
    } else {
      DrainLeaves(s.store, t.store, ids, s.canon.maxTxns);
      DrainAll(t, ids[1..], sig);
      DrainGoesOn(s, t, After(t, ids[1..], sig), Wakeful(t, ids[1..], sig), ids[0]);
    }
  }

  /** Drain: with a limit of at least one and `n` attested transactions in front of a queue that
      nobody touches, exactly n / max rounds run on at once, the next one sleeps, and by then all
      `n` are canonized in queue order, in as few blocks as the limit allows. */
  lemma Drain(s: Sys, ids: seq<Uuid>, sig: seq<byte>)
    requires AtStart(s) && |sig| == SIGNATURE_SIZE && s.canon.maxTxns >= 1
    requires Drainable(s.store, Front(s.store.queue)) && FreshIds(s.store.chain, ids)
    requires |ids| > Front(s.store.queue) / s.canon.maxTxns
    ensures var n, max, t := Front(s.store.queue), s.canon.maxTxns, After(s, ids, sig);
      && Wakeful(s, ids, sig) == n / max
      && t.armed
      && t.store.queue == s.store.queue[n..]
      && CertIds(History(t.store.chain)) == CertIds(History(s.store.chain)) + Keys(s.store.queue[..n])
      && |t.store.chain| == |s.store.chain| + (n + max - 1) / max
  {
    DrainNumbers(Front(s.store.queue), s.canon.maxTxns);
    DrainAll(s, ids, sig);
  }

  lemma DrainLeaves(s: Store, t: Store, ids: seq<Uuid>, max: nat)
    requires 1 <= max <= Front(s.queue) && ids != [] && Moved(s, t, Front(s.queue), max, ids[0])
    requires FreshIds(s.chain, ids) && |ids| > FullRounds(Front(s.queue), max)
    ensures FreshIds(t.chain, ids[1..]) && |ids[1..]| > FullRounds(Front(t.queue), max)
  {
    FreshTail(s.chain, t.chain, ids);
  }

  lemma FirstRound(s: Sys, ids: seq<Uuid>, sig: seq<byte>) returns (t: Sys)
    requires AtStart(s) && |sig| == SIGNATURE_SIZE && s.canon.maxTxns >= 1 && ids != []
    requires Drainable(s.store, Front(s.store.queue)) && SaneBlockId(ids[0]) && ids[0] !in BlockIds(s.store.chain)
    ensures Inv(t) && (t.armed <==> Front(s.store.queue) < s.canon.maxTxns) && (!t.armed ==> AtStart(t))
    ensures t.canon.maxTxns == s.canon.maxTxns
    ensures Moved(s.store, t.store, Front(s.store.queue), Share(s.canon.maxTxns, Front(s.store.queue)), ids[0])
    ensures After(s, ids, sig) == if t.armed then t else After(t, ids[1..], sig)
    ensures Wakeful(s, ids, sig) == if t.armed then 0 else 1 + Wakeful(t, ids[1..], sig)
  {
    t := Finish(s, ids[0], sig);
    DrainRound(s, Front(s.store.queue), ids[0], sig);
    AfterOne(s, t, ids, sig);
    if t.armed {
      AfterAsleep(t, ids[1..], sig);
    }
  }

  lemma AfterOne(s: Sys, t: Sys, ids: seq<Uuid>, sig: seq<byte>)
    requires Inv(s) && AtStart(s) && |sig| == SIGNATURE_SIZE && ids != []
    requires Inv(t) && (t.armed || AtStart(t)) && t == Finish(s, ids[0], sig)
    ensures After(s, ids, sig) == After(t, ids[1..], sig)
    ensures Wakeful(s, ids, sig) == if t.armed then 0 else 1 + Wakeful(t, ids[1..], sig)
  {}

  lemma AfterAsleep(t: Sys, ids: seq<Uuid>, sig: seq<byte>)
    requires Inv(t) && t.armed && |sig| == SIGNATURE_SIZE
    ensures After(t, ids, sig) == t
  {}

  lemma DrainEnds(s: Sys, t: Sys, id: Uuid)
    requires s.canon.maxTxns > Front(s.store.queue) && t.armed
    requires Moved(s.store, t.store, Front(s.store.queue), Front(s.store.queue), id)
    ensures Drained(s, t, 0)
  {}

  lemma DrainGoesOn(s: Sys, t: Sys, u: Sys, wakeful: nat, id: Uuid)
    requires 1 <= t.canon.maxTxns == s.canon.maxTxns <= Front(s.store.queue)
    requires Moved(s.store, t.store, Front(s.store.queue), s.canon.maxTxns, id)
    requires Drained(t, u, wakeful)
    ensures Drained(s, u, wakeful + 1)
  {
    Joined(s.store, t.store, Front(s.store.queue), s.canon.maxTxns, id);
  }

  lemma Joined(s: Store, t: Store, n: nat, k: nat, id: Uuid)
    requires Moved(s, t, n, k, id)
    ensures t.queue[n - k..] == s.queue[n..]
    ensures CertIds(History(t.chain)) + Keys(t.queue[..n - k]) == CertIds(History(s.chain)) + Keys(s.queue[..n])
  {
    var q := s.queue;
    assert q[..n] == q[..k] + q[k..][..n - k];
    KeysAppend(q[..k], q[k..][..n - k]);
    Associate(CertIds(History(s.chain)), Keys(q[..k]), Keys(q[k..][..n - k]));
  }

  lemma FreshTail(chain: seq<Block>, chain': seq<Block>, ids: seq<Uuid>)
    requires FreshIds(chain, ids) && ids != [] && BlockIds(chain') <= BlockIds(chain) + {ids[0]}
    ensures FreshIds(chain', ids[1..])
  {}

  lemma Quotients(n: nat, max: nat)
    requires n < max
    ensures n / max == 0 && (n + max - 1) / max == if n == 0 then 0 else 1
  {
    ModUnique(n, max, 0, n);
    if n > 0 {
      ModUnique(n + max - 1, max, 1, n - 1);
    } else {
      ModUnique(max - 1, max, 0, max - 1);
    }
  }

  lemma QuotientStep(n: nat, max: nat)
    requires 1 <= max <= n
    ensures n / max == 1 + (n - max) / max
    ensures (n + max - 1) / max == 1 + (n - 1) / max
  {
    OneMore(n - max, max);
    OneMore(n - 1, max);
  }

  lemma OneMore(n: nat, max: nat)
    requires max >= 1
    ensures (n + max) / max == 1 + n / max
  {
    var a, r := n / max, n % max;
    assert max * (a + 1) == max * a + max;
    ModUnique(n + max, max, a + 1, r);
  }

  /** A limit of zero turns the sleeping rule around: a round sleeps exactly when it found
      transactions. */
  lemma ZeroLimitRound(s: Sys, id: Uuid, sig: seq<byte>)
    requires AtStart(s) && |sig| == SIGNATURE_SIZE && s.canon.maxTxns == 0
    ensures Finish(s, id, sig).armed <==> Front(s.store.queue) > 0
    ensures s.store.queue == [] ==>
      AtStart(Finish(s, id, sig)) && Finish(s, id, sig).store == s.store && Finish(s, id, sig).canon.maxTxns == 0
  {
    QuietRound(s, id, sig);
  }

  /** So on an empty queue such a service never sleeps: however many rounds there are, each of them
      starts the next one at once. */
  lemma {:induction false} ZeroLimitSpins(s: Sys, ids: seq<Uuid>, sig: seq<byte>)
    requires AtStart(s) && |sig| == SIGNATURE_SIZE && s.canon.maxTxns == 0 && s.store.queue == []
    ensures Wakeful(s, ids, sig) == |ids|
    ensures AtStart(After(s, ids, sig)) && After(s, ids, sig).store == s.store
    decreases |ids|
  {
    if ids != [] {
      ZeroLimitRound(s, ids[0], sig);
      ZeroLimitSpins(Finish(s, ids[0], sig), ids[1..], sig);
    }
  }
}
