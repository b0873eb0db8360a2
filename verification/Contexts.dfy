/** Who a request speaks for: every request of a round names the child context opened for that round,
    every block names the key the service was given, and a round starts without a block id. */
module Contexts {
  import opened Ids
  import opened Ledger
  import opened Canonization
  import opened Protocol
  import opened Conversation
  import opened Safety
  import opened Theorems

  /** The child context a request names. */
  function Named(q: Query): Option<nat> {
    match q
    case Asked(AskLatest(ctx)) => Some(ctx)
    case Asked(AskBlock(ctx, _)) => Some(ctx)
    case Asked(AskFirst(ctx)) => Some(ctx)
    case Asked(AskTxn(ctx, _)) => Some(ctx)
    case Asked(AskWrite(ctx, _, _)) => Some(ctx)
    case Asked(AskClose(ctx)) => Some(ctx)
    case _ => None
  }

  predicate QueryNames(q: Query, context: nat, signer: seq<byte>) {
    && (Named(q).Some? ==> Named(q).value == context)
    && (IsWrite(q) ==> q.request.cert.signer == Some(signer))
  }

  /** The phases in which the instance has a context. */
  predicate InContext(p: Phase) {
    p != Idle && p != WaitRandom && p != WaitContextCreate
  }

  predicate NamesOk(s: Sys) {
    && (s.asked != [] ==> QueryNames(s.asked[0], s.log.context, s.canon.signer))
    && (s.answered != [] && s.answered[0].ContextIs? && s.answered[0].ok ==> s.answered[0].ctx == s.log.context)
    && (!s.canon.forceExit && InContext(s.canon.phase) ==> s.canon.ctx == s.log.context)
    && (!s.canon.forceExit && (s.canon.phase == Idle || s.canon.phase == WaitRandom) ==> s.canon.blockId == Zero)
  }

  // ---------- every step ----------

  /** What the callback of a response does to the names. */
  predicate GoodNames(s: Sys, r: Response, o: Out) {
    && o.c.signer == s.canon.signer
    && (!o.c.forceExit && InContext(o.c.phase) ==> o.c.ctx == s.log.context)
    && (!o.c.forceExit && (o.c.phase == Idle || o.c.phase == WaitRandom) ==> o.c.blockId == Zero)
    && (o.effect.Send? ==> QueryNames(Asked(o.effect.request), s.log.context, o.c.signer))
  }

  lemma EarlyNames(s: Sys, r: Response, f: Faults, sig: seq<byte>)
    requires Base(s) && NamesOk(s) && s.answered == [r] && !s.canon.forceExit && Handles(s.canon, r)
    requires r.RandomIs? || r.ContextIs? || r.LatestIs? || r.BlockIs? || r.WriteIs?
    ensures GoodNames(s, r, OnResponse(s.canon, r, f, sig))
  {}

  lemma LateNames(s: Sys, r: Response, f: Faults, sig: seq<byte>)
    requires Base(s) && NamesOk(s) && s.answered == [r] && !s.canon.forceExit && Handles(s.canon, r)
    requires r.NotifyIs? || r.CloseIs?
    ensures GoodNames(s, r, OnResponse(s.canon, r, f, sig))
  {}

  lemma ReadNames(s: Sys, r: Response, f: Faults, sig: seq<byte>)
    requires Base(s) && NamesOk(s) && s.answered == [r] && !s.canon.forceExit && Handles(s.canon, r)
    requires r.FirstIs? || r.TxnIs?
    ensures GoodNames(s, r, OnResponse(s.canon, r, f, sig))
  {
    assert s.canon.phase == WaitTxnFirst && s.canon.ctx == s.log.context;
    ReadCallback(s.canon, r, f, sig);
  }

  lemma ReadCallback(c: Canon, r: Response, f: Faults, sig: seq<byte>)
    requires !c.forceExit && c.list.Some? && c.phase == WaitTxnFirst && (r.FirstIs? || r.TxnIs?)
    ensures var o := OnResponse(c, r, f, sig);
      && o.c.signer == c.signer && o.c.ctx == c.ctx && InContext(o.c.phase)
      && (o.effect.Send? ==> QueryNames(Asked(o.effect.request), c.ctx, c.signer))
  {}

  lemma DeliverNames(s: Sys, f: Faults, sig: seq<byte>)
    requires Base(s) && NamesOk(s) && s.answered != [] && |sig| == SIGNATURE_SIZE
    ensures NamesOk(Deliver(s, 0, f, sig))
  {
    var r := s.answered[0];
    OneToken(s);
    assert s.answered == [r];
    if !s.canon.forceExit {
      AnyResponse(s, r, f, sig);
      if r.RandomIs? || r.ContextIs? || r.LatestIs? || r.BlockIs? || r.WriteIs? {
        EarlyNames(s, r, f, sig);
      } else if r.FirstIs? || r.TxnIs? {
        ReadNames(s, r, f, sig);
      } else {
        LateNames(s, r, f, sig);
      }
      DeliverParts(s, r, f, sig);
      DeliverContext(s, 0, f, sig);
    }
  }

  lemma DeliverContext(s: Sys, i: nat, f: Faults, sig: seq<byte>)
    requires i < |s.answered|
    ensures Deliver(s, i, f, sig).log.context == s.log.context
  {}

  lemma ServeNames(s: Sys, choice: Choice)
    requires Base(s) && NamesOk(s) && s.asked != []
    ensures NamesOk(Serve(s, 0, choice))
  {
    var q := s.asked[0];
    OneToken(s);
    assert s.asked == [q] && s.answered == [];
    ServeLeaves(s, 0, choice);
    if QueueQuery(q) {
      QueueServed(s, q, choice);
    } else if q.request.AskWrite? {
      WriteServed(s, q.request, choice);
    } else if q.request.AskBlock? {
      BlockServed(s, q.request, choice);
    } else {
      OtherServed(s, q.request, choice);
    }
  }

  lemma TimerNames(s: Sys, f: Faults)
    requires Base(s) && NamesOk(s) && s.armed
    ensures NamesOk(FireTimer(s, f)) && FireTimer(s, f).canon.signer == s.canon.signer
  {}

  /** Nothing but the conversation touches the names. */
  lemma OtherNames(s: Sys, step: Step)
    requires NamesOk(s) && Enabled(s, step) && !step.TimerFiring? && !step.Serving? && !step.Delivering?
    ensures NamesOk(Apply(s, step)) && Apply(s, step).canon.signer == s.canon.signer
  {
    if step.Reading? {
      ReadLeaves(s, s.att.key, s.att.first);
    }
  }

  lemma StepKeepsNames(s: Sys, step: Step)
    requires Base(s) && NamesOk(s) && Enabled(s, step)
    ensures NamesOk(Apply(s, step))
  {
    OneToken(s);
    if step.TimerFiring? {
      TimerNames(s, step.f);
    } else if step.Serving? {
      ServeNames(s, step.choice);
    } else if step.Delivering? {
      DeliverNames(s, step.f, step.sig);
    } else {
      OtherNames(s, step);
    }
  }

  /** Every schedule keeps them. */
  lemma {:induction false} RunKeepsNames(s: Sys, steps: seq<Step>)
    requires Base(s) && NamesOk(s)
    ensures NamesOk(Exec(s, steps))
    decreases |steps|
  {
    if steps != [] {
      var n := |steps| - 1;
      RunKeepsNames(s, steps[..n]);
      RunKeepsBase(s, steps[..n]);
      var t := Exec(s, steps[..n]);
      if Enabled(t, steps[n]) {
        StepKeepsNames(t, steps[n]);
      }
    }
  }

  lemma ReachableNames(s: Sys)
    requires Reachable(s)
    ensures Base(s) && NamesOk(s)
  {
    var attesting, store, submitted, dropped, setup, steps :|
      GoodStart(attesting, store, submitted, dropped)
      && s == Exec(Begin(attesting, store, submitted, dropped, setup), steps);
    var s0 := Begin(attesting, store, submitted, dropped, setup);
    BeginTidy(attesting, store, submitted, dropped, setup);
    RunKeepsBase(s0, steps);
    RunKeepsNames(s0, steps);
  }

  // ---------- what that says ----------

  /** Every pending request that names a child context names the one opened last, which has not been
      closed; so the context closed is the one that was opened for the round. */
  lemma RequestsNameTheContext(s: Sys, q: Query)
    requires Reachable(s) && q in s.asked && Named(q).Some?
    ensures Named(q).value == s.log.context
    ensures s.log.opens == s.log.closes + 1
  {
    ReachableNames(s);
    OneToken(s);
    assert s.asked[0] == q;
  }

  /** Every block on its way names the key of the service as its signer. */
  lemma BlocksNameTheSigner(s: Sys, ctx: nat, id: Uuid, b: BlockCert)
    requires Reachable(s) && Asked(AskWrite(ctx, id, b)) in s.asked
    ensures b.signer == Some(s.canon.signer)
  {
    ReachableNames(s);
    OneToken(s);
    assert s.asked[0] == Asked(AskWrite(ctx, id, b));
  }

  /** And that key never changes. */
  lemma {:induction false} SignerNeverChanges(s: Sys, steps: seq<Step>)
    ensures Exec(s, steps).canon.signer == s.canon.signer
    decreases |steps|
  {
    if steps != [] {
      var n := |steps| - 1;
      SignerNeverChanges(s, steps[..n]);
      var t := Exec(s, steps[..n]);
      if Enabled(t, steps[n]) {
        SignerStep(t, steps[n]);
      }
    }
  }

  lemma SignerStep(s: Sys, step: Step)
    requires Enabled(s, step)
    ensures Apply(s, step).canon.signer == s.canon.signer
  {
    if step.Serving? {
      ServeLeaves(s, step.i, step.choice);
    } else if step.Delivering? {
      DeliverSigner(s, step.i, step.f, step.sig);
    } else if step.Reading? {
      ReadLeaves(s, s.att.key, s.att.first);
    }
  }

  lemma DeliverSigner(s: Sys, i: nat, f: Faults, sig: seq<byte>)
    requires i < |s.answered|
    ensures Deliver(s, i, f, sig).canon.signer == s.canon.signer
  {
    if Handles(s.canon, s.answered[i]) {
      CallbackSigner(s.canon, s.answered[i], f, sig);
    }
  }

  lemma CallbackSigner(c: Canon, r: Response, f: Faults, sig: seq<byte>)
    requires Handles(c, r)
    ensures OnResponse(c, r, f, sig).c.signer == c.signer
  {}

  /** Between rounds, and until the random service has answered, the instance holds no block id. */
  lemma RoundStartsWithoutId(s: Sys)
    requires Reachable(s) && !s.canon.forceExit && (s.canon.phase == Idle || s.canon.phase == WaitRandom)
    ensures s.canon.blockId == Zero
  {
    ReachableNames(s);
  }

  /** Once it has answered, the block written is the one it named. */
  lemma BlockIdIsTheRandomOne(s: Sys, id: Uuid, sig: seq<byte>, f: Faults)
    requires Reachable(s) && s.answered == [RandomIs(true, id)] && !s.canon.forceExit && !f.send
    ensures Deliver(s, 0, f, sig).canon.blockId == id
  {
    ReachableNames(s);
  }

  /** A block that a callback sends carries the time of the callback and the signature made then. */
  lemma BlocksCarryTheTime(s: Sys, r: Response, f: Faults, sig: seq<byte>, ctx: nat, id: Uuid, b: BlockCert)
    requires s.answered == [r] && s.asked == []
    requires Deliver(s, 0, f, sig).asked == [Asked(AskWrite(ctx, id, b))]
    ensures b.validFrom == Some(f.now) && b.sig == Some(sig)
    ensures b.signer == Some(s.canon.signer) && ctx == s.canon.ctx && id == s.canon.blockId && b.id == Some(id)
  {
    if !s.canon.forceExit && Handles(s.canon, r) {
      DeliverParts(s, r, f, sig);
      if !r.FirstIs? && !r.TxnIs? {
        OthersAskElse(s.canon, r, f, sig);
      }
    }
  }
}
