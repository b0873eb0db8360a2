/** Which responses and which faults make the canonization service exit, told from the response, the
    instance and the faults alone. */
module Exits {
  import opened Ids
  import opened Ledger
  import opened Canonization

  /** A peer has failed, or has sent something it was not asked for. */
  predicate Bad(c: Canon, r: Response) {
    match r
    case RandomIs(valid, _) => !valid || c.phase != WaitRandom
    case ContextIs(ok, _) => !ok
    case LatestIs(ok, _) => !ok
    case BlockIs(ok, _, sig) => !ok || sig.None?
    case FirstIs(a) => a.Failed?
    case TxnIs(a) => a.Failed?
    case NotifyIs(ok) => !ok || c.phase != WaitNotify
    case WriteIs(_) => false
    case CloseIs => false
    case Broken => true
  }

  function Unfailing(f: Faults): Faults {
    Faults(false, false, false, false, false, f.now)
  }

  /** Without faults the service exits exactly over a bad response; a rejected block is none, nor is
      a response it did not wait for, random numbers and notifications apart. */
  lemma ExitsExactly(c: Canon, r: Response, f: Faults, sig: seq<byte>)
    requires !c.forceExit && Handles(c, r)
    ensures OnResponse(c, r, Unfailing(f), sig).c.forceExit <==> Bad(c, r)
    ensures Bad(c, r) ==> OnResponse(c, r, Unfailing(f), sig).effect == Nothing
    ensures !Bad(c, r) ==> OnResponse(c, r, Unfailing(f), sig).effect != Nothing
  {}

  predicate TakesOne(r: Response) {
    (r.FirstIs? || r.TxnIs?) && r.answer.There? && r.answer.entry.state == Attested
  }

  /** A call fails that the callback makes: it takes a transaction into its list, starts a list,
      builds a block or a notification, sends a request, or sets the timer. */
  predicate Hits(r: Response, e: Effect, f: Faults) {
    || (TakesOne(r) && (f.alloc || f.list))
    || (e.Arm? && f.timer)
    || (e.Send? && (|| f.send
                    || (e.request.AskRandom? && (f.alloc || f.list))
                    || (e.request.AskWrite? && f.build)
                    || (e.request.AskNotify? && f.alloc)))
  }

  /** With faults it does what it does without them, unless one of them hits a call it makes; and
      then it exits and does nothing else. */
  lemma FaultsExactly(c: Canon, r: Response, f: Faults, sig: seq<byte>)
    requires !c.forceExit && Handles(c, r)
    ensures var calm, o := OnResponse(c, r, Unfailing(f), sig), OnResponse(c, r, f, sig);
      if !Bad(c, r) && Hits(r, calm.effect, f) then o.c.forceExit && o.effect == Nothing else o == calm
  {
    if r.FirstIs? || r.TxnIs? {
      ReadFaults(c, r.FirstIs?, r.answer, f, sig);
    }
  }

  lemma ReadFaults(c: Canon, first: bool, a: ReadAnswer, f: Faults, sig: seq<byte>)
    requires !c.forceExit && c.list.Some?
    ensures var calm, o := OnRead(c, first, a, Unfailing(f), sig), OnRead(c, first, a, f, sig);
      if !a.Failed? && Hits(FirstIs(a), calm.effect, f) then o.c.forceExit && o.effect == Nothing else o == calm
  {}

  /** The timer starts a round with an empty list, unless a call fails; and then no list is left. */
  lemma TimerExactly(c: Canon, f: Faults)
    requires !c.forceExit
    ensures var o := OnTimer(c, f);
      if f.alloc || f.list || f.send then o == Out(c.(forceExit := true, list := None), Nothing)
      else o == Out(c.(list := Some([]), phase := WaitRandom), Send(AskRandom))
  {}

  /** A failed call leaves the instance waiting for what it could not ask for, if it is one of the
      four requests that come before the walk, and where it was otherwise. */
  lemma PhaseAfterFailure(c: Canon, r: Response, f: Faults, sig: seq<byte>)
    requires !c.forceExit && Handles(c, r) && !r.CloseIs? && !Bad(c, r)
    requires Hits(r, OnResponse(c, r, Unfailing(f), sig).effect, f)
    ensures OnResponse(c, r, f, sig).c.phase ==
      if r.RandomIs? then WaitContextCreate
      else if r.ContextIs? then WaitLatestId
      else if r.LatestIs? then (if r.id == Root then WaitTxnFirst else WaitBlockGet)
      else if r.BlockIs? then WaitTxnFirst
      else c.phase
  {
    if r.FirstIs? || r.TxnIs? {
      PhaseAfterFailedRead(c, r, f, sig);
    }
  }

  lemma PhaseAfterFailedRead(c: Canon, r: Response, f: Faults, sig: seq<byte>)
    requires !c.forceExit && c.list.Some? && (r.FirstIs? || r.TxnIs?) && !r.answer.Failed?
    requires Hits(r, OnResponse(c, r, Unfailing(f), sig).effect, f)
    ensures OnResponse(c, r, f, sig).c.phase == c.phase
  {}

  /** A previous block whose signature has another size is taken without its signature: the next
      block carries the one the instance had before. */
  lemma WrongSizeSignature(c: Canon, height: nat, blockSig: seq<byte>, f: Faults, sig: seq<byte>)
    requires !c.forceExit && |blockSig| != 64 && !f.send
    ensures OnResponse(c, BlockIs(true, height, Some(blockSig)), f, sig)
         == Out(c.(height := height + 1, phase := WaitTxnFirst), Send(AskFirst(c.ctx)))
  {}
}
