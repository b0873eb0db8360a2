/** The canonization service: what each callback does to the service instance and what it sends.
    `Canon` is the part of the instance that a round works on.  The callbacks are given here as
    functions from the instance to its next value and its effect; Canonizer.dfy holds the class
    whose methods are proved to compute them. */
module Canonization {
  import opened Ids
  import opened Ledger

  datatype Phase =
    | Idle
    | WaitRandom
    | WaitContextCreate
    | WaitLatestId
    | WaitBlockGet
    | WaitTxnFirst
    | WaitTxnGet
    | WaitBlockMake
    | WaitNotify
    | WaitContextClose

  datatype Canon = Canon(
    forceExit: bool,
    firstTime: bool,
    maxTxns: nat,
    ctx: nat,
    phase: Phase,
    blockId: Uuid,
    prevBlockId: Uuid,
    prevSig: seq<byte>,
    height: nat,
    list: Option<seq<Entry>>,
    signer: seq<byte>)

  /** What a service is configured with: the limit and the id of its key. */
  datatype Setup = Setup(maxTxns: nat, signer: seq<byte>)

  datatype Request =
    | AskRandom
    | AskContext
    | AskLatest(ctx: nat)
    | AskBlock(ctx: nat, id: Uuid)
    | AskFirst(ctx: nat)
    | AskTxn(ctx: nat, id: Uuid)
    | AskWrite(ctx: nat, id: Uuid, cert: BlockCert)
    | AskNotify(id: Uuid)
    | AskClose(ctx: nat)

  /** The outcome of a process queue read as the callback decodes it. */
  datatype ReadAnswer = Failed | NotThere | There(entry: Entry, next: Uuid)

  /** What a peer sends back.  `Broken` stands for a socket failure, a packet too short to
      decode, or a method nobody asked for. */
  datatype Response =
    | RandomIs(valid: bool, id: Uuid)
    | ContextIs(ok: bool, ctx: nat)
    | LatestIs(ok: bool, id: Uuid)
    | BlockIs(ok: bool, height: nat, sig: Option<seq<byte>>)
    | FirstIs(answer: ReadAnswer)
    | TxnIs(answer: ReadAnswer)
    | WriteIs(accepted: bool)
    | NotifyIs(ok: bool)
    | CloseIs
    | Broken

  datatype Effect = Nothing | Send(request: Request) | Arm

  datatype Out = Out(c: Canon, effect: Effect)

  /** Which of the calls a callback makes fail this time, and what the clock says. */
  datatype Faults = Faults(alloc: bool, list: bool, build: bool, send: bool, timer: bool, now: nat)

  const SIGNATURE_SIZE := 64

  function ZeroSignature(): (s: seq<byte>)
    ensures |s| == SIGNATURE_SIZE && forall i :: 0 <= i < |s| ==> s[i] == 0
  {
    seq(SIGNATURE_SIZE, i => 0)
  }

  function Start(setup: Setup): Canon {
    Canon(false, true, setup.maxTxns, 0, Idle, Zero, Zero, ZeroSignature(), 0, None, setup.signer)
  }

  function Exit(c: Canon): Out {
    Out(c.(forceExit := true), Nothing)
  }

  /** A request whose sender moves to the waiting state first. */
  function MoveThenSend(c: Canon, phase: Phase, request: Request, f: Faults): Out {
    if f.send then Exit(c.(phase := phase)) else Out(c.(phase := phase), Send(request))
  }

  /** A request whose sender moves to the waiting state once it is written. */
  function SendThenMove(c: Canon, phase: Phase, request: Request, failed: bool): Out {
    if failed then Exit(c) else Out(c.(phase := phase), Send(request))
  }

  function OnTimer(c: Canon, f: Faults): Out {
    if c.forceExit then Out(c, Nothing)
    else if f.alloc || f.list then Exit(c.(list := None))
    else if f.send then Exit(c.(list := None))
    else SendThenMove(c.(list := Some([])), WaitRandom, AskRandom, false)
  }

  function Reset(c: Canon, shouldSleep: bool, f: Faults): Out {
    var idle := c.(phase := Idle, blockId := Zero, list := None);
    if !shouldSleep then OnTimer(idle, f)
    else if f.timer then Exit(idle)
    else Out(idle, Arm)
  }

  function CloseContext(c: Canon, f: Faults): Out {
    SendThenMove(c, WaitContextClose, AskClose(c.ctx), f.send)
  }

  function NotifyUpdate(c: Canon, f: Faults): Out {
    SendThenMove(c, WaitNotify, AskNotify(c.blockId), f.alloc || f.send)
  }

  function CompleteUpdate(c: Canon, f: Faults): Out {
    if c.firstTime then NotifyUpdate(c.(firstTime := false, blockId := c.prevBlockId), f)
    else CloseContext(c, f)
  }

  function CertsOf(list: seq<Entry>): (certs: seq<Certificate>)
    ensures |certs| == |list|
    ensures forall i :: 0 <= i < |list| ==> certs[i] == list[i].cert
  {
    seq(|list|, i requires 0 <= i < |list| => list[i].cert)
  }

  /** The block certificate built from the instance at a time, with its signature. */
  function BuiltBlock(c: Canon, now: nat, sig: seq<byte>): BlockCert
    requires c.list.Some?
  {
    BlockCert(Some(c.blockId), Some(c.prevBlockId), Some(c.height), c.prevSig, CertsOf(c.list.value), Some(sig),
              Some(c.signer), Some(now))
  }

  function MakeBlock(c: Canon, f: Faults, sig: seq<byte>): Out
    requires c.list.Some?
  {
    if c.list.value == [] then CompleteUpdate(c, f)
    else SendThenMove(c, WaitBlockMake, AskWrite(c.ctx, c.blockId, BuiltBlock(c, f.now, sig)), f.build || f.send)
  }

  /** One step of the queue walk: stop, or take the transaction and ask for the next. */
  function OnRead(c: Canon, first: bool, answer: ReadAnswer, f: Faults, sig: seq<byte>): Out
    requires c.list.Some?
  {
    match answer
    case Failed => Exit(c)
    case NotThere => if first then CompleteUpdate(c, f) else MakeBlock(c, f, sig)
    case There(e, next) =>
      if e.state != Attested then if first then CompleteUpdate(c, f) else MakeBlock(c, f, sig)
      else if f.alloc || f.list then Exit(c)
      else
        var taken := c.(list := Some(c.list.value + [e]));
        if |taken.list.value| == c.maxTxns || IsEnd(next) then MakeBlock(taken, f, sig)
        else SendThenMove(taken, taken.phase, AskTxn(c.ctx, next), f.send)
  }

  function OnLatestId(c: Canon, ok: bool, id: Uuid, f: Faults): Out {
    if !ok then Exit(c)
    else if id == Root then MoveThenSend(c.(prevBlockId := id, height := 1), WaitTxnFirst, AskFirst(c.ctx), f)
    else MoveThenSend(c.(prevBlockId := id), WaitBlockGet, AskBlock(c.ctx, id), f)
  }

  /** A previous block whose signature has the wrong size is taken without its signature. */
  function OnBlock(c: Canon, ok: bool, height: nat, sig: Option<seq<byte>>, f: Faults): Out {
    if !ok then Exit(c)
    else if sig.None? then Exit(c.(height := height + 1))
    else
      var read := c.(height := height + 1,
                     prevSig := if |sig.value| == SIGNATURE_SIZE then sig.value else c.prevSig);
      MoveThenSend(read, WaitTxnFirst, AskFirst(c.ctx), f)
  }

  function OnContextClosed(c: Canon, f: Faults): Out
    requires c.list.Some?
  {
    Reset(c, |c.list.value| != c.maxTxns, f)
  }

  /** The random service callback. */
  function OnRandom(c: Canon, valid: bool, id: Uuid, f: Faults): Out {
    if c.phase != WaitRandom || !valid then Exit(c)
    else MoveThenSend(c.(blockId := id), WaitContextCreate, AskContext, f)
  }

  /** The notification service callback. */
  function OnNotified(c: Canon, ok: bool, f: Faults): Out {
    if c.phase != WaitNotify || !ok then Exit(c) else CloseContext(c, f)
  }

  /** A response needs the transaction list that the timer callback allocates. */
  predicate Handles(c: Canon, r: Response) {
    r.FirstIs? || r.TxnIs? || r.CloseIs? ==> c.list.Some?
  }

  /** Every callback, dispatched by the kind of response; nothing is read after a forced exit. */
  function OnResponse(c: Canon, r: Response, f: Faults, sig: seq<byte>): Out
    requires Handles(c, r)
  {
    if c.forceExit then Out(c, Nothing)
    else
      match r
      case RandomIs(valid, id) => OnRandom(c, valid, id, f)
      case ContextIs(ok, ctx) =>
        if !ok then Exit(c) else MoveThenSend(c.(ctx := ctx), WaitLatestId, AskLatest(ctx), f)
      case LatestIs(ok, id) => OnLatestId(c, ok, id, f)
      case BlockIs(ok, height, s) => OnBlock(c, ok, height, s, f)
      case FirstIs(answer) => OnRead(c, true, answer, f, sig)
      case TxnIs(answer) => OnRead(c, false, answer, f, sig)
      case WriteIs(_) => NotifyUpdate(c, f)
      case NotifyIs(ok) => OnNotified(c, ok, f)
      case CloseIs => OnContextClosed(c, f)
      case Broken => Exit(c)
  }
}
