/** What the canonization service and its peers keep whoever submits what: one message in flight
    that fits the state, a linked chain, and the accounts of contexts, notifications and rounds. */
module Conversation {
  import opened Ids
  import opened Ledger
  import opened Canonization
  import opened Protocol

  // ---------- the chain ----------

  /** The signature the next block must carry. */
  function LastSignature(chain: seq<Block>): seq<byte> {
    if chain == [] || chain[|chain| - 1].sig.None? then ZeroSignature() else chain[|chain| - 1].sig.value
  }

  /** Block `i` has height `i + 1`, names the block before it and carries its signature. */
  predicate BlockLinked(chain: seq<Block>, i: nat)
    requires i < |chain|
  {
    && SaneBlockId(chain[i].id)
    && chain[i].height == i + 1
    && chain[i].prev == Latest(chain[..i])
    && chain[i].prevSig == LastSignature(chain[..i])
    && chain[i].sig.Some? && |chain[i].sig.value| == SIGNATURE_SIZE
    && chain[i].certs != []
  }

  predicate ChainLinked(chain: seq<Block>) {
    forall i :: 0 <= i < |chain| ==> BlockLinked(chain, i)
  }

  lemma ChainLinkedAppend(chain: seq<Block>, blk: Block)
    requires ChainLinked(chain)
    requires SaneBlockId(blk.id) && blk.height == |chain| + 1 && blk.prev == Latest(chain)
    requires blk.prevSig == LastSignature(chain) && blk.sig.Some? && |blk.sig.value| == SIGNATURE_SIZE
    requires blk.certs != []
    ensures ChainLinked(chain + [blk])
  {
    var chain' := chain + [blk];
    forall i | 0 <= i < |chain'| ensures BlockLinked(chain', i) {
      assert chain'[..i] == chain[..i];
      if i < |chain| {
        assert BlockLinked(chain, i);
      } else {
        assert chain[..i] == chain;
      }
    }
  }

  // ---------- the queue ----------

  /** What every queue is: no key twice, and no sentinel. */
  predicate Plain(q: seq<Entry>) {
    Distinct(Keys(q)) && forall i :: 0 <= i < |q| ==> !Sentinel(q[i].key)
  }

  predicate AttPlain(att: Attest) {
    match att
    case Fetching(k, _) => !Sentinel(k)
    case At(_, next) => next == Ones || !Sentinel(next)
    case _ => true
  }

  // ---------- messages in flight ----------

  /** The instance holds the right links for the next block. */
  predicate LinksOk(c: Canon, chain: seq<Block>) {
    && c.height == |chain| + 1
    && c.prevBlockId == Latest(chain)
    && c.prevSig == LastSignature(chain)
  }

  predicate Walking(c: Canon, chain: seq<Block>) {
    && c.phase == WaitTxnFirst && c.list.Some?
    && LinksOk(c, chain)
    && (c.maxTxns >= 1 ==> |c.list.value| < c.maxTxns)
  }

  predicate Collecting(c: Canon, phase: Phase) {
    c.phase == phase && c.list == Some([])
  }

  predicate Finishing(c: Canon, phase: Phase) {
    c.phase == phase && c.list.Some? && (c.maxTxns >= 1 ==> |c.list.value| <= c.maxTxns)
  }

  /** A block write request carries the links of the chain. */
  predicate HeaderOk(chain: seq<Block>, id: Uuid, b: BlockCert) {
    && b.certs != []
    && b.id == Some(id)
    && b.height == Some(|chain| + 1)
    && b.prev == Some(Latest(chain))
    && b.prevSig == LastSignature(chain)
    && b.sig.Some? && |b.sig.value| == SIGNATURE_SIZE
  }

  predicate QueryOk(c: Canon, chain: seq<Block>, q: Query) {
    match q
    case FirstFound(_) => Walking(c, chain) && c.list.value == []
    case Asked(AskRandom) => Collecting(c, WaitRandom)
    case Asked(AskContext) => Collecting(c, WaitContextCreate)
    case Asked(AskLatest(_)) => Collecting(c, WaitLatestId)
    case Asked(AskBlock(_, id)) =>
      Collecting(c, WaitBlockGet) && chain != [] && id == c.prevBlockId == Latest(chain)
    case Asked(AskFirst(_)) => Walking(c, chain) && c.list.value == []
    case Asked(AskTxn(_, _)) => Walking(c, chain) && c.list.value != []
    case Asked(AskWrite(_, id, b)) => Finishing(c, WaitBlockMake) && id == c.blockId
    case Asked(AskNotify(id)) => Finishing(c, WaitNotify) && id == c.blockId
    case Asked(AskClose(_)) => Finishing(c, WaitContextClose)
  }

  predicate ResponseOk(c: Canon, chain: seq<Block>, r: Response) {
    match r
    case RandomIs(_, _) => Collecting(c, WaitRandom)
    case ContextIs(_, _) => Collecting(c, WaitContextCreate)
    case LatestIs(ok, id) => Collecting(c, WaitLatestId) && (ok ==> id == Latest(chain))
    case BlockIs(ok, height, sig) =>
      && Collecting(c, WaitBlockGet) && chain != [] && c.prevBlockId == Latest(chain)
      && (ok ==> height == |chain| && sig == Some(LastSignature(chain)))
    case FirstIs(a) => Walking(c, chain) && c.list.value == [] && NextPlain(a)
    case TxnIs(a) => Walking(c, chain) && c.list.value != [] && NextPlain(a)
    case WriteIs(accepted) => Finishing(c, WaitBlockMake) && (accepted ==> Latest(chain) == c.blockId)
    case NotifyIs(_) => Finishing(c, WaitNotify)
    case CloseIs => Finishing(c, WaitContextClose)
    case Broken => false
  }

  predicate NextPlain(a: ReadAnswer) {
    a.There? ==> a.next == Ones || !Sentinel(a.next)
  }

  function Tokens(s: Sys): nat {
    |s.asked| + |s.answered| + if s.armed then 1 else 0
  }

  /** One token at most, and one exactly while the service runs; the instance agrees with it. */
  predicate Single(s: Sys) {
    && Tokens(s) <= 1
    && (!s.canon.forceExit ==>
          && Tokens(s) == 1
          && (s.armed ==> s.canon.phase == Idle && s.canon.list == None)
          && (s.asked != [] ==> QueryOk(s.canon, s.store.chain, s.asked[0]))
          && (s.answered != [] ==> ResponseOk(s.canon, s.store.chain, s.answered[0]))
          && (s.store.chain == [] ==> s.canon.prevSig == ZeroSignature()))
  }

  /** A pending read names no sentinel and a pending write has the right links, even when the
      service that sent them has exited. */
  predicate PendingOk(chain: seq<Block>, asked: seq<Query>) {
    asked != [] ==>
      match asked[0]
      case FirstFound(k) => !Sentinel(k)
      case Asked(AskTxn(_, id)) => !Sentinel(id)
      case Asked(AskWrite(_, id, b)) => HeaderOk(chain, id, b)
      case _ => true
  }

  // ---------- accounts ----------

  function Notices(sent: seq<Request>): nat {
    if sent == [] then 0
    else Notices(sent[..|sent| - 1]) + if sent[|sent| - 1].AskNotify? then 1 else 0
  }

  lemma NoticesAppend(sent: seq<Request>, r: Request)
    ensures Notices(sent + [r]) == Notices(sent) + if r.AskNotify? then 1 else 0
  {
    assert (sent + [r])[..|sent|] == sent;
  }

  /** Whether a child context is open, told from the message in flight. */
  function Open(s: Sys): nat {
    if s.armed then 0
    else if s.asked != [] then
      if s.asked[0] == Asked(AskRandom) || s.asked[0] == Asked(AskContext) then 0 else 1
    else if s.answered != [] then
      match s.answered[0]
      case RandomIs(_, _) => 0
      case ContextIs(ok, _) => if ok then 1 else 0
      case CloseIs => 0
      case _ => 1
    else 0
  }

  predicate ContextsOk(s: Sys) {
    && s.log.closes <= s.log.opens <= s.log.closes + 1
    && (!s.canon.forceExit || s.asked != [] ==> s.log.opens == s.log.closes + Open(s))
  }

  /** One notification per block write response, and one for the first round that found nothing. */
  predicate NoticesOk(s: Sys) {
    !s.canon.forceExit ==>
      && Notices(s.log.sent) == s.log.writeReplies + (if s.log.emptyRounds > 0 then 1 else 0)
      && (s.canon.firstTime <==> s.log.emptyRounds == 0)
  }

  /** How many responses the round can still take. */
  function Rank(c: Canon): int {
    match c.phase
    case Idle => 0
    case WaitRandom => c.maxTxns + 7
    case WaitContextCreate => c.maxTxns + 6
    case WaitLatestId => c.maxTxns + 5
    case WaitBlockGet => c.maxTxns + 4
    case WaitTxnFirst => c.maxTxns - (if c.list.Some? then |c.list.value| else 0) + 3
    case WaitTxnGet => 0
    case WaitBlockMake => 3
    case WaitNotify => 2
    case WaitContextClose => 1
  }

  predicate RoundOk(s: Sys) {
    s.canon.maxTxns >= 1 ==>
      && s.log.longest <= s.canon.maxTxns + 7
      && (!s.canon.forceExit ==> s.log.replies + Rank(s.canon) <= s.canon.maxTxns + 7)
  }

  predicate Base(s: Sys) {
    && ChainLinked(s.store.chain)
    && Plain(s.store.queue)
    && AttPlain(s.att)
    && Single(s)
    && PendingOk(s.store.chain, s.asked)
    && ContextsOk(s)
    && NoticesOk(s)
    && RoundOk(s)
    && !s.log.crashed
  }

  // ---------- steps of submitters and of the attestation service ----------

  /** The conversation does not depend on what is in the queue. */
  lemma QueueChange(s: Sys, q: seq<Entry>, att: Attest, submitted: seq<Uuid>, dropped: set<Uuid>, honest: bool,
                    lost: bool)
    requires Base(s) && Plain(q) && AttPlain(att)
    ensures Base(WithQueue(s, q).(
      att := att, log := s.log.(submitted := submitted, dropped := dropped, honest := honest, lost := lost)))
  {}

  lemma SubmitPlain(q: seq<Entry>, e: Entry)
    requires Plain(q) && Submittable(q, e.key)
    ensures Plain(q + [e])
  {
    assert Keys(q + [e]) == Keys(q) + [e.key];
    DistinctSnoc(Keys(q), e.key);
  }

  lemma PromotePlain(q: seq<Entry>, key: Uuid)
    requires Plain(q)
    ensures Plain(Promote(q, key)) && Keys(Promote(q, key)) == Keys(q)
  {
    assert Keys(Promote(q, key)) == Keys(q);
  }

  lemma RemovePlain(q: seq<Entry>, p: nat)
    requires Plain(q) && p < |q|
    ensures Plain(RemoveAt(q, p))
  {
    var r := RemoveAt(q, p);
    assert forall i :: 0 <= i < |r| ==> r[i] == q[if i < p then i else i + 1];
    assert forall i :: 0 <= i < |r| ==> Keys(r)[i] == Keys(q)[if i < p then i else i + 1];
  }

  lemma WithoutPlain(q: seq<Entry>, gone: set<Uuid>)
    requires Plain(q)
    ensures Plain(Without(q, gone))
  {
    WithoutDistinct(q, gone);
    var w := Without(q, gone);
    forall i | 0 <= i < |w| ensures !Sentinel(w[i].key) {
      WithoutMembers(q, gone, w[i]);
    }
  }

  lemma SubmitBase(s: Sys, key: Uuid, artifact: Uuid, cert: Certificate)
    requires Base(s)
    ensures Base(Enter(s, key, artifact, cert))
  {
    var t := Enter(s, key, artifact, cert);
    if Submittable(s.store.queue, key) {
      SubmitPlain(s.store.queue, Entry(key, artifact, cert, EntryState(s.attesting)));
    }
    QueueChange(s, t.store.queue, s.att, t.log.submitted, s.log.dropped, t.log.honest, s.log.lost);
  }

  lemma ReadBase(s: Sys)
    requires Base(s) && s.att.Fetching?
    ensures Base(Read(s, s.att.key, s.att.first))
  {
    var t := Read(s, s.att.key, s.att.first);
    ReadShape(s, s.att.key, s.att.first);
    QueueChange(s, s.store.queue, t.att, s.log.submitted, s.log.dropped, s.log.honest, t.log.lost);
  }

  lemma ReadShape(s: Sys, key: Uuid, first: bool)
    requires Plain(s.store.queue)
    ensures var t := Read(s, key, first);
      AttPlain(t.att) && t == s.(att := t.att, log := s.log.(lost := t.log.lost))
  {
    ReadLeaves(s, key, first);
    NextKeyPlain(s.store.queue, key);
  }

  lemma ReadLeaves(s: Sys, key: Uuid, first: bool)
    ensures var t := Read(s, key, first); t == s.(att := t.att, log := s.log.(lost := t.log.lost))
  {}

  lemma NextKeyPlain(q: seq<Entry>, key: Uuid)
    requires Plain(q)
    ensures var found := Get(q, key); found.Found? ==> found.next == Ones || !Sentinel(found.next)
  {}

  lemma JudgeBase(s: Sys, accept: bool, recorded: bool)
    requires Base(s) && s.att.At?
    ensures Base(Judge(s, s.att.entry, s.att.next, accept, recorded))
  {
    var q, e := s.store.queue, s.att.entry;
    var t := Judge(s, e, s.att.next, accept, recorded);
    if accept {
      PromotePlain(q, e.key);
    } else if e.key in Keys(q) {
      RemovePlain(q, Position(q, e.key));
    }
    QueueChange(s, t.store.queue, t.att, s.log.submitted, t.log.dropped, s.log.honest, t.log.lost);
  }

  // ---------- the timer and the peers ----------

  /** What serving a request leaves alone, whatever the request. */
  predicate SameBut(s: Sys, t: Sys) {
    && t.attesting == s.attesting && t.canon == s.canon && t.armed == s.armed && t.att == s.att
    && t.log.submitted == s.log.submitted && t.log.dropped == s.log.dropped && t.log.honest == s.log.honest
    && t.log.sent == s.log.sent && t.log.lost == s.log.lost
  }

  predicate IsWrite(q: Query) {
    q.Asked? && q.request.AskWrite?
  }

  lemma ServeReads(s: Sys, i: nat, choice: Choice)
    requires i < |s.asked| && !IsWrite(s.asked[i])
    ensures SameBut(s, Serve(s, i, choice)) && Serve(s, i, choice).store == s.store
  {
    if QueueQuery(s.asked[i]) {
      ServeQueueReads(s, i, choice);
    } else {
      ServeOtherReads(s, i, choice);
    }
  }

  lemma ServeQueueReads(s: Sys, i: nat, choice: Choice)
    requires i < |s.asked| && QueueQuery(s.asked[i])
    ensures SameBut(s, Serve(s, i, choice)) && Serve(s, i, choice).store == s.store
  {}

  lemma ServeOtherReads(s: Sys, i: nat, choice: Choice)
    requires i < |s.asked| && !QueueQuery(s.asked[i]) && !IsWrite(s.asked[i])
    ensures SameBut(s, Serve(s, i, choice)) && Serve(s, i, choice).store == s.store
  {}

  lemma ServeWrites(s: Sys, i: nat, choice: Choice)
    requires i < |s.asked| && IsWrite(s.asked[i])
    ensures SameBut(s, Serve(s, i, choice))
    ensures Serve(s, i, choice).store ==
      if choice.ok then Write(s.store, s.asked[i].request.id, s.asked[i].request.cert) else s.store
  {}

  lemma ServeLeaves(s: Sys, i: nat, choice: Choice)
    requires i < |s.asked|
    ensures SameBut(s, Serve(s, i, choice))
  {
    if IsWrite(s.asked[i]) {
      ServeWrites(s, i, choice);
    } else {
      ServeReads(s, i, choice);
    }
  }

  lemma TimerBase(s: Sys, f: Faults)
    requires Base(s) && s.armed
    ensures Base(FireTimer(s, f))
  {
    NoticesAppend(s.log.sent, AskRandom);
    TimerShape(s, f);
  }

  /** The timer starts a round, or the service exits. */
  lemma TimerShape(s: Sys, f: Faults)
    requires Single(s) && s.armed
    ensures var t := FireTimer(s, f);
      && t.store == s.store && t.att == s.att && !t.armed && t.answered == []
      && if t.canon.forceExit
         then t.asked == [] && t.log == s.log.(replies := 0) && t.canon.maxTxns == s.canon.maxTxns
         else
           && t.asked == [Asked(AskRandom)]
           && t.canon == s.canon.(list := Some([]), phase := WaitRandom)
           && t.log == s.log.(replies := 0, sent := s.log.sent + [AskRandom])
  {}

  lemma KillBase(s: Sys)
    requires Base(s)
    ensures Base(s.(canon := s.canon.(forceExit := true)))
  {}

  /** The state once the pending request has been answered. */
  function Replied(s: Sys, r: Response): Sys {
    s.(asked := [], answered := [r])
  }

  lemma ReplyBase(s: Sys, r: Response, opens: nat, context: nat, closes: nat)
    requires Base(s) && s.asked != []
    requires !s.canon.forceExit ==> ResponseOk(s.canon, s.store.chain, r)
    requires closes <= opens <= closes + 1
    requires opens == closes + Open(Replied(s, r))
    ensures Base(Replied(s, r).(log := s.log.(opens := opens, context := context, closes := closes)))
  {}

  lemma ServeBase(s: Sys, choice: Choice)
    requires Base(s) && s.asked != []
    ensures Base(Serve(s, 0, choice))
  {
    if QueueQuery(s.asked[0]) {
      ServeQueueBase(s, choice);
    } else if s.asked[0].request.AskWrite? {
      ServeWriteBase(s, choice);
    } else if s.asked[0].request.AskBlock? {
      ServeBlockBase(s, choice);
    } else {
      ServeOtherBase(s, choice);
    }
  }

  /** The answer to a request that does not concern the queue or a block. */
  function OtherAnswer(chain: seq<Block>, req: Request, choice: Choice): Response {
    if req.AskRandom? then RandomIs(choice.ok, choice.id)
    else if req.AskContext? then ContextIs(choice.ok, choice.ctx)
    else if req.AskLatest? then LatestIs(choice.ok, if choice.ok then Latest(chain) else Zero)
    else if req.AskNotify? then NotifyIs(choice.ok) else CloseIs
  }

  predicate Other(req: Request) {
    req.AskRandom? || req.AskContext? || req.AskLatest? || req.AskNotify? || req.AskClose?
  }

  lemma OtherServed(s: Sys, req: Request, choice: Choice)
    requires s.asked == [Asked(req)] && s.answered == [] && Other(req)
    ensures Serve(s, 0, choice) == Replied(s, OtherAnswer(s.store.chain, req, choice)).(log := s.log.(
      opens := if req.AskContext? && choice.ok then s.log.opens + 1 else s.log.opens,
      context := if req.AskContext? && choice.ok then choice.ctx else s.log.context,
      closes := if req.AskClose? then s.log.closes + 1 else s.log.closes))
  {}

  lemma OtherOk(s: Sys, req: Request, choice: Choice)
    requires Single(s) && ContextsOk(s) && s.asked == [Asked(req)] && Other(req)
    ensures var r := OtherAnswer(s.store.chain, req, choice);
      && (!s.canon.forceExit ==> ResponseOk(s.canon, s.store.chain, r))
      && var opens := if req.AskContext? && choice.ok then s.log.opens + 1 else s.log.opens;
         var closes := if req.AskClose? then s.log.closes + 1 else s.log.closes;
         closes <= opens <= closes + 1 && opens == closes + Open(Replied(s, r))
  {}

  lemma ServeOtherBase(s: Sys, choice: Choice)
    requires Base(s) && s.asked != [] && s.asked[0].Asked? && Other(s.asked[0].request)
    ensures Base(Serve(s, 0, choice))
  {
    var req := s.asked[0].request;
    assert s.asked == [Asked(req)];
    OtherOk(s, req, choice);
    ReplyBase(s, OtherAnswer(s.store.chain, req, choice),
              if req.AskContext? && choice.ok then s.log.opens + 1 else s.log.opens,
              if req.AskContext? && choice.ok then choice.ctx else s.log.context,
              if req.AskClose? then s.log.closes + 1 else s.log.closes);
    OtherServed(s, req, choice);
  }

  /** An answer that opens and closes no context. */
  lemma PlainReplyBase(s: Sys, r: Response)
    requires Base(s) && s.asked != [] && Open(Replied(s, r)) == 1
    requires s.asked[0] != Asked(AskRandom) && s.asked[0] != Asked(AskContext)
    requires !s.canon.forceExit ==> ResponseOk(s.canon, s.store.chain, r)
    ensures Base(Replied(s, r))
  {}

  lemma ServeBlockBase(s: Sys, choice: Choice)
    requires Base(s) && s.asked != [] && s.asked[0].Asked? && s.asked[0].request.AskBlock?
    ensures Base(Serve(s, 0, choice))
  {
    var req := s.asked[0].request;
    assert s.asked == [Asked(req)];
    BlockOk(s.canon, s.store.chain, req, choice.ok);
    PlainReplyBase(s, BlockAnswer(choice.ok, s.store.chain, req.id));
    BlockServed(s, req, choice);
  }

  lemma BlockServed(s: Sys, req: Request, choice: Choice)
    requires s.asked == [Asked(req)] && s.answered == [] && req.AskBlock?
    ensures Serve(s, 0, choice) == Replied(s, BlockAnswer(choice.ok, s.store.chain, req.id))
  {}

  lemma BlockOk(c: Canon, chain: seq<Block>, req: Request, ok: bool)
    requires req.AskBlock? && ChainLinked(chain)
    ensures !c.forceExit && QueryOk(c, chain, Asked(req)) ==> ResponseOk(c, chain, BlockAnswer(ok, chain, req.id))
  {
    if chain != [] {
      assert BlockLinked(chain, |chain| - 1);
    }
  }

  lemma ReadPlain(q: seq<Entry>, key: Uuid, ok: bool)
    requires Plain(q)
    ensures NextPlain(ReadOf(ok, Get(q, key)))
  {}

  /** The answer to a queue read that needs no second read. */
  function QueueAnswer(q: seq<Entry>, query: Query, choice: Choice): Response
    requires QueueQuery(query)
  {
    match query
    case FirstFound(k) => FirstIs(ReadOf(choice.ok, Get(q, k)))
    case Asked(AskTxn(_, id)) => TxnIs(ReadOf(choice.ok, Get(q, id)))
    case _ => FirstIs(if choice.ok then NotThere else Failed)
  }

  predicate QueueQuery(query: Query) {
    query.FirstFound? || query.request.AskTxn? || query.request.AskFirst?
  }

  /** The first of two reads has found a head. */
  predicate NeedsSecondRead(q: seq<Entry>, query: Query, choice: Choice) {
    query.Asked? && query.request.AskFirst? && choice.ok && q != []
  }

  lemma QueueServed(s: Sys, query: Query, choice: Choice)
    requires s.asked == [query] && s.answered == [] && QueueQuery(query)
    ensures Serve(s, 0, choice) ==
      if NeedsSecondRead(s.store.queue, query, choice) then s.(asked := [FirstFound(s.store.queue[0].key)])
      else Replied(s, QueueAnswer(s.store.queue, query, choice))
  {}

  lemma QueueAnswerOk(c: Canon, chain: seq<Block>, q: seq<Entry>, query: Query, choice: Choice)
    requires Plain(q) && QueueQuery(query) && QueryOk(c, chain, query)
    ensures ResponseOk(c, chain, QueueAnswer(q, query, choice))
  {
    if query.FirstFound? {
      ReadPlain(q, query.key, choice.ok);
    } else if query.request.AskTxn? {
      ReadPlain(q, query.request.id, choice.ok);
    }
  }

  lemma ServeQueueBase(s: Sys, choice: Choice)
    requires Base(s) && s.asked != [] && QueueQuery(s.asked[0])
    ensures Base(Serve(s, 0, choice))
  {
    var q, query := s.store.queue, s.asked[0];
    assert s.asked == [query];
    QueueServed(s, query, choice);
    if NeedsSecondRead(q, query, choice) {
      FirstFoundBase(s);
    } else {
      if !s.canon.forceExit {
        QueueAnswerOk(s.canon, s.store.chain, q, query, choice);
      }
      PlainReplyBase(s, QueueAnswer(q, query, choice));
    }
  }

  lemma FirstFoundBase(s: Sys)
    requires Base(s) && s.asked != [] && s.asked[0].Asked? && s.asked[0].request.AskFirst? && s.store.queue != []
    ensures Base(s.(asked := [FirstFound(s.store.queue[0].key)]))
  {}

  /** The answer to a block write, and what it does to the store. */
  function WriteAnswer(store: Store, req: Request, choice: Choice): (Store, Response)
    requires req.AskWrite?
  {
    if choice.ok then (Write(store, req.id, req.cert), WriteIs(Accepts(store, req.id, req.cert)))
    else (store, WriteIs(false))
  }

  lemma WriteServed(s: Sys, req: Request, choice: Choice)
    requires s.asked == [Asked(req)] && s.answered == [] && req.AskWrite?
    ensures var w := WriteAnswer(s.store, req, choice); Serve(s, 0, choice) == Replied(s, w.1).(store := w.0)
  {}

  /** A write with the right links keeps the chain linked, accepted or not. */
  lemma WriteAnswerOk(store: Store, req: Request, choice: Choice)
    requires req.AskWrite? && HeaderOk(store.chain, req.id, req.cert) && ChainLinked(store.chain) && Plain(store.queue)
    ensures var w := WriteAnswer(store, req, choice);
      && ChainLinked(w.0.chain) && Plain(w.0.queue)
      && (store.chain != [] ==> w.0.chain != [])
      && w.1.WriteIs? && (w.1.accepted ==> w.0.chain != [] && Latest(w.0.chain) == req.id)
      && (w.0.chain == [] ==> store.chain == [])
  {
    if choice.ok && Accepts(store, req.id, req.cert) {
      ChainLinkedAppend(store.chain, BlockOf(req.cert));
      WithoutPlain(store.queue, IdSet(req.cert.certs));
    }
  }

  lemma ServeWriteBase(s: Sys, choice: Choice)
    requires Base(s) && s.asked != [] && s.asked[0].Asked? && s.asked[0].request.AskWrite?
    ensures Base(Serve(s, 0, choice))
  {
    var req := s.asked[0].request;
    assert s.asked == [Asked(req)];
    var w := WriteAnswer(s.store, req, choice);
    WriteAnswerOk(s.store, req, choice);
    WrittenBase(s, req, w.0, w.1);
    WriteServed(s, req, choice);
  }

  /** A write has been answered. */
  lemma WrittenBase(s: Sys, req: Request, store: Store, r: Response)
    requires Base(s) && s.asked == [Asked(req)] && req.AskWrite?
    requires ChainLinked(store.chain) && Plain(store.queue) && (store.chain == [] ==> s.store.chain == [])
    requires r.WriteIs? && (r.accepted ==> Latest(store.chain) == req.id)
    ensures Base(Replied(s, r).(store := store))
  {}

  // ---------- responses ----------

  function One(b: bool): nat {
    if b then 1 else 0
  }

  /** What a callback must do for the conversation to go on: exit, sleep, or send the one request
      that fits its next state. */
  predicate GoodOut(s: Sys, r: Response, o: Out) {
    && o.c.maxTxns == s.canon.maxTxns
    && match o.effect
       case Nothing => o.c.forceExit
       case Arm =>
         && !o.c.forceExit && r.CloseIs? && o.c.phase == Idle && o.c.list == None
         && o.c.firstTime == s.canon.firstTime && o.c.prevSig == s.canon.prevSig
       case Send(q) => !o.c.forceExit && GoodSend(s, r, o.c, q)
  }

  predicate GoodSend(s: Sys, r: Response, c: Canon, q: Request) {
    && QueryOk(c, s.store.chain, Asked(q))
    && PendingOk(s.store.chain, [Asked(q)])
    && (s.store.chain == [] ==> c.prevSig == ZeroSignature())
    && Open(s) == One(!q.AskRandom? && !q.AskContext?)
    && GoodNotice(s.canon, r, c, q)
    && (if r.CloseIs? then c.phase == WaitRandom else c.maxTxns >= 1 ==> Rank(c) < Rank(s.canon))
  }

  /** A notification goes out after a block write, and when the first empty round completes. */
  predicate GoodNotice(before: Canon, r: Response, c: Canon, q: Request) {
    && (q.AskNotify? <==> r.WriteIs? || (FoundNothing(before, r) && before.firstTime))
    && c.firstTime == (before.firstTime && !FoundNothing(before, r))
  }

  lemma EmitBase(s: Sys, r: Response, f: Faults, sig: seq<byte>)
    requires Base(s) && s.answered == [r] && !s.canon.forceExit && Handles(s.canon, r)
    requires GoodOut(s, r, OnResponse(s.canon, r, f, sig))
    ensures Base(Deliver(s, 0, f, sig))
  {
    var o := OnResponse(s.canon, r, f, sig);
    match o.effect {
      case Nothing => EmitExit(s, r, f, sig);
      case Arm => EmitArm(s, r, f, sig);
      case Send(q) => EmitSend(s, r, f, sig, q);
    }
  }

  lemma EmitExit(s: Sys, r: Response, f: Faults, sig: seq<byte>)
    requires Base(s) && s.answered == [r] && !s.canon.forceExit && Handles(s.canon, r)
    requires OnResponse(s.canon, r, f, sig).effect == Nothing && GoodOut(s, r, OnResponse(s.canon, r, f, sig))
    ensures Base(Deliver(s, 0, f, sig))
  {}

  lemma EmitArm(s: Sys, r: Response, f: Faults, sig: seq<byte>)
    requires Base(s) && s.answered == [r] && !s.canon.forceExit && Handles(s.canon, r)
    requires OnResponse(s.canon, r, f, sig).effect == Arm && GoodOut(s, r, OnResponse(s.canon, r, f, sig))
    ensures Base(Deliver(s, 0, f, sig))
  {}

  lemma EmitSend(s: Sys, r: Response, f: Faults, sig: seq<byte>, q: Request)
    requires Base(s) && s.answered == [r] && !s.canon.forceExit && Handles(s.canon, r)
    requires OnResponse(s.canon, r, f, sig).effect == Send(q) && GoodOut(s, r, OnResponse(s.canon, r, f, sig))
    ensures Base(Deliver(s, 0, f, sig))
  {
    SendShape(s, r, f, sig, q);
    SentBase(s, r, q, Deliver(s, 0, f, sig));
  }

  /** The state after a callback that sends a request. */
  predicate Sent(s: Sys, r: Response, q: Request, t: Sys) {
    && t.store == s.store && t.att == s.att && t.armed == s.armed && t.asked == s.asked + [Asked(q)] && t.answered == []
    && t.log.sent == s.log.sent + [q] && t.log.crashed == s.log.crashed
    && t.log.opens == s.log.opens && t.log.context == s.log.context && t.log.closes == s.log.closes
    && t.log.writeReplies == s.log.writeReplies + One(r.WriteIs?)
    && t.log.emptyRounds == s.log.emptyRounds + One(FoundNothing(s.canon, r))
    && t.log.longest == (if r.CloseIs? && s.log.replies + 1 > s.log.longest then s.log.replies + 1 else s.log.longest)
    && t.log.replies == if r.CloseIs? then 0 else s.log.replies + 1
  }

  lemma SendShape(s: Sys, r: Response, f: Faults, sig: seq<byte>, q: Request)
    requires s.answered == [r] && !s.canon.forceExit && Handles(s.canon, r)
    requires OnResponse(s.canon, r, f, sig).effect == Send(q)
    ensures Sent(s, r, q, Deliver(s, 0, f, sig)) && Deliver(s, 0, f, sig).canon == OnResponse(s.canon, r, f, sig).c
  {}

  lemma SentBase(s: Sys, r: Response, q: Request, t: Sys)
    requires Base(s) && s.answered == [r] && !s.canon.forceExit && Sent(s, r, q, t)
    requires t.canon.maxTxns == s.canon.maxTxns && !t.canon.forceExit && GoodSend(s, r, t.canon, q)
    ensures Base(t)
  {
    NoticesAppend(s.log.sent, q);
    assert s.asked == [] && !s.armed && t.asked == [Asked(q)];
  }

  lemma EarlyResponse(s: Sys, r: Response, f: Faults, sig: seq<byte>)
    requires Base(s) && s.answered == [r] && !s.canon.forceExit && (r.RandomIs? || r.ContextIs?)
    ensures GoodOut(s, r, OnResponse(s.canon, r, f, sig))
  {}

  lemma LinkResponse(s: Sys, r: Response, f: Faults, sig: seq<byte>)
    requires Base(s) && s.answered == [r] && !s.canon.forceExit && (r.LatestIs? || r.BlockIs?)
    ensures GoodOut(s, r, OnResponse(s.canon, r, f, sig))
  {
    var chain := s.store.chain;
    if chain != [] {
      assert BlockLinked(chain, |chain| - 1);
    }
  }

  lemma LateResponse(s: Sys, r: Response, f: Faults, sig: seq<byte>)
    requires Base(s) && s.answered == [r] && !s.canon.forceExit
    requires r.WriteIs? || r.NotifyIs? || r.CloseIs?
    ensures Handles(s.canon, r) && GoodOut(s, r, OnResponse(s.canon, r, f, sig))
  {}

  /** The end of a round that found nothing. */
  lemma CompleteIsGood(s: Sys, r: Response, f: Faults)
    requires Base(s) && s.answered == [r] && !s.canon.forceExit && FoundNothing(s.canon, r)
    ensures GoodOut(s, r, CompleteUpdate(s.canon, f))
  {}

  /** Building the block from a collected list. */
  lemma MakeIsGood(s: Sys, r: Response, c: Canon, f: Faults, sig: seq<byte>)
    requires Base(s) && s.answered == [r] && !s.canon.forceExit && (r.FirstIs? || r.TxnIs?) && !FoundNothing(s.canon, r)
    requires c.list.Some? && c == s.canon.(list := c.list) && c.list.value != []
    requires (c.maxTxns >= 1 ==> |c.list.value| <= c.maxTxns) && |sig| == SIGNATURE_SIZE
    ensures GoodOut(s, r, MakeBlock(c, f, sig))
  {}

  lemma ReadResponse(s: Sys, r: Response, f: Faults, sig: seq<byte>)
    requires Base(s) && s.answered == [r] && !s.canon.forceExit && (r.FirstIs? || r.TxnIs?)
    requires |sig| == SIGNATURE_SIZE
    ensures Handles(s.canon, r) && GoodOut(s, r, OnResponse(s.canon, r, f, sig))
  {
    var c := s.canon;
    if FoundNothing(c, r) {
      CompleteIsGood(s, r, f);
    } else if r.answer.NotThere? || (r.answer.There? && r.answer.entry.state != Attested) {
      MakeIsGood(s, r, c, f, sig);
    } else if r.answer.There? && !f.alloc && !f.list {
      TakeIsGood(s, r, f, sig);
    }
  }

  lemma TakeIsGood(s: Sys, r: Response, f: Faults, sig: seq<byte>)
    requires Base(s) && s.answered == [r] && !s.canon.forceExit && (r.FirstIs? || r.TxnIs?)
    requires |sig| == SIGNATURE_SIZE && r.answer.There? && r.answer.entry.state == Attested && !f.alloc && !f.list
    ensures GoodOut(s, r, OnResponse(s.canon, r, f, sig))
  {
    var c, next := s.canon, r.answer.next;
    var taken := c.(list := Some(c.list.value + [r.answer.entry]));
    if |taken.list.value| == c.maxTxns || IsEnd(next) {
      MakeIsGood(s, r, taken, f, sig);
    }
  }

  /** Whatever the response, its callback is ready for it and does a good thing. */
  lemma AnyResponse(s: Sys, r: Response, f: Faults, sig: seq<byte>)
    requires Base(s) && s.answered == [r] && !s.canon.forceExit && |sig| == SIGNATURE_SIZE
    ensures Handles(s.canon, r) && GoodOut(s, r, OnResponse(s.canon, r, f, sig))
  {
    if r.FirstIs? || r.TxnIs? {
      ReadResponse(s, r, f, sig);
    } else if r.WriteIs? || r.NotifyIs? || r.CloseIs? {
      LateResponse(s, r, f, sig);
    } else if r.LatestIs? || r.BlockIs? {
      LinkResponse(s, r, f, sig);
    } else {
      EarlyResponse(s, r, f, sig);
    }
  }

  lemma DeliverBase(s: Sys, f: Faults, sig: seq<byte>)
    requires Base(s) && s.answered != [] && |sig| == SIGNATURE_SIZE
    ensures Base(Deliver(s, 0, f, sig))
  {
    var r := s.answered[0];
    assert s.answered == [r];
    if !s.canon.forceExit {
      AnyResponse(s, r, f, sig);
      EmitBase(s, r, f, sig);
    }
  }

  // ---------- every run ----------

  lemma OneToken(s: Sys)
    requires Base(s)
    ensures |s.asked| <= 1 && |s.answered| <= 1
  {}

  /** Every step of every service, whoever submits what, keeps the conversation in order. */
  lemma StepKeepsBase(s: Sys, step: Step)
    requires Base(s) && Enabled(s, step)
    ensures Base(Apply(s, step))
  {
    OneToken(s);
    match step {
      case Submitting(key, artifact, cert) => SubmitBase(s, key, artifact, cert);
      case TimerFiring(f) => TimerBase(s, f);
      case Serving(i, choice) => ServeBase(s, choice);
      case Delivering(i, f, sig) => DeliverBase(s, f, sig);
      case Killing => KillBase(s);
      case Waking => WakeBase(s);
      case Reading => ReadBase(s);
      case Judging(accept, recorded) => JudgeBase(s, accept, recorded);
      case Halting => HaltBase(s);
    }
  }

  lemma WakeBase(s: Sys)
    requires Base(s)
    ensures Base(Wake(s))
  {}

  lemma HaltBase(s: Sys)
    requires Base(s)
    ensures Base(s.(att := Stopped))
  {}

  lemma {:induction false} RunKeepsBase(s: Sys, steps: seq<Step>)
    requires Base(s)
    ensures Base(Exec(s, steps))
    decreases |steps|
  {
    if steps != [] {
      var n := |steps| - 1;
      RunKeepsBase(s, steps[..n]);
      var t := Exec(s, steps[..n]);
      if Enabled(t, steps[n]) {
        StepKeepsBase(t, steps[n]);
      }
    }
  }
}
