/** The canonization service instance and its callbacks.  Each method is one callback or one of
    the steps callbacks share; its postcondition ties the new instance and what was sent to the
    functions of Canonization.dfy and ControlPackets.dfy. */
module Canonizer {
  import opened Ids
  import opened Ledger
  import opened Canonization
  import opened ControlPackets
  import BlockBuilder

  class Instance {
    const suite: Suite
    var configured: bool
    var running: bool
    var forceExit: bool
    var firstTime: bool
    var limits: Limits
    var privateKey: Option<PrivateKey>
    var childContext: nat
    var armed: bool
    /** The milliseconds the timer was last set to. */
    var sleep: int64
    var state: Phase
    var blockId: Uuid
    var previousBlockId: Uuid
    var previousBlockSignature: seq<byte>
    var blockHeight: nat
    var transactionList: Option<seq<Entry>>
    /** Requests written to the random, data and notification sockets. */
    var sent: seq<Request>
    /** Statuses written to the control socket. */
    var replies: seq<ControlStatus>

    function View(): Canon
      reads this
    {
      Canon(forceExit, firstTime, limits.transactions, childContext, state, blockId, previousBlockId,
            previousBlockSignature, blockHeight, transactionList,
            if privateKey.Some? then privateKey.value.id else [])
    }

    function ControlView(): Control
      reads this
    {
      Control(configured, running, limits, privateKey)
    }

    /** A service runs only once configured and keyed, and works only while it runs. */
    ghost predicate Valid()
      reads this
    {
      && (running ==> configured && privateKey.Some?)
      && (armed || transactionList.Some? ==> running)
      && |previousBlockSignature| == SIGNATURE_SIZE
      && (privateKey.Some? ==> |privateKey.value.id| == 16)
    }

    /** What a callback did since the old state: it moved the instance to `o.c` and had the
        effect `o.effect`, and nothing else. */
    twostate predicate Did(o: Out)
      reads this
    {
      && Valid()
      && View() == o.c
      && sent == old(sent) + (if o.effect.Send? then [o.effect.request] else [])
      && armed == (old(armed) || o.effect.Arm?)
      && sleep == (if o.effect.Arm? then limits.milliseconds else old(sleep))
      && ControlView() == old(ControlView()) && replies == old(replies)
    }

    constructor (s: Suite)
      ensures Valid() && ControlView() == FRESH
      ensures View() == Start(Setup(0, [])).(firstTime := false)
      ensures suite == s && !armed && sent == [] && replies == []
    {
      suite := s;
      configured, running, forceExit, firstTime := false, false, false, false;
      limits, privateKey, childContext, armed, sleep := Limits(0, 0), None, 0, false, 0;
      state, blockId, previousBlockId, blockHeight := Idle, Zero, Zero, 0;
      previousBlockSignature := ZeroSignature();
      transactionList, sent, replies := None, [], [];
    }

    // ---------- shared steps ----------

    method ExitEventLoop()
      requires Valid()
      modifies `forceExit
      ensures Did(Exit(old(View())))
    {
      forceExit := true;
    }

    /** Writes a request unless the socket refuses it. */
    method Write(request: Request, fail: bool) returns (ok: bool)
      modifies `sent
      ensures ok == !fail
      ensures sent == old(sent) + if ok then [request] else []
    {
      ok := !fail;
      if ok {
        sent := sent + [request];
      }
    }

    method WriteBlockIdRequest(f: Faults) returns (ok: bool)
      modifies `sent, `state
      ensures ok == !f.send
      ensures state == if ok then WaitRandom else old(state)
      ensures sent == old(sent) + if ok then [AskRandom] else []
    {
      ok := Write(AskRandom, f.send);
      if ok {
        state := WaitRandom;
      }
    }

    method TimerCallback(f: Faults)
      requires Valid() && running
      modifies this
      ensures Did(OnTimer(old(View()), f))
    {
      if forceExit {
        return;
      }
      if f.alloc {
        transactionList := None;
        ExitEventLoop();
        return;
      }
      transactionList := Some([]);
      if f.list {
        ExitEventLoop();
        transactionList := None;
        return;
      }
      var ok := WriteBlockIdRequest(f);
      if !ok {
        ExitEventLoop();
        transactionList := None;
      }
    }

    method Reset(shouldSleep: bool, f: Faults)
      requires Valid() && running
      modifies this
      ensures Did(Canonization.Reset(old(View()), shouldSleep, f))
      ensures shouldSleep && !f.timer ==> armed && sleep == limits.milliseconds
    {
      state := Idle;
      blockId := Zero;
      transactionList := None;
      if shouldSleep {
        if f.timer {
          ExitEventLoop();
          return;
        }
        armed, sleep := true, limits.milliseconds;
      } else {
        TimerCallback(f);
      }
    }

    method ChildContextClose(f: Faults)
      requires Valid()
      modifies this
      ensures Did(CloseContext(old(View()), f))
    {
      var ok := Write(AskClose(childContext), f.send);
      if !ok {
        ExitEventLoop();
        return;
      }
      state := WaitContextClose;
    }

    method NotifyBlockUpdate(f: Faults)
      requires Valid()
      modifies this
      ensures Did(NotifyUpdate(old(View()), f))
    {
      if f.alloc {
        ExitEventLoop();
        return;
      }
      var ok := Write(AskNotify(blockId), f.send);
      if !ok {
        ExitEventLoop();
        return;
      }
      state := WaitNotify;
    }

    method CompleteUpdate(f: Faults)
      requires Valid()
      modifies this
      ensures Did(Canonization.CompleteUpdate(old(View()), f))
    {
      if firstTime {
        firstTime := false;
        blockId := previousBlockId;
        NotifyBlockUpdate(f);
      } else {
        ChildContextClose(f);
      }
    }

    /** What a parser reads out of the certificate built from the instance. */
    method BuildBlock(now: nat, sig: seq<byte>) returns (cert: BlockCert)
      requires Valid() && transactionList.Some? && |sig| == SIGNATURE_SIZE
      ensures cert == BuiltBlock(View(), now, sig)
    {
      var built := BlockBuilder.Build(CertsOf(transactionList.value), now, blockId, previousBlockId,
                                      previousBlockSignature, blockHeight, privateKey.value.id, sig);
      cert := BlockBuilder.Parsed(built.value.fields);
    }

    /** Builds and sends the block; what is sent is what the data service parses out of the
        certificate that was built. */
    method BlockMake(f: Faults, sig: seq<byte>)
      requires Valid() && transactionList.Some? && |sig| == SIGNATURE_SIZE
      modifies this
      ensures Did(MakeBlock(old(View()), f, sig))
    {
      if transactionList.value == [] {
        CompleteUpdate(f);
        return;
      }
      if f.build {
        ExitEventLoop();
        return;
      }
      var cert := BuildBlock(f.now, sig);
      var ok := Write(AskWrite(childContext, blockId, cert), f.send);
      if !ok {
        ExitEventLoop();
        return;
      }
      state := WaitBlockMake;
    }

    method SendContextCreate(f: Faults)
      requires Valid()
      modifies this
      ensures Did(MoveThenSend(old(View()), WaitContextCreate, AskContext, f))
    {
      state := WaitContextCreate;
      var ok := Write(AskContext, f.send);
      if !ok {
        ExitEventLoop();
      }
    }

    method SendLatestBlockId(f: Faults)
      requires Valid()
      modifies this
      ensures Did(MoveThenSend(old(View()), WaitLatestId, AskLatest(old(childContext)), f))
    {
      state := WaitLatestId;
      var ok := Write(AskLatest(childContext), f.send);
      if !ok {
        ExitEventLoop();
      }
    }

    method SendBlockGet(f: Faults)
      requires Valid()
      modifies this
      ensures Did(MoveThenSend(old(View()), WaitBlockGet, AskBlock(old(childContext), old(previousBlockId)), f))
    {
      state := WaitBlockGet;
      var ok := Write(AskBlock(childContext, previousBlockId), f.send);
      if !ok {
        ExitEventLoop();
      }
    }

    method SendTransactionGetFirst(f: Faults)
      requires Valid()
      modifies this
      ensures Did(MoveThenSend(old(View()), WaitTxnFirst, AskFirst(old(childContext)), f))
    {
      state := WaitTxnFirst;
      var ok := Write(AskFirst(childContext), f.send);
      if !ok {
        ExitEventLoop();
      }
    }

    // ---------- responses ----------

    method ContextCreated(ok: bool, ctx: nat, f: Faults)
      requires Valid() && !forceExit
      modifies this
      ensures Did(OnResponse(old(View()), ContextIs(ok, ctx), f, []))
    {
      if !ok {
        ExitEventLoop();
        return;
      }
      childContext := ctx;
      SendLatestBlockId(f);
    }

    method LatestBlockIdRead(ok: bool, id: Uuid, f: Faults)
      requires Valid()
      modifies this
      ensures Did(OnLatestId(old(View()), ok, id, f))
    {
      if !ok {
        ExitEventLoop();
        return;
      }
      previousBlockId := id;
      if previousBlockId == Root {
        blockHeight := 1;
        SendTransactionGetFirst(f);
      } else {
        SendBlockGet(f);
      }
    }

    method ParseBlock(sig: Option<seq<byte>>) returns (ok: bool)
      modifies `previousBlockSignature
      ensures ok == sig.Some?
      ensures previousBlockSignature ==
        if sig.Some? && |sig.value| == SIGNATURE_SIZE then sig.value else old(previousBlockSignature)
    {
      if sig.None? {
        return false;
      }
      if |sig.value| != SIGNATURE_SIZE {
        return true;
      }
      previousBlockSignature := sig.value;
      return true;
    }

    method BlockRead(ok: bool, height: nat, sig: Option<seq<byte>>, f: Faults)
      requires Valid()
      modifies this
      ensures Did(OnBlock(old(View()), ok, height, sig, f))
    {
      if !ok {
        ExitEventLoop();
        return;
      }
      blockHeight := height + 1;
      var parsed := ParseBlock(sig);
      if !parsed {
        ExitEventLoop();
        return;
      }
      SendTransactionGetFirst(f);
    }

    method TransactionFirstRead(answer: ReadAnswer, f: Faults, sig: seq<byte>)
      requires Valid() && transactionList.Some? && |sig| == SIGNATURE_SIZE
      modifies this
      ensures Did(OnRead(old(View()), true, answer, f, sig))
    {
      match answer {
        case Failed =>
          ExitEventLoop();
        case NotThere =>
          CompleteUpdate(f);
        case There(entry, next) =>
          if entry.state != Attested {
            CompleteUpdate(f);
          } else {
            TakeTransaction(entry, next, f, sig);
          }
      }
    }

    method TransactionRead(answer: ReadAnswer, f: Faults, sig: seq<byte>)
      requires Valid() && transactionList.Some? && |sig| == SIGNATURE_SIZE
      modifies this
      ensures Did(OnRead(old(View()), false, answer, f, sig))
    {
      match answer {
        case Failed =>
          ExitEventLoop();
        case NotThere =>
          BlockMake(f, sig);
        case There(entry, next) =>
          if entry.state != Attested {
            BlockMake(f, sig);
          } else {
            TakeTransaction(entry, next, f, sig);
          }
      }
    }

    /** The common end of both read callbacks: append, then stop or go on. */
    method TakeTransaction(entry: Entry, next: Uuid, f: Faults, sig: seq<byte>)
      requires Valid() && transactionList.Some? && |sig| == SIGNATURE_SIZE && entry.state == Attested
      modifies this
      ensures Did(OnRead(old(View()), false, There(entry, next), f, sig))
    {
      if f.alloc || f.list {
        ExitEventLoop();
        return;
      }
      transactionList := Some(transactionList.value + [entry]);
      if |transactionList.value| == limits.transactions {
        BlockMake(f, sig);
        return;
      }
      if IsEnd(next) {
        BlockMake(f, sig);
        return;
      }
      var ok := Write(AskTxn(childContext, next), f.send);
      if !ok {
        ExitEventLoop();
      }
    }

    method ContextClosed(f: Faults)
      requires Valid() && transactionList.Some?
      modifies this
      ensures Did(OnContextClosed(old(View()), f))
    {
      var shouldSleep := |transactionList.value| != limits.transactions;
      Reset(shouldSleep, f);
    }

    // ---------- socket callbacks ----------

    /** The data socket: the response is dispatched by its method, never by the state. */
    method DataRead(r: Response, f: Faults, sig: seq<byte>)
      requires Valid() && |sig| == SIGNATURE_SIZE && !r.RandomIs? && !r.NotifyIs?
      requires forceExit || Handles(View(), r)
      modifies this
      ensures Did(if old(forceExit) then Out(old(View()), Nothing) else OnResponse(old(View()), r, f, sig))
    {
      if forceExit {
        return;
      }
      match r {
        case ContextIs(ok, ctx) => ContextCreated(ok, ctx, f);
        case CloseIs => ContextClosed(f);
        case FirstIs(answer) => TransactionFirstRead(answer, f, sig);
        case TxnIs(answer) => TransactionRead(answer, f, sig);
        case LatestIs(ok, id) => LatestBlockIdRead(ok, id, f);
        case BlockIs(ok, height, s) => BlockRead(ok, height, s, f);
        case WriteIs(_) => NotifyBlockUpdate(f);
        case Broken => ExitEventLoop();
      }
    }

    method RandomRead(valid: bool, id: Uuid, f: Faults)
      requires Valid()
      modifies this
      ensures Did(OnResponse(old(View()), RandomIs(valid, id), f, []))
    {
      if forceExit {
        return;
      }
      if state != WaitRandom || !valid {
        ExitEventLoop();
        return;
      }
      blockId := id;
      SendContextCreate(f);
    }

    method NotifyRead(ok: bool, f: Faults)
      requires Valid()
      modifies this
      ensures Did(OnResponse(old(View()), NotifyIs(ok), f, []))
    {
      if forceExit {
        return;
      }
      if state != WaitNotify || !ok {
        ExitEventLoop();
        return;
      }
      ChildContextClose(f);
    }

    /** The timer goes off. */
    method TimerFires(f: Faults)
      requires Valid() && armed
      modifies this
      ensures Valid() && View() == OnTimer(old(View()), f).c
      ensures sent == old(sent) + match OnTimer(old(View()), f).effect { case Send(q) => [q] case _ => [] }
      ensures !armed && ControlView() == old(ControlView()) && sleep == old(sleep)
    {
      armed := false;
      TimerCallback(f);
    }

    // ---------- the control socket ----------

    /** What was written to the control socket since the old state. */
    twostate predicate Replied(reply: Option<ControlStatus>)
      reads this
    {
      replies == old(replies) + if reply.Some? then [reply.value] else []
    }

    method Reply(status: ControlStatus)
      modifies `replies
      ensures replies == old(replies) + [status]
    {
      replies := replies + [status];
    }

    method Configure(payload: seq<byte>) returns (fatal: bool)
      requires Valid()
      modifies `configured, `limits, `replies
      ensures Valid()
      ensures var o := OnConfigure(old(ControlView()), payload);
        ControlView() == o.next && fatal == o.fatal && Replied(o.reply) && !o.started
    {
      if configured {
        Reply(AlreadyConfigured);
        return false;
      }
      if |payload| != 16 {
        Reply(PacketInvalidSize);
        return true;
      }
      Power256Values();
      FromNetworkBound(payload[..8]);
      var milliseconds := Signed(FromNetwork(payload[..8]));
      var transactions := FromNetwork(payload[8..]);
      limits := Limits(milliseconds, transactions);
      configured := true;
      Reply(Done);
      return false;
    }

    method SetPrivateKey(payload: seq<byte>, f: ControlFaults) returns (fatal: bool)
      requires Valid()
      modifies `privateKey, `replies
      ensures Valid()
      ensures var o := OnKeySet(old(ControlView()), suite, payload, f);
        ControlView() == o.next && fatal == o.fatal && Replied(o.reply) && !o.started
    {
      if |payload| < 20 {
        Reply(PacketInvalidSize);
        return true;
      }
      var at := 4;
      var encPubSize := FromNetwork(payload[at..at + 4]);
      at := at + 4;
      var encPrivSize := FromNetwork(payload[at..at + 4]);
      at := at + 4;
      var signPubSize := FromNetwork(payload[at..at + 4]);
      at := at + 4;
      var signPrivSize := FromNetwork(payload[at..at + 4]);
      at := at + 4;
      if || suite.encPub != encPubSize || suite.encPriv != encPrivSize
         || suite.signPub != signPubSize || suite.signPriv != signPrivSize {
        Reply(PacketInvalidSize);
        return true;
      }
      if |payload| - 20 < 16 + encPubSize + encPrivSize + signPubSize + signPrivSize {
        Reply(PacketInvalidSize);
        return true;
      }
      var id := payload[at..at + 16];
      at := at + 16;
      var encPub := payload[at..at + encPubSize];
      at := at + encPubSize;
      var encPriv := payload[at..at + encPrivSize];
      at := at + encPrivSize;
      var signPub := payload[at..at + signPubSize];
      at := at + signPubSize;
      var signPriv := payload[at..at + signPrivSize];
      if privateKey.Some? {
        Reply(PrivateKeyAlreadySet);
        return true;
      }
      if f.memory {
        Reply(OutOfMemory);
        return true;
      }
      privateKey := Some(PrivateKey(id, encPub, encPriv, signPub, signPriv));
      Reply(Done);
      return false;
    }

    /** Starting sets the first timer, so that the instance is then the protocol's start state. */
    method StartService(f: ControlFaults) returns (fatal: bool)
      requires Valid()
      modifies `running, `firstTime, `armed, `sleep, `replies
      ensures Valid()
      ensures var o := OnStart(old(ControlView()), f);
        && ControlView() == o.next && fatal == o.fatal && Replied(o.reply)
        && armed == (old(armed) || o.started) && sleep == (if o.started then 10 else old(sleep))
        && firstTime == (old(firstTime) || (o.next.running && !old(running)))
    {
      if !configured {
        Reply(StartBeforeConfigure);
        return f.write;
      }
      if privateKey.None? {
        Reply(StartBeforePrivateKeySet);
        return f.write;
      }
      if running {
        Reply(AlreadyRunning);
        return f.write;
      }
      running := true;
      firstTime := true;
      if f.timer {
        return true;
      }
      armed, sleep := true, 10;
      Reply(Done);
      return f.write;
    }

    /** The control socket: a fatal command shuts the service down; a running service keeps its
        round untouched by any other command. */
    method ControlRead(packet: seq<byte>, f: ControlFaults)
      requires Valid()
      modifies this
      ensures Valid()
      ensures old(forceExit) ==>
        ControlView() == old(ControlView()) && View() == old(View()) && armed == old(armed) && Replied(None)
      ensures !old(forceExit) ==>
        && (forceExit <==> Shuts(old(ControlView()), suite, packet, f))
        && Replied(Writes(old(ControlView()), suite, packet, f))
      ensures !old(forceExit) ==>
        var o := OnControl(old(ControlView()), suite, packet, f);
        && ControlView() == o.next
        && armed == (old(armed) || o.started) && sleep == (if o.started then 10 else old(sleep))
        && View() == old(View()).(
             forceExit := Shuts(old(ControlView()), suite, packet, f),
             firstTime := old(firstTime) || (o.next.running && !old(running)),
             maxTxns := o.next.limits.transactions,
             signer := if o.next.key.Some? then o.next.key.value.id else [])
      ensures sent == old(sent)
    {
      if forceExit {
        return;
      }
      CommandExactly(ControlView(), suite, packet, f);
      var fatal := Command(packet, f);
      if fatal {
        ExitEventLoop();
      }
    }

    /** The command of a packet, by its method id. */
    method Command(packet: seq<byte>, f: ControlFaults) returns (fatal: bool)
      requires Valid()
      modifies `configured, `limits, `privateKey, `running, `firstTime, `armed, `sleep, `replies
      ensures Valid()
      ensures var o := OnControl(old(ControlView()), suite, packet, f);
        && ControlView() == o.next && fatal == o.fatal && Replied(o.reply)
        && armed == (old(armed) || o.started) && sleep == (if o.started then 10 else old(sleep))
        && firstTime == (old(firstTime) || (o.next.running && !old(running)))
    {
      fatal := true;
      if |packet| >= 4 {
        var command := FromNetwork(packet[..4]);
        if command == CONFIGURE {
          fatal := Configure(packet[4..]);
        } else if command == PRIVATE_KEY_SET {
          fatal := SetPrivateKey(packet[4..], f);
        } else if command == START {
          fatal := StartService(f);
        } else {
          Reply(PacketBad);
        }
      }
    }
  }
}
