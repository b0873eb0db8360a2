/** The block-making protocol as one state machine: submitters, the attestation service and the
    canonization service take interleaved steps over one queue and one chain.  Each service has
    a data service process of its own over the same database, so a step here is one database
    transaction, one message handed over, or one callback. */
module Protocol {
  import opened Ids
  import opened Ledger
  import opened Canonization
  import opened QueueShape

  /** A request a peer has not answered yet.  Reading the first transaction takes two database
      transactions; `FirstFound` stands between them. */
  datatype Query = Asked(request: Request) | FirstFound(key: Uuid)

  /** The attestation service: asleep, about to read a node, or deciding on one. */
  datatype Attest = Asleep | Fetching(key: Uuid, first: bool) | At(entry: Entry, next: Uuid) | Stopped

  /** What happened so far. */
  datatype Log = Log(
    submitted: seq<Uuid>,   // ids accepted into the queue, in order
    dropped: set<Uuid>,     // ids the attestation service dropped
    honest: bool,           // every submission still queued or since then was an honest one
    sent: seq<Request>,     // requests the canonization service sent
    writeReplies: nat,      // block write responses it received
    emptyRounds: nat,       // rounds in which it found nothing to canonize
    opens: nat,             // child contexts opened
    context: nat,           // the child context opened last
    closes: nat,            // child contexts closed
    replies: nat,           // responses received in this round
    longest: nat,           // most responses received in any round that ended
    lost: bool,             // the attestation service missed a node it had to find
    crashed: bool)          // a callback ran without the list it needs, or over a list in use

  /** The system.  `attesting` tells the two builds apart: without attestation, transactions enter
      the queue as attested and the attestation service only sleeps. */
  datatype Sys = Sys(
    attesting: bool,
    store: Store,
    canon: Canon,
    armed: bool,
    asked: seq<Query>,
    answered: seq<Response>,
    att: Attest,
    log: Log)

  /** What a peer is free to choose. */
  datatype Choice = Choice(ok: bool, id: Uuid, ctx: nat)

  datatype Step =
    | Submitting(key: Uuid, artifact: Uuid, cert: Certificate)
    | TimerFiring(f: Faults)
    | Serving(i: nat, choice: Choice)
    | Delivering(i: nat, f: Faults, sig: seq<byte>)
    | Killing
    | Waking
    | Reading
    | Judging(accept: bool, recorded: bool)
    | Halting

  function Without1<T>(s: seq<T>, i: nat): seq<T>
    requires i < |s|
  {
    s[..i] + s[i + 1..]
  }

  // ---------- the canonization service ----------

  /** The instance moves and its effect reaches the timer or a peer. */
  function Emit(s: Sys, o: Out): Sys {
    match o.effect
    case Nothing => s.(canon := o.c)
    case Arm => s.(canon := o.c, armed := true)
    case Send(r) => s.(canon := o.c, asked := s.asked + [Asked(r)], log := s.log.(sent := s.log.sent + [r]))
  }

  function FireTimer(s: Sys, f: Faults): Sys {
    var crash := !s.canon.forceExit && s.canon.list.Some?;
    Emit(s.(armed := false, log := s.log.(replies := 0, crashed := s.log.crashed || crash)), OnTimer(s.canon, f))
  }

  /** The response that tells a round that there is nothing to canonize. */
  predicate FoundNothing(c: Canon, r: Response) {
    && (r.FirstIs? || r.TxnIs?)
    && c.list == Some([])
    && (r.answer.NotThere? || (r.answer.There? && r.answer.entry.state != Attested))
  }

  /** A response reaches its callback.  When the round ends without a sleep the next one begins. */
  function Deliver(s: Sys, i: nat, f: Faults, sig: seq<byte>): Sys
    requires i < |s.answered|
  {
    var r := s.answered[i];
    var t := s.(answered := Without1(s.answered, i));
    if s.canon.forceExit then t
    else if !Handles(s.canon, r) then t.(log := t.log.(crashed := true))
    else
      var o := OnResponse(s.canon, r, f, sig);
      var n := s.log.replies + 1;
      var log := s.log.(
        writeReplies := s.log.writeReplies + (if r.WriteIs? then 1 else 0),
        emptyRounds := s.log.emptyRounds + (if FoundNothing(s.canon, r) then 1 else 0),
        longest := if r.CloseIs? && n > s.log.longest then n else s.log.longest,
        replies := if r.CloseIs? && o.effect.Send? then 0 else n);
      Emit(t.(log := log), o)
  }

  // ---------- its peers ----------

  function Answered(s: Sys, r: Response): Sys {
    s.(answered := s.answered + [r])
  }

  function ReadOf(ok: bool, found: Lookup): ReadAnswer {
    if !ok then Failed
    else
      match found
      case Missing => NotThere
      case Found(e, _, next) => if e.cert.bytes == [] then Failed else There(e, next)
  }

  function FindBlock(chain: seq<Block>, id: Uuid): (b: Option<Block>)
    ensures b.Some? ==> b.value in chain && b.value.id == id
    ensures b.None? ==> forall i :: 0 <= i < |chain| ==> chain[i].id != id
  {
    if chain == [] then None
    else if chain[|chain| - 1].id == id then Some(chain[|chain| - 1])
    else FindBlock(chain[..|chain| - 1], id)
  }

  /** The root block id names the start of the list, which has height zero and no certificate. */
  function BlockAnswer(ok: bool, chain: seq<Block>, id: Uuid): Response {
    var b := FindBlock(chain, id);
    if ok && b.Some? then BlockIs(true, b.value.height, b.value.sig)
    else if ok && id == Root && chain != [] then BlockIs(true, 0, None)
    else BlockIs(false, 0, None)
  }

  /** A peer handles one request and answers it once. */
  function Serve(s: Sys, i: nat, choice: Choice): Sys
    requires i < |s.asked|
  {
    var t := s.(asked := Without1(s.asked, i));
    var q, chain, ok := s.store.queue, s.store.chain, choice.ok;
    match s.asked[i]
    case FirstFound(key) => Answered(t, FirstIs(ReadOf(ok, Get(q, key))))
    case Asked(AskRandom) => Answered(t, RandomIs(ok, choice.id))
    case Asked(AskContext) =>
      Answered(t.(log := if ok then t.log.(opens := t.log.opens + 1, context := choice.ctx) else t.log),
               ContextIs(ok, choice.ctx))
    case Asked(AskLatest(_)) => Answered(t, LatestIs(ok, if ok then Latest(chain) else Zero))
    case Asked(AskBlock(_, id)) => Answered(t, BlockAnswer(ok, chain, id))
    case Asked(AskFirst(_)) =>
      if !ok then Answered(t, FirstIs(Failed))
      else if q == [] then Answered(t, FirstIs(NotThere))
      else t.(asked := t.asked + [FirstFound(q[0].key)])
    case Asked(AskTxn(_, id)) => Answered(t, TxnIs(ReadOf(ok, Get(q, id))))
    case Asked(AskWrite(_, id, b)) =>
      if ok then Answered(t.(store := Write(s.store, id, b)), WriteIs(Accepts(s.store, id, b)))
      else Answered(t, WriteIs(false))
    case Asked(AskNotify(_)) => Answered(t, NotifyIs(ok))
    case Asked(AskClose(_)) => Answered(t.(log := t.log.(closes := t.log.closes + 1)), CloseIs)
  }

  // ---------- the attestation service ----------

  function WithQueue(s: Sys, q: seq<Entry>): Sys {
    s.(store := s.store.(queue := q))
  }

  function Wake(s: Sys): Sys {
    if s.store.queue == [] then s else s.(att := Fetching(s.store.queue[0].key, true))
  }

  /** The round starts only at a submitted node; the nodes after it are taken as they come. */
  function Read(s: Sys, key: Uuid, first: bool): Sys {
    match Get(s.store.queue, key)
    case Missing =>
      if first then s.(att := Asleep) else s.(att := Stopped, log := s.log.(lost := true))
    case Found(e, _, next) =>
      if e.cert.bytes == [] then s.(att := Stopped)
      else if first && e.state != Submitted then s.(att := Asleep)
      else s.(att := At(e, next))
  }

  function Onward(next: Uuid): Attest {
    if next == Ones then Asleep else Fetching(next, false)
  }

  /** Promotion must find its node and be recorded; the status of a drop is ignored. */
  function Judge(s: Sys, e: Entry, next: Uuid, accept: bool, recorded: bool): Sys {
    var q := s.store.queue;
    if accept then
      if e.key !in Keys(q) then s.(att := Stopped, log := s.log.(lost := true))
      else WithQueue(s, Promote(q, e.key)).(att := if recorded then Onward(next) else Stopped)
    else
      WithQueue(s, Drop(q, e.key)).(
        att := Onward(next),
        log := s.log.(dropped := s.log.dropped + if e.key in Keys(q) then {e.key} else {}))
  }

  // ---------- runs ----------

  /** The state in which a transaction enters the queue. */
  function EntryState(attesting: bool): TxnState {
    if attesting then Submitted else Attested
  }

  /** A submission: the data service looks at the queue only, never into the certificate. */
  function Enter(s: Sys, key: Uuid, artifact: Uuid, cert: Certificate): Sys {
    var q := s.store.queue;
    WithQueue(s, Submit(q, key, artifact, cert, EntryState(s.attesting))).(
      log := s.log.(
        submitted := s.log.submitted + (if Submittable(q, key) then [key] else []),
        honest := s.log.honest && Honest(s, key, cert)))
  }

  /** An honest submission: a new id that the certificate, if it names one, agrees with. */
  predicate Honest(s: Sys, key: Uuid, cert: Certificate) {
    && !Sentinel(key)
    && key !in s.log.submitted
    && (cert.id.Some? ==> cert.id.value == key)
    && cert.bytes != []
  }

  predicate Enabled(s: Sys, step: Step) {
    match step
    case Submitting(_, _, _) => true
    case TimerFiring(_) => s.armed
    case Serving(i, _) => i < |s.asked|
    case Delivering(i, _, sig) => i < |s.answered| && |sig| == SIGNATURE_SIZE
    case Killing => true
    case Waking => s.attesting && s.att.Asleep?
    case Reading => s.att.Fetching?
    case Judging(_, _) => s.att.At?
    case Halting => true
  }

  function Apply(s: Sys, step: Step): Sys
    requires Enabled(s, step)
  {
    match step
    case Submitting(key, artifact, cert) => Enter(s, key, artifact, cert)
    case TimerFiring(f) => FireTimer(s, f)
    case Serving(i, choice) => Serve(s, i, choice)
    case Delivering(i, f, sig) => Deliver(s, i, f, sig)
    case Killing => s.(canon := s.canon.(forceExit := true))
    case Waking => Wake(s)
    case Reading => Read(s, s.att.key, s.att.first)
    case Judging(accept, recorded) => Judge(s, s.att.entry, s.att.next, accept, recorded)
    case Halting => s.(att := Stopped)
  }

  /** The state after a schedule of steps; a step that is not enabled does nothing. */
  function Exec(s: Sys, steps: seq<Step>): Sys {
    if steps == [] then s
    else
      var t := Exec(s, steps[..|steps| - 1]);
      var step := steps[|steps| - 1];
      if Enabled(t, step) then Apply(t, step) else t
  }

  /** Both services have just started over a database that earlier runs may have filled. */
  function Begin(attesting: bool, store: Store, submitted: seq<Uuid>, dropped: set<Uuid>, setup: Setup): Sys {
    Sys(attesting, store, Start(setup), true, [], [], Asleep,
        Log(submitted, dropped, EntriesOk(store.queue), [], 0, 0, 0, 0, 0, 0, 0, false, false))
  }
}
