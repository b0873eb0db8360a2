/** What clean runs get: the queue is an attested prefix followed by submitted transactions, every
    id is accounted for in order, and every message in flight agrees with the queue as it is now.
    A run is clean when no id enters the queue twice and every block takes what it names; honest
    submitters make it so. */
module Safety {
  import opened Ids
  import opened Ledger
  import opened Canonization
  import opened QueueShape
  import opened Protocol
  import opened Conversation

  // ---------- the store and the attestation service ----------

  /** Every id ever submitted is in a block, in the queue, or dropped; in submission order. */
  predicate Conserved(store: Store, submitted: seq<Uuid>, dropped: set<Uuid>) {
    && Distinct(submitted)
    && (forall k :: k in submitted ==> !Sentinel(k))
    && (forall k :: k in dropped ==> k in submitted)
    && CertIds(History(store.chain)) + Keys(store.queue) == Kept(submitted, dropped)
  }

  predicate StoreOk(store: Store, submitted: seq<Uuid>, dropped: set<Uuid>) {
    && Conserved(store, submitted, dropped)
    && ChainLinked(store.chain)
    && Shaped(store.queue)
  }

  lemma ConservedFacts(store: Store, submitted: seq<Uuid>, dropped: set<Uuid>)
    requires Conserved(store, submitted, dropped)
    ensures Distinct(Keys(store.queue))
    ensures forall k :: k in Keys(store.queue) ==> k in submitted && k !in dropped
    ensures forall k :: k in Keys(store.queue) ==> k !in CertIds(History(store.chain))
  {
    var h, q := CertIds(History(store.chain)), Keys(store.queue);
    KeptDistinct(submitted, dropped);
    DistinctParts(h, q);
    forall k | k in q ensures k in submitted && k !in dropped {
      KeptMembers(submitted, dropped, k);
      assert k in h + q;
    }
  }

  lemma ConservedPlain(store: Store, submitted: seq<Uuid>, dropped: set<Uuid>)
    requires Conserved(store, submitted, dropped)
    ensures Plain(store.queue)
  {
    ConservedFacts(store, submitted, dropped);
    forall i | 0 <= i < |store.queue| ensures !Sentinel(store.queue[i].key) {
      assert Keys(store.queue)[i] == store.queue[i].key;
    }
  }

  /** The node it works on is the first unattested one and is still submitted; the node it asks
      for next is too; the head it found first can only still be the head. */
  predicate AttOk(q: seq<Entry>, submitted: seq<Uuid>, att: Attest) {
    match att
    case At(e, next) =>
      var p := Position(q, e.key);
      && Frontier(q, p) && q[p] == e
      && (next == Ones || (p + 1 < |q| && q[p + 1].key == next))
    case Fetching(k, first) =>
      if first then k in submitted && Stale(q, k, 0) else Frontier(q, Position(q, k))
    case _ => true
  }

  /** The store and the attestation service agree with the log and with each other.  Without
      attestation everything queued is attested and the service does nothing. */
  predicate Held(attesting: bool, store: Store, submitted: seq<Uuid>, dropped: set<Uuid>, att: Attest) {
    && Conserved(store, submitted, dropped)
    && Shaped(store.queue)
    && AttOk(store.queue, submitted, att)
    && (!attesting ==> AttestedUpTo(store.queue, |store.queue|) && !att.Fetching? && !att.At?)
  }

  // ---------- messages in flight ----------

  /** The collected list is an attested prefix of the queue. */
  predicate Taken(q: seq<Entry>, list: seq<Entry>) {
    AttestedUpTo(q, |list|) && q[..|list|] == list
  }

  /** An attested answer is still the next transaction of the queue. */
  predicate AnswerOk(list: seq<Entry>, q: seq<Entry>, submitted: seq<Uuid>, a: ReadAnswer) {
    a.There? && a.entry.state == Attested ==>
      && AttestedUpTo(q, |list| + 1) && q[|list|] == a.entry
      && (a.next == Ones || (a.next in submitted && Stale(q, a.next, |list| + 1)))
  }

  predicate WalkQuery(list: Option<seq<Entry>>, q: seq<Entry>, submitted: seq<Uuid>, query: Query) {
    match query
    case FirstFound(k) => k in submitted && Stale(q, k, 0)
    case Asked(AskTxn(_, id)) =>
      list.Some? && Taken(q, list.value) && id in submitted && Stale(q, id, |list.value|)
    case _ => true
  }

  predicate WalkAnswer(list: Option<seq<Entry>>, q: seq<Entry>, submitted: seq<Uuid>, r: Response) {
    match r
    case FirstIs(a) => AnswerOk([], q, submitted, a)
    case TxnIs(a) => list.Some? && Taken(q, list.value) && AnswerOk(list.value, q, submitted, a)
    case _ => true
  }

  /** A block write carries the certificates of an attested prefix of the queue. */
  predicate WriteTaken(q: seq<Entry>, query: Query) {
    query.Asked? && query.request.AskWrite? ==>
      var n := |query.request.cert.certs|;
      AttestedUpTo(q, n) && query.request.cert.certs == CertsOf(q[..n])
  }

  /** Every message in flight agrees with the queue as it is now; a write even after an exit. */
  predicate Flight(c: Canon, q: seq<Entry>, submitted: seq<Uuid>, asked: seq<Query>, answered: seq<Response>) {
    && (asked != [] ==> WriteTaken(q, asked[0]))
    && (asked != [] && !c.forceExit ==> WalkQuery(c.list, q, submitted, asked[0]))
    && (answered != [] && !c.forceExit ==> WalkAnswer(c.list, q, submitted, answered[0]))
  }

  predicate Tidy(s: Sys) {
    && Base(s)
    && !s.log.lost
    && Held(s.attesting, s.store, s.log.submitted, s.log.dropped, s.att)
    && Flight(s.canon, s.store.queue, s.log.submitted, s.asked, s.answered)
  }

  /** The invariant of honest runs: also, every queued certificate is readable and names its own
      transaction, if it names one. */
  predicate Inv(s: Sys) {
    Tidy(s) && s.log.honest && EntriesOk(s.store.queue)
  }

  // ---------- clean steps ----------

  /** The peer is about to accept a block. */
  predicate Writes(s: Sys, i: nat, choice: Choice)
    requires i < |s.asked|
  {
    && s.asked[i].Asked? && s.asked[i].request.AskWrite? && choice.ok
    && Accepts(s.store, s.asked[i].request.id, s.asked[i].request.cert)
  }

  predicate CleanServe(s: Sys, i: nat, choice: Choice)
    requires i < |s.asked|
  {
    Writes(s, i, choice) ==> CertIds(s.asked[i].request.cert.certs) <= Keys(s.store.queue)
  }

  /** A step that keeps the accounts, told from the state before it: an accepted submission has a
      new id, and an accepted block names the first keys of the queue. */
  predicate CleanStep(s: Sys, step: Step)
    requires Enabled(s, step)
  {
    match step
    case Submitting(key, _, _) => Submittable(s.store.queue, key) ==> key !in s.log.submitted
    case Serving(i, choice) => CleanServe(s, i, choice)
    case _ => true
  }

  /** Every step of a schedule is clean in the state the steps before it lead to. */
  predicate CleanRun(s: Sys, steps: seq<Step>)
    decreases |steps|
  {
    steps == [] ||
    (var n := |steps| - 1;
     var t := Exec(s, steps[..n]);
     CleanRun(s, steps[..n]) && (Enabled(t, steps[n]) ==> CleanStep(t, steps[n])))
  }

  // ---------- steps of submitters and of the attestation service ----------

  /** A change of the queue that keeps attested transactions in place disturbs no message. */
  lemma FlightKept(c: Canon, q: seq<Entry>, q': seq<Entry>, known: seq<Uuid>, submitted: seq<Uuid>,
                   asked: seq<Query>, answered: seq<Response>)
    requires Flight(c, q, known, asked, answered) && Keeps(q, q', known)
    requires forall id :: id in known ==> id in submitted
    ensures Flight(c, q', submitted, asked, answered)
  {
    if asked != [] {
      WriteKept(q, q', known, asked[0]);
      if !c.forceExit {
        QueryKept(c.list, q, q', known, submitted, asked[0]);
      }
    }
    if answered != [] && !c.forceExit {
      AnswerKept(c.list, q, q', known, submitted, answered[0]);
    }
  }

  lemma WriteKept(q: seq<Entry>, q': seq<Entry>, known: seq<Uuid>, query: Query)
    requires WriteTaken(q, query) && Keeps(q, q', known)
    ensures WriteTaken(q', query)
  {
    if query.Asked? && query.request.AskWrite? {
      var n := |query.request.cert.certs|;
      assert AttestedUpTo(q, n);
    }
  }

  lemma QueryKept(list: Option<seq<Entry>>, q: seq<Entry>, q': seq<Entry>, known: seq<Uuid>,
                  submitted: seq<Uuid>, query: Query)
    requires WalkQuery(list, q, known, query) && Keeps(q, q', known)
    requires forall id :: id in known ==> id in submitted
    ensures WalkQuery(list, q', submitted, query)
  {
    assert AttestedUpTo(q, 0);
  }

  lemma AnswerKept(list: Option<seq<Entry>>, q: seq<Entry>, q': seq<Entry>, known: seq<Uuid>,
                   submitted: seq<Uuid>, r: Response)
    requires WalkAnswer(list, q, known, r) && Keeps(q, q', known)
    requires forall id :: id in known ==> id in submitted
    ensures WalkAnswer(list, q', submitted, r)
  {
    if r.FirstIs? {
      ReadKept([], q, q', known, submitted, r.answer);
    } else if r.TxnIs? {
      ReadKept(list.value, q, q', known, submitted, r.answer);
    }
  }

  lemma ReadKept(list: seq<Entry>, q: seq<Entry>, q': seq<Entry>, known: seq<Uuid>, submitted: seq<Uuid>, a: ReadAnswer)
    requires AnswerOk(list, q, known, a) && Keeps(q, q', known)
    requires forall id :: id in known ==> id in submitted
    ensures AnswerOk(list, q', submitted, a)
  {
    if a.There? && a.entry.state == Attested {
      var n := |list| + 1;
      assert AttestedUpTo(q, n);
      assert q'[..n] == q[..n];
      assert q'[..n][|list|] == q[..n][|list|];
    }
  }

  lemma SubmitHeld(s: Sys, e: Entry)
    requires Tidy(s) && e.key !in s.log.submitted && !Sentinel(e.key) && e.state == EntryState(s.attesting)
    ensures Held(s.attesting, s.store.(queue := s.store.queue + [e]), s.log.submitted + [e.key], s.log.dropped, s.att)
    ensures Flight(s.canon, s.store.queue + [e], s.log.submitted + [e.key], s.asked, s.answered)
  {
    var q, known := s.store.queue, s.log.submitted;
    ConservedFacts(s.store, known, s.log.dropped);
    SubmitKeeps(q, e, known);
    SubmitShape(q, e);
    SubmitConserves(s.store, known, s.log.dropped, e);
    AttSubmit(q, known, e, s.att);
    FlightKept(s.canon, q, q + [e], known, known + [e.key], s.asked, s.answered);
  }

  lemma SubmitTidy(s: Sys, key: Uuid, artifact: Uuid, cert: Certificate)
    requires Tidy(s) && (Submittable(s.store.queue, key) ==> key !in s.log.submitted)
    ensures Tidy(Enter(s, key, artifact, cert))
  {
    SubmitBase(s, key, artifact, cert);
    if Submittable(s.store.queue, key) {
      SubmitHeld(s, Entry(key, artifact, cert, EntryState(s.attesting)));
    } else {
      assert s.log.submitted + [] == s.log.submitted;
    }
  }

  lemma AttSubmit(q: seq<Entry>, submitted: seq<Uuid>, e: Entry, att: Attest)
    requires AttOk(q, submitted, att) && e.key !in submitted && e.key !in Keys(q)
    requires Keeps(q, q + [e], submitted)
    ensures AttOk(q + [e], submitted + [e.key], att)
  {
    match att {
      case At(f, next) => PositionAppend(q, e, f.key);
      case Fetching(k, first) =>
        if first {
          assert AttestedUpTo(q, 0);
        } else {
          PositionAppend(q, e, k);
        }
      case _ =>
    }
  }

  lemma {:induction false} PositionAppend(q: seq<Entry>, e: Entry, key: Uuid)
    ensures Position(q, key) < |q| ==> Position(q + [e], key) == Position(q, key)
  {
    if q != [] {
      assert (q + [e])[1..] == q[1..] + [e];
      PositionAppend(q[1..], e, key);
    }
  }

  lemma SubmitConserves(store: Store, submitted: seq<Uuid>, dropped: set<Uuid>, e: Entry)
    requires Conserved(store, submitted, dropped) && e.key !in submitted && !Sentinel(e.key)
    ensures Conserved(store.(queue := store.queue + [e]), submitted + [e.key], dropped)
  {
    DistinctSnoc(submitted, e.key);
    KeysAppend(store.queue, [e]);
    KeptAppend(submitted, [e.key], dropped);
    assert Keys([e]) == [e.key] && Kept([e.key], dropped) == [e.key];
  }

  lemma WakeTidy(s: Sys)
    requires Tidy(s) && s.attesting && s.att.Asleep?
    ensures Tidy(Wake(s))
  {
    WakeBase(s);
    ConservedFacts(s.store, s.log.submitted, s.log.dropped);
    if s.store.queue != [] {
      assert Keys(s.store.queue)[0] == s.store.queue[0].key;
    }
  }

  lemma ReadTidy(s: Sys)
    requires Tidy(s) && s.att.Fetching?
    ensures Tidy(Read(s, s.att.key, s.att.first))
  {
    ReadBase(s);
    ConservedFacts(s.store, s.log.submitted, s.log.dropped);
    ReadIsOk(s.store.queue, s.log.submitted, s.att);
    ReadOutcome(s);
  }

  lemma ReadOutcome(s: Sys)
    requires s.att.Fetching? && !s.log.lost
    requires Get(s.store.queue, s.att.key).Missing? ==> s.att.first
    requires Get(s.store.queue, s.att.key).Found? ==>
      ReadOk(s.store.queue, s.log.submitted, s.att.first, Get(s.store.queue, s.att.key))
    ensures var t := Read(s, s.att.key, s.att.first);
      t == s.(att := t.att) && AttOk(s.store.queue, s.log.submitted, t.att)
  {}

  predicate ReadOk(q: seq<Entry>, submitted: seq<Uuid>, first: bool, found: Lookup)
    requires found.Found?
  {
    && (!first ==> found.entry.state == Submitted)
    && (found.entry.state == Submitted ==> AttOk(q, submitted, At(found.entry, found.next)))
  }

  /** The node looked for is found, unless it was the head and is gone. */
  lemma ReadIsOk(q: seq<Entry>, submitted: seq<Uuid>, att: Attest)
    requires AttOk(q, submitted, att) && att.Fetching? && Distinct(Keys(q)) && Shaped(q)
    ensures Get(q, att.key).Missing? ==> att.first
    ensures Get(q, att.key).Found? ==> ReadOk(q, submitted, att.first, Get(q, att.key))
  {
    var p := Position(q, att.key);
    if p < |q| {
      PositionAt(q, p);
      if att.first {
        PositionAt(q, 0);
      }
    }
  }

  lemma JudgeTidy(s: Sys, accept: bool, recorded: bool)
    requires Tidy(s) && s.att.At?
    ensures Tidy(Judge(s, s.att.entry, s.att.next, accept, recorded))
  {
    var q, e := s.store.queue, s.att.entry;
    JudgeBase(s, accept, recorded);
    ConservedFacts(s.store, s.log.submitted, s.log.dropped);
    var p := Position(q, e.key);
    PositionAt(q, p);
    if accept {
      PromoteStep(s, p, recorded);
    } else {
      DropStep(s, p);
    }
  }

  lemma PromoteStep(s: Sys, p: nat, recorded: bool)
    requires Tidy(s) && s.att.At? && Distinct(Keys(s.store.queue))
    requires Frontier(s.store.queue, p) && s.store.queue[p] == s.att.entry && s.att.entry.key in Keys(s.store.queue)
    ensures var t := Judge(s, s.att.entry, s.att.next, true, recorded);
      && Held(t.attesting, t.store, t.log.submitted, t.log.dropped, t.att)
      && Flight(t.canon, t.store.queue, t.log.submitted, t.asked, t.answered) && !t.log.lost
  {
    var q, e, next := s.store.queue, s.att.entry, s.att.next;
    PositionAt(q, p);
    PromoteAt(q, p, s.log.submitted);
    var q' := Promote(q, e.key);
    FlightKept(s.canon, q, q', s.log.submitted, s.log.submitted, s.asked, s.answered);
    AttPromoted(q, q', p, next, s.log.submitted);
  }

  lemma AttPromoted(q: seq<Entry>, q': seq<Entry>, p: nat, next: Uuid, submitted: seq<Uuid>)
    requires Distinct(Keys(q)) && Keys(q') == Keys(q) && p < |q| && (p + 1 < |q| ==> Frontier(q', p + 1))
    requires next == Ones || (p + 1 < |q| && q[p + 1].key == next)
    ensures AttOk(q', submitted, Onward(next))
  {
    if next != Ones {
      assert Keys(q')[p + 1] == Keys(q)[p + 1];
      PositionAt(q', p + 1);
    }
  }

  lemma DropStep(s: Sys, p: nat)
    requires Tidy(s) && s.att.At? && Distinct(Keys(s.store.queue))
    requires Frontier(s.store.queue, p) && s.store.queue[p] == s.att.entry && s.att.entry.key in Keys(s.store.queue)
    requires s.att.entry.key in s.log.submitted
    ensures var t := Judge(s, s.att.entry, s.att.next, false, true);
      && Held(t.attesting, t.store, t.log.submitted, t.log.dropped, t.att)
      && Flight(t.canon, t.store.queue, t.log.submitted, t.asked, t.answered) && !t.log.lost
    ensures Judge(s, s.att.entry, s.att.next, false, false) == Judge(s, s.att.entry, s.att.next, false, true)
  {
    var q, e, next := s.store.queue, s.att.entry, s.att.next;
    PositionAt(q, p);
    DropAt(q, p, s.log.submitted);
    DropConserves(s.store, s.log.submitted, s.log.dropped, p);
    FlightKept(s.canon, q, RemoveAt(q, p), s.log.submitted, s.log.submitted, s.asked, s.answered);
    AttDropped(q, p, next, s.log.submitted);
  }

  lemma DropConserves(store: Store, submitted: seq<Uuid>, dropped: set<Uuid>, p: nat)
    requires Conserved(store, submitted, dropped) && p < |store.queue| && store.queue[p].key in submitted
    ensures Conserved(store.(queue := RemoveAt(store.queue, p)), submitted, dropped + {store.queue[p].key})
  {
    var q, h := store.queue, CertIds(History(store.chain));
    var before, after := Keys(q[..p]), Keys(q[p + 1..]);
    DropKeys(q, p);
    Inside(h, before, q[p].key, after);
    KeptDrop(submitted, dropped, h + before, q[p].key, after);
  }

  lemma Inside(h: seq<Uuid>, before: seq<Uuid>, id: Uuid, after: seq<Uuid>)
    ensures h + (before + [id] + after) == (h + before) + [id] + after
    ensures h + (before + after) == (h + before) + after
  {}

  lemma AttDropped(q: seq<Entry>, p: nat, next: Uuid, submitted: seq<Uuid>)
    requires Distinct(Keys(q)) && p < |q| && (p + 1 < |q| ==> Frontier(RemoveAt(q, p), p))
    requires next == Ones || (p + 1 < |q| && q[p + 1].key == next)
    ensures AttOk(RemoveAt(q, p), submitted, Onward(next))
  {
    var q' := RemoveAt(q, p);
    if next != Ones {
      assert forall i :: 0 <= i < |q'| ==> Keys(q')[i] == Keys(q)[if i < p then i else i + 1];
      PositionAt(q', p);
    }
  }

  // ---------- the peers ----------

  /** Requests other than queue reads and writes have answers the queue has no part in. */
  lemma ServeTidy(s: Sys, choice: Choice)
    requires Tidy(s) && s.asked != [] && CleanServe(s, 0, choice)
    ensures Tidy(Serve(s, 0, choice))
  {
    ServeBase(s, choice);
    if QueueQuery(s.asked[0]) {
      ServeQueue(s, choice);
    } else if s.asked[0].request.AskWrite? {
      ServeWrite(s, choice);
    } else {
      ServeOther(s, choice);
    }
  }

  /** The rest of the invariant, for a step that changes messages only. */
  predicate Rest(s: Sys) {
    && !s.log.lost
    && Held(s.attesting, s.store, s.log.submitted, s.log.dropped, s.att)
    && Flight(s.canon, s.store.queue, s.log.submitted, s.asked, s.answered)
  }

  lemma ServeOther(s: Sys, choice: Choice)
    requires Tidy(s) && s.asked != [] && s.asked[0].Asked? && !QueueQuery(s.asked[0]) && !s.asked[0].request.AskWrite?
    ensures Rest(Serve(s, 0, choice))
  {
    var req := s.asked[0].request;
    assert s.asked == [Asked(req)];
    if req.AskBlock? {
      BlockServed(s, req, choice);
    } else {
      OtherServed(s, req, choice);
    }
  }

  lemma ServeQueue(s: Sys, choice: Choice)
    requires Tidy(s) && s.asked != [] && QueueQuery(s.asked[0])
    ensures Rest(Serve(s, 0, choice))
  {
    var q, query := s.store.queue, s.asked[0];
    assert s.asked == [query];
    QueueServed(s, query, choice);
    ConservedFacts(s.store, s.log.submitted, s.log.dropped);
    if NeedsSecondRead(q, query, choice) {
      assert Keys(q)[0] == q[0].key;
    } else if !s.canon.forceExit {
      QueueAnswered(s.canon, q, s.log.submitted, query, choice);
    }
  }

  lemma QueueAnswered(c: Canon, q: seq<Entry>, submitted: seq<Uuid>, query: Query, choice: Choice)
    requires QueueQuery(query) && WalkQuery(c.list, q, submitted, query)
    requires Distinct(Keys(q)) && Shaped(q) && forall k :: k in Keys(q) ==> k in submitted
    ensures WalkAnswer(c.list, q, submitted, QueueAnswer(q, query, choice))
  {
    if query.FirstFound? {
      assert q[..0] == [];
      FoundAt(q, submitted, query.key, 0, choice.ok);
    } else if query.request.AskTxn? {
      FoundAt(q, submitted, query.request.id, |c.list.value|, choice.ok);
    }
  }

  /** A read by a reference that can only be at position `n` answers with that position. */
  lemma FoundAt(q: seq<Entry>, submitted: seq<Uuid>, id: Uuid, n: nat, ok: bool)
    requires Distinct(Keys(q)) && forall k :: k in Keys(q) ==> k in submitted
    requires Stale(q, id, n) && AttestedUpTo(q, n)
    ensures AnswerOk(q[..n], q, submitted, ReadOf(ok, Get(q, id)))
  {
    if id in Keys(q) {
      PositionAt(q, n);
      assert Get(q, id) == Found(q[n], PrevKey(q, n), NextKey(q, n));
      FoundEntry(q, submitted, n, ok);
    }
  }

  lemma FoundEntry(q: seq<Entry>, submitted: seq<Uuid>, n: nat, ok: bool)
    requires n < |q| && AttestedUpTo(q, n) && forall k :: k in Keys(q) ==> k in submitted
    ensures AnswerOk(q[..n], q, submitted, ReadOf(ok, Found(q[n], PrevKey(q, n), NextKey(q, n))))
  {
    NextStale(q, submitted, n);
  }

  /** The key after position `n` is where it says, or there is none. */
  lemma NextStale(q: seq<Entry>, submitted: seq<Uuid>, n: nat)
    requires n < |q| && forall k :: k in Keys(q) ==> k in submitted
    ensures NextKey(q, n) == Ones || (NextKey(q, n) in submitted && Stale(q, NextKey(q, n), n + 1))
  {
    if n + 1 < |q| {
      assert Keys(q)[n + 1] == q[n + 1].key;
    }
  }

  // ---------- the block write ----------

  /** An accepted write moves an attested prefix of the queue into the new block. */
  lemma WriteMovesPrefix(s: Store, id: Uuid, b: BlockCert)
    requires Accepts(s, id, b) && |b.certs| <= |s.queue| && b.certs == CertsOf(s.queue[..|b.certs|])
    requires EntriesOk(s.queue) && Distinct(Keys(s.queue))
    ensures CertIds(b.certs) == Keys(s.queue[..|b.certs|])
    ensures Write(s, id, b) == Store(s.queue[|b.certs|..], s.chain + [BlockOf(b)])
  {
    var n := |b.certs|;
    forall i | 0 <= i < n ensures CertIds(b.certs)[i] == Keys(s.queue[..n])[i] {
      assert b.certs[i] == s.queue[i].cert && EntryOk(s.queue[i]);
    }
    PrefixWrite(s, id, b);
  }

  /** A write whose certificates name the first keys of the queue takes exactly those. */
  lemma PrefixWrite(s: Store, id: Uuid, b: BlockCert)
    requires Accepts(s, id, b) && |b.certs| <= |s.queue| && CertIds(b.certs) == Keys(s.queue[..|b.certs|])
    requires Distinct(Keys(s.queue))
    ensures Write(s, id, b) == Store(s.queue[|b.certs|..], s.chain + [BlockOf(b)])
  {
    var n := |b.certs|;
    assert IdSet(b.certs) == KeySet(s.queue[..n]);
    WithoutPrefix(s.queue, n);
  }

  lemma PrefixKeys(q: seq<Entry>, n: nat)
    requires n <= |q|
    ensures Keys(q[..n]) == Keys(q)[..n]
  {}

  lemma WriteConserves(s: Store, submitted: seq<Uuid>, dropped: set<Uuid>, blk: Block, n: nat)
    requires Conserved(s, submitted, dropped) && n <= |s.queue|
    requires CertIds(blk.certs) == Keys(s.queue[..n])
    ensures Conserved(Store(s.queue[n..], s.chain + [blk]), submitted, dropped)
  {
    var q, h := s.queue, CertIds(History(s.chain));
    HistoryAppend(s.chain, blk);
    CertIdsAppend(History(s.chain), blk.certs);
    KeysAppend(q[..n], q[n..]);
    assert q == q[..n] + q[n..];
    Associate(h, Keys(q[..n]), Keys(q[n..]));
  }

  lemma CertIdsAppend(a: seq<Certificate>, b: seq<Certificate>)
    ensures CertIds(a + b) == CertIds(a) + CertIds(b)
  {}

  lemma Associate(a: seq<Uuid>, b: seq<Uuid>, c: seq<Uuid>)
    ensures (a + b) + c == a + (b + c)
  {}

  lemma SuffixPosition(q: seq<Entry>, n: nat, p: nat)
    requires Distinct(Keys(q)) && n <= p < |q|
    ensures Position(q[n..], q[p].key) == p - n
  {
    assert forall i :: 0 <= i < |q[n..]| ==> Keys(q[n..])[i] == Keys(q)[n + i];
    PositionAt(q[n..], p - n);
  }

  lemma GoneFromSuffix(q: seq<Entry>, n: nat, i: nat)
    requires Distinct(Keys(q)) && i < n <= |q|
    ensures q[i].key !in Keys(q[n..])
  {
    assert Keys(q)[i] == q[i].key;
    assert forall j :: 0 <= j < |q[n..]| ==> Keys(q[n..])[j] == Keys(q)[n + j];
  }

  lemma FrontierSuffix(q: seq<Entry>, n: nat, p: nat)
    requires Frontier(q, p) && AttestedUpTo(q, n) && Distinct(Keys(q))
    ensures n <= p && Frontier(q[n..], p - n) && q[n..][p - n] == q[p] && Position(q[n..], q[p].key) == p - n
  {
    SuffixPosition(q, n, p);
  }

  lemma AttAfterWrite(q: seq<Entry>, n: nat, submitted: seq<Uuid>, att: Attest)
    requires AttOk(q, submitted, att) && AttestedUpTo(q, n) && n > 0 && Distinct(Keys(q))
    ensures AttOk(q[n..], submitted, att)
  {
    if att.At? {
      AtAfterWrite(q, n, submitted, att.entry, att.next);
    } else if att.Fetching? && !att.first {
      FrontierSuffix(q, n, Position(q, att.key));
    } else if att.Fetching? {
      HeadAfterWrite(q, n, att.key);
    }
  }

  lemma AtAfterWrite(q: seq<Entry>, n: nat, submitted: seq<Uuid>, e: Entry, next: Uuid)
    requires AttOk(q, submitted, At(e, next)) && AttestedUpTo(q, n) && Distinct(Keys(q))
    ensures AttOk(q[n..], submitted, At(e, next))
  {
    var p := Position(q, e.key);
    FrontierSuffix(q, n, p);
    NextInSuffix(q, n, p, next);
  }

  lemma NextInSuffix(q: seq<Entry>, n: nat, p: nat, next: Uuid)
    requires n <= p < |q| && (next == Ones || (p + 1 < |q| && q[p + 1].key == next))
    ensures next == Ones || (p - n + 1 < |q[n..]| && q[n..][p - n + 1].key == next)
  {}

  lemma HeadAfterWrite(q: seq<Entry>, n: nat, k: Uuid)
    requires Stale(q, k, 0) && 0 < n <= |q| && Distinct(Keys(q))
    ensures k !in Keys(q[n..])
  {
    GoneFromSuffix(q, n, 0);
    StaleInSuffix(q, n, k);
  }

  lemma StaleInSuffix(q: seq<Entry>, n: nat, k: Uuid)
    requires n <= |q|
    ensures k in Keys(q[n..]) ==> k in Keys(q)
  {
    assert forall j :: 0 <= j < |q[n..]| ==> Keys(q[n..])[j] == Keys(q)[n + j];
  }

  lemma SuffixShaped(q: seq<Entry>, n: nat)
    requires Shaped(q) && n <= |q|
    ensures Shaped(q[n..])
  {}

  lemma ServeWrite(s: Sys, choice: Choice)
    requires Tidy(s) && s.asked != [] && IsWrite(s.asked[0]) && CleanServe(s, 0, choice)
    ensures Rest(Serve(s, 0, choice))
  {
    var req := s.asked[0].request;
    assert s.asked == [Asked(req)];
    WriteServed(s, req, choice);
    if choice.ok && Accepts(s.store, req.id, req.cert) {
      WriteHeld(s, req.id, req.cert);
    }
  }

  /** An accepted write keeps the store and the attestation service in agreement. */
  lemma WriteHeld(s: Sys, id: Uuid, b: BlockCert)
    requires Tidy(s) && Accepts(s.store, id, b) && AttestedUpTo(s.store.queue, |b.certs|)
    requires CertIds(b.certs) <= Keys(s.store.queue)
    ensures Held(s.attesting, Write(s.store, id, b), s.log.submitted, s.log.dropped, s.att)
  {
    var n, q := |b.certs|, s.store.queue;
    ConservedFacts(s.store, s.log.submitted, s.log.dropped);
    PrefixKeys(q, n);
    PrefixWrite(s.store, id, b);
    WriteConserves(s.store, s.log.submitted, s.log.dropped, BlockOf(b), n);
    SuffixShaped(q, n);
    AttAfterWrite(q, n, s.log.submitted, s.att);
  }

  // ---------- responses ----------

  /** Only a read response leads to another read or to a write. */
  lemma OthersAskElse(c: Canon, r: Response, f: Faults, sig: seq<byte>)
    requires !c.forceExit && Handles(c, r) && !r.FirstIs? && !r.TxnIs?
    ensures var o := OnResponse(c, r, f, sig);
      o.effect.Send? ==> !o.effect.request.AskTxn? && !o.effect.request.AskWrite?
  {}

  /** A read response leads to a read of the next transaction, or to a write of those taken. */
  lemma ReadsAskOn(c: Canon, q: seq<Entry>, submitted: seq<Uuid>, r: Response, f: Faults, sig: seq<byte>)
    requires !c.forceExit && (r.FirstIs? || r.TxnIs?) && c.list.Some? && (r.FirstIs? ==> c.list.value == [])
    requires WalkAnswer(c.list, q, submitted, r)
    ensures var o := OnResponse(c, r, f, sig);
      o.effect.Send? ==>
        WriteTaken(q, Asked(o.effect.request)) && WalkQuery(o.c.list, q, submitted, Asked(o.effect.request))
  {
    var n := |c.list.value|;
    assert AttestedUpTo(q, 0) && q[..0] == [];
    if r.answer.There? && r.answer.entry.state == Attested {
      assert q[..n + 1] == q[..n] + [q[n]];
      assert Taken(q, c.list.value + [r.answer.entry]);
    }
  }

  lemma DeliverTidy(s: Sys, f: Faults, sig: seq<byte>)
    requires Tidy(s) && s.answered != [] && |sig| == SIGNATURE_SIZE
    ensures Tidy(Deliver(s, 0, f, sig))
  {
    var r := s.answered[0];
    assert s.answered == [r];
    DeliverBase(s, f, sig);
    if !s.canon.forceExit {
      AnyResponse(s, r, f, sig);
      DeliverRest(s, r, f, sig);
    }
  }

  lemma DeliverRest(s: Sys, r: Response, f: Faults, sig: seq<byte>)
    requires Tidy(s) && s.answered == [r] && s.asked == [] && !s.canon.forceExit && Handles(s.canon, r)
    ensures Rest(Deliver(s, 0, f, sig))
  {
    if r.FirstIs? || r.TxnIs? {
      ReadsAskOn(s.canon, s.store.queue, s.log.submitted, r, f, sig);
    } else {
      OthersAskElse(s.canon, r, f, sig);
    }
    DeliverParts(s, r, f, sig);
  }

  /** What a delivery leaves alone, and what it asks. */
  lemma DeliverParts(s: Sys, r: Response, f: Faults, sig: seq<byte>)
    requires s.answered == [r] && s.asked == [] && !s.canon.forceExit && Handles(s.canon, r)
    ensures var t, o := Deliver(s, 0, f, sig), OnResponse(s.canon, r, f, sig);
      && t.attesting == s.attesting && t.store == s.store && t.att == s.att && t.canon == o.c && t.answered == []
      && t.log.submitted == s.log.submitted && t.log.dropped == s.log.dropped
      && t.log.honest == s.log.honest && t.log.lost == s.log.lost
      && t.asked == (if o.effect.Send? then [Asked(o.effect.request)] else [])
  {}

  // ---------- every run ----------

  lemma TimerTidy(s: Sys, f: Faults)
    requires Tidy(s) && s.armed
    ensures Tidy(FireTimer(s, f))
  {
    TimerBase(s, f);
  }

  lemma KillTidy(s: Sys)
    requires Tidy(s)
    ensures Tidy(s.(canon := s.canon.(forceExit := true)))
  {
    KillBase(s);
  }

  lemma HaltTidy(s: Sys)
    requires Tidy(s)
    ensures Tidy(s.(att := Stopped))
  {
    HaltBase(s);
  }

  /** Every clean step of every service keeps it. */
  lemma StepKeepsTidy(s: Sys, step: Step)
    requires Tidy(s) && Enabled(s, step) && CleanStep(s, step)
    ensures Tidy(Apply(s, step))
  {
    OneToken(s);
    if step.Serving? {
      ServeTidy(s, step.choice);
    } else if step.Delivering? {
      DeliverTidy(s, step.f, step.sig);
    } else if step.TimerFiring? {
      TimerTidy(s, step.f);
    } else {
      OthersTidy(s, step);
    }
  }

  lemma OthersTidy(s: Sys, step: Step)
    requires Tidy(s) && Enabled(s, step) && CleanStep(s, step)
    requires !step.Serving? && !step.Delivering? && !step.TimerFiring?
    ensures Tidy(Apply(s, step))
  {
    if step.Submitting? {
      SubmitTidy(s, step.key, step.artifact, step.cert);
    } else if step.Waking? {
      WakeTidy(s);
    } else if step.Reading? {
      ReadTidy(s);
    } else if step.Judging? {
      JudgeTidy(s, step.accept, step.recorded);
    } else if step.Killing? {
      KillTidy(s);
    } else {
      HaltTidy(s);
    }
  }

  /** Every clean schedule keeps it. */
  lemma {:induction false} RunKeepsTidy(s: Sys, steps: seq<Step>)
    requires Tidy(s) && CleanRun(s, steps)
    ensures Tidy(Exec(s, steps))
    decreases |steps|
  {
    if steps != [] {
      var n := |steps| - 1;
      RunKeepsTidy(s, steps[..n]);
      var t := Exec(s, steps[..n]);
      if Enabled(t, steps[n]) {
        StepKeepsTidy(t, steps[n]);
      }
    }
  }

  // ---------- honest submitters ----------

  predicate HonestStep(s: Sys, step: Step) {
    step.Submitting? ==> Honest(s, step.key, step.cert)
  }

  /** Honest submissions make every step clean. */
  lemma HonestIsClean(s: Sys, step: Step)
    requires Inv(s) && Enabled(s, step) && HonestStep(s, step)
    ensures CleanStep(s, step)
  {
    if step.Serving? {
      OneToken(s);
      if Writes(s, step.i, step.choice) {
        HonestWrite(s);
      }
    }
  }

  lemma HonestWrite(s: Sys)
    requires Inv(s) && s.asked != [] && IsWrite(s.asked[0])
    requires Accepts(s.store, s.asked[0].request.id, s.asked[0].request.cert)
    ensures CertIds(s.asked[0].request.cert.certs) <= Keys(s.store.queue)
  {
    var b := s.asked[0].request.cert;
    assert WriteTaken(s.store.queue, s.asked[0]);
    ConservedFacts(s.store, s.log.submitted, s.log.dropped);
    WriteMovesPrefix(s.store, s.asked[0].request.id, b);
    PrefixKeys(s.store.queue, |b.certs|);
  }

  /** Entries leave the queue or are promoted; only submissions bring new ones. */
  lemma StepKeepsEntries(s: Sys, step: Step)
    requires EntriesOk(s.store.queue) && Enabled(s, step) && HonestStep(s, step)
    ensures EntriesOk(Apply(s, step).store.queue)
  {
    if step.Serving? {
      ServeKeepsEntries(s, step.i, step.choice);
    } else if step.Judging? {
      JudgeKeepsEntries(s.store.queue, s.att.entry.key);
    } else if step.Delivering? {
      DeliverLeavesStore(s, step.i, step.f, step.sig);
    } else if step.Reading? {
      ReadLeaves(s, s.att.key, s.att.first);
    }
  }

  lemma JudgeKeepsEntries(q: seq<Entry>, key: Uuid)
    requires EntriesOk(q)
    ensures EntriesOk(Promote(q, key)) && EntriesOk(Drop(q, key))
  {
    var p := Position(q, key);
    if p < |q| {
      var r := RemoveAt(q, p);
      assert EntryOk(q[p]);
      assert forall i :: 0 <= i < |r| ==> r[i] == q[if i < p then i else i + 1];
    }
  }

  lemma ServeKeepsEntries(s: Sys, i: nat, choice: Choice)
    requires EntriesOk(s.store.queue) && i < |s.asked|
    ensures EntriesOk(Serve(s, i, choice).store.queue)
  {
    if IsWrite(s.asked[i]) {
      ServeWrites(s, i, choice);
      WithoutEntries(s.store.queue, IdSet(s.asked[i].request.cert.certs));
    } else {
      ServeReads(s, i, choice);
    }
  }

  lemma WithoutEntries(q: seq<Entry>, gone: set<Uuid>)
    requires EntriesOk(q)
    ensures EntriesOk(Without(q, gone))
  {
    var w := Without(q, gone);
    forall i | 0 <= i < |w| ensures EntryOk(w[i]) {
      WithoutMembers(q, gone, w[i]);
    }
  }

  lemma DeliverLeavesStore(s: Sys, i: nat, f: Faults, sig: seq<byte>)
    requires i < |s.answered|
    ensures Deliver(s, i, f, sig).store == s.store && Deliver(s, i, f, sig).log.honest == s.log.honest
  {}

  lemma HonestStays(s: Sys, step: Step)
    requires s.log.honest && Enabled(s, step) && HonestStep(s, step)
    ensures Apply(s, step).log.honest
  {
    if step.Serving? {
      ServeLeaves(s, step.i, step.choice);
    } else if step.Delivering? {
      DeliverLeavesStore(s, step.i, step.f, step.sig);
    } else if step.Reading? {
      ReadLeaves(s, s.att.key, s.att.first);
    }
  }

  /** Every step keeps the invariant, as long as submissions are honest. */
  lemma StepKeepsInv(s: Sys, step: Step)
    requires Inv(s) && Enabled(s, step) && HonestStep(s, step)
    ensures Inv(Apply(s, step))
  {
    HonestIsClean(s, step);
    StepKeepsTidy(s, step);
    StepKeepsEntries(s, step);
    HonestStays(s, step);
  }

  lemma ServeStep(s: Sys, choice: Choice)
    requires Inv(s) && s.asked != []
    ensures Inv(Serve(s, 0, choice))
  {
    StepKeepsInv(s, Serving(0, choice));
  }

  lemma DeliverStep(s: Sys, f: Faults, sig: seq<byte>)
    requires Inv(s) && s.answered != [] && |sig| == SIGNATURE_SIZE
    ensures Inv(Deliver(s, 0, f, sig))
  {
    StepKeepsInv(s, Delivering(0, f, sig));
  }

  /** A database that earlier runs left in good order. */
  predicate GoodStart(attesting: bool, store: Store, submitted: seq<Uuid>, dropped: set<Uuid>) {
    StoreOk(store, submitted, dropped) && (!attesting ==> AttestedUpTo(store.queue, |store.queue|))
  }

  lemma BeginTidy(attesting: bool, store: Store, submitted: seq<Uuid>, dropped: set<Uuid>, setup: Setup)
    requires GoodStart(attesting, store, submitted, dropped)
    ensures Tidy(Begin(attesting, store, submitted, dropped, setup))
  {
    ConservedPlain(store, submitted, dropped);
  }

  lemma HonestBefore(s: Sys, step: Step)
    requires Enabled(s, step) && Apply(s, step).log.honest
    ensures s.log.honest && HonestStep(s, step)
  {
    if step.Serving? {
      ServeLeaves(s, step.i, step.choice);
    } else if step.Delivering? {
      DeliverLeavesStore(s, step.i, step.f, step.sig);
    }
  }

  /** A schedule that ends honest began so. */
  lemma {:induction false} HonestFromStart(s: Sys, steps: seq<Step>)
    requires Exec(s, steps).log.honest
    ensures s.log.honest
    decreases |steps|
  {
    if steps != [] {
      var n := |steps| - 1;
      var t := Exec(s, steps[..n]);
      if Enabled(t, steps[n]) {
        HonestBefore(t, steps[n]);
      }
      HonestFromStart(s, steps[..n]);
    }
  }

  /** Every schedule with honest submissions, from a state that satisfies it, keeps the invariant,
      and it is a clean one. */
  lemma {:induction false} RunKeepsInv(s: Sys, steps: seq<Step>)
    requires Inv(s) && Exec(s, steps).log.honest
    ensures Inv(Exec(s, steps)) && CleanRun(s, steps)
    decreases |steps|
  {
    if steps != [] {
      var n := |steps| - 1;
      var t := Exec(s, steps[..n]);
      if Enabled(t, steps[n]) {
        HonestBefore(t, steps[n]);
        RunKeepsInv(s, steps[..n]);
        HonestIsClean(t, steps[n]);
        StepKeepsInv(t, steps[n]);
      } else {
        RunKeepsInv(s, steps[..n]);
      }
    }
  }
}
