/** When exactly the attestation service knows where it is.  It holds on to keys between its steps;
    a submission or a block in between can pull them from under it, and nothing else can. */
module Soundness {
  import opened Ids
  import opened Ledger
  import opened Canonization
  import opened QueueShape
  import opened Protocol
  import opened Conversation
  import opened Safety
  import opened Theorems
  import opened Accounts
  import opened Turns

  /** The transaction it decides on is queued, submitted and first unattested, and the next one
      follows it; the one it looks for is first unattested; the head it looked up is the head, if
      it is there at all. */
  predicate Looks(q: seq<Entry>, att: Attest) {
    match att
    case At(e, next) =>
      var p := Position(q, e.key);
      && Frontier(q, p) && q[p] == e
      && (next == Ones || (p + 1 < |q| && q[p + 1].key == next))
    case Fetching(k, first) => if first then Stale(q, k, 0) else Frontier(q, Position(q, k))
    case _ => true
  }

  /** The queue has its shape and the attestation service knows where it is; without attestation
      everything queued is attested and the service sleeps. */
  predicate Sound(s: Sys) {
    && Shaped(s.store.queue)
    && Looks(s.store.queue, s.att)
    && (!s.attesting ==> AttestedUpTo(s.store.queue, |s.store.queue|) && !s.att.Fetching? && !s.att.At?)
  }

  /** What it relies on is not among the ids that leave. */
  predicate Spares(att: Attest, gone: set<Uuid>) {
    match att
    case At(e, next) => e.key !in gone && next !in gone
    case Fetching(k, first) => first || k !in gone
    case _ => true
  }

  /** A step that leaves it where it is, told from the state before it: the head it has just looked
      up does not come back behind another transaction, and a block takes neither the transaction
      it is at nor the next one. */
  predicate Undisturbed(s: Sys, step: Step)
    requires Enabled(s, step)
  {
    match step
    case Submitting(key, _, _) =>
      Submittable(s.store.queue, key) && s.att == Fetching(key, true) ==> s.store.queue == []
    case Serving(i, choice) =>
      Writes(s, i, choice) ==> Spares(s.att, IdSet(s.asked[i].request.cert.certs))
    case _ => true
  }

  // ---------- what a sound state is good for ----------

  /** In a sound state a judgement attests or removes exactly the first unattested transaction. */
  lemma SoundJudgement(s: Sys, accept: bool, recorded: bool)
    requires Base(s) && Sound(s) && s.att.At?
    ensures var q, p := s.store.queue, Front(s.store.queue);
      && Frontier(q, p) && q[p] == s.att.entry
      && Judge(s, s.att.entry, s.att.next, accept, recorded).store.queue
           == if accept then q[p := q[p].(state := Attested)] else q[..p] + q[p + 1..]
  {
    var q := s.store.queue;
    var p := Position(q, s.att.entry.key);
    PositionAt(q, p);
    assert Front(q) == p;
  }

  lemma NothingMissed(s: Sys, step: Step)
    requires Base(s) && Sound(s) && Enabled(s, step)
    ensures Apply(s, step).log.lost == s.log.lost
  {
    if step.Serving? {
      ServeLeaves(s, step.i, step.choice);
    } else if step.Delivering? {
      DeliverLoses(s, step.i, step.f, step.sig);
    } else if step.Reading? {
      ReadMisses(s, s.att.key, s.att.first);
    }
  }

  lemma DeliverLoses(s: Sys, i: nat, f: Faults, sig: seq<byte>)
    requires i < |s.answered|
    ensures Deliver(s, i, f, sig).log.lost == s.log.lost
  {}

  lemma ReadMisses(s: Sys, key: Uuid, first: bool)
    ensures Read(s, key, first).log.lost == (s.log.lost || (!first && key !in Keys(s.store.queue)))
  {}

  // ---------- submissions ----------

  lemma SubmitLooks(q: seq<Entry>, e: Entry, att: Attest)
    requires Looks(q, att) && e.key !in Keys(q)
    ensures Looks(q + [e], att) <==> (att == Fetching(e.key, true) ==> q == [])
  {
    KeysAppend(q, [e]);
    assert Keys([e]) == [e.key];
    match att {
      case At(f, next) => PositionAppend(q, e, f.key);
      case Fetching(k, first) =>
        if !first {
          PositionAppend(q, e, k);
        } else {
          HeadAppend(q, e, k);
        }
      case _ =>
    }
  }

  lemma HeadAppend(q: seq<Entry>, e: Entry, k: Uuid)
    requires Stale(q, k, 0) && e.key !in Keys(q)
    ensures Stale(q + [e], k, 0) <==> (k == e.key ==> q == [])
  {
    KeysAppend(q, [e]);
    assert Keys([e]) == [e.key];
    if q != [] {
      assert Keys(q)[0] == q[0].key;
    }
  }

  lemma SubmitSound(s: Sys, key: Uuid, artifact: Uuid, cert: Certificate)
    requires Sound(s)
    ensures Sound(Enter(s, key, artifact, cert)) <==> Undisturbed(s, Submitting(key, artifact, cert))
  {
    var q, e := s.store.queue, Entry(key, artifact, cert, EntryState(s.attesting));
    if Submittable(q, key) {
      SubmitShape(q, e);
      SubmitLooks(q, e, s.att);
    }
  }

  // ---------- block writes ----------

  lemma {:induction false} WithoutAppend(a: seq<Entry>, b: seq<Entry>, gone: set<Uuid>)
    ensures Without(a + b, gone) == Without(a, gone) + Without(b, gone)
  {
    if a == [] {
      assert a + b == b;
    } else {
      assert (a + b)[0] == a[0] && (a + b)[1..] == a[1..] + b;
      WithoutAppend(a[1..], b, gone);
    }
  }

  /** A transaction that stays, at position `p`, is found again behind what stays before it. */
  lemma StaysAt(q: seq<Entry>, p: nat, gone: set<Uuid>)
    requires p < |q| && q[p].key !in gone
    ensures var w, n := Without(q, gone), |Without(q[..p], gone)|;
      n < |w| && w[n] == q[p] && w[..n] == Without(q[..p], gone) && w[n + 1..] == Without(q[p + 1..], gone)
  {
    assert q == q[..p] + q[p..] && q[p..][1..] == q[p + 1..];
    WithoutAppend(q[..p], q[p..], gone);
  }

  lemma FrontierStays(q: seq<Entry>, p: nat, gone: set<Uuid>)
    requires Distinct(Keys(q)) && Frontier(q, p) && q[p].key !in gone
    ensures var w, n := Without(q, gone), |Without(q[..p], gone)|;
      Frontier(w, n) && w[n] == q[p] && Position(w, q[p].key) == n
  {
    var w, before := Without(q, gone), Without(q[..p], gone);
    var n := |before|;
    StaysAt(q, p, gone);
    forall i | 0 <= i < n ensures w[i].state == Attested {
      WithoutMembers(q[..p], gone, before[i]);
      assert w[i] == w[..n][i] == before[i];
    }
    WithoutDistinct(q, gone);
    PositionAt(w, n);
  }

  lemma LeavesNone(q: seq<Entry>, gone: set<Uuid>, key: Uuid)
    requires key in gone
    ensures key !in Keys(Without(q, gone))
  {
    WithoutKeys(q, gone);
    KeysMember(Without(q, gone), key);
    assert key !in KeySet(Without(q, gone));
  }

  lemma NextStays(q: seq<Entry>, p: nat, gone: set<Uuid>)
    requires p + 1 < |q| && q[p].key !in gone
    ensures var w, n := Without(q, gone), |Without(q[..p], gone)|;
      q[p + 1].key !in gone ==> n + 1 < |w| && w[n + 1] == q[p + 1]
  {
    StaysAt(q, p, gone);
    var w, n := Without(q, gone), |Without(q[..p], gone)|;
    if q[p + 1].key !in gone {
      assert Without(q[p + 1..], gone) == [q[p + 1]] + Without(q[p + 1..][1..], gone);
      assert w[n + 1..][0] == q[p + 1];
    }
  }

  lemma WriteLooksAt(q: seq<Entry>, gone: set<Uuid>, e: Entry, next: Uuid)
    requires Plain(q) && Looks(q, At(e, next)) && Ones !in gone
    ensures Looks(Without(q, gone), At(e, next)) <==> e.key !in gone && next !in gone
  {
    var w, p := Without(q, gone), Position(q, e.key);
    if e.key in gone {
      LeavesNone(q, gone, e.key);
    } else {
      FrontierStays(q, p, gone);
      if next != Ones {
        NextStays(q, p, gone);
        if next in gone {
          NoneNamed(w, q, gone, next);
        }
      }
    }
  }

  lemma NoneNamed(w: seq<Entry>, q: seq<Entry>, gone: set<Uuid>, key: Uuid)
    requires w == Without(q, gone) && key in gone
    ensures forall i :: 0 <= i < |w| ==> w[i].key != key
  {
    LeavesNone(q, gone, key);
    forall i | 0 <= i < |w| ensures w[i].key != key {
      assert Keys(w)[i] == w[i].key;
    }
  }

  lemma WriteLooksFor(q: seq<Entry>, gone: set<Uuid>, k: Uuid)
    requires Plain(q) && Frontier(q, Position(q, k))
    ensures Frontier(Without(q, gone), Position(Without(q, gone), k)) <==> k !in gone
  {
    if k in gone {
      LeavesNone(q, gone, k);
    } else {
      FrontierStays(q, Position(q, k), gone);
    }
  }

  lemma WriteLooksFirst(q: seq<Entry>, gone: set<Uuid>, k: Uuid)
    requires Stale(q, k, 0)
    ensures Stale(Without(q, gone), k, 0)
  {
    var w := Without(q, gone);
    if k in Keys(w) {
      WithoutKeys(q, gone);
      assert k in KeySet(w);
      assert k in KeySet(q) && k !in gone;
    }
  }

  lemma WriteLooks(q: seq<Entry>, gone: set<Uuid>, att: Attest)
    requires Plain(q) && Looks(q, att) && Ones !in gone
    ensures Looks(Without(q, gone), att) <==> Spares(att, gone)
  {
    match att {
      case At(e, next) => WriteLooksAt(q, gone, e, next);
      case Fetching(k, first) =>
        if first {
          WriteLooksFirst(q, gone, k);
        } else {
          WriteLooksFor(q, gone, k);
        }
      case _ =>
    }
  }

  lemma WithoutAttested(q: seq<Entry>, gone: set<Uuid>)
    requires AttestedUpTo(q, |q|)
    ensures AttestedUpTo(Without(q, gone), |Without(q, gone)|)
  {
    var w := Without(q, gone);
    forall i | 0 <= i < |w| ensures w[i].state == Attested {
      WithoutMembers(q, gone, w[i]);
    }
  }

  /** The ids of an accepted block are queued, so the end sentinel is none of them. */
  lemma NoSentinelTaken(s: Store, id: Uuid, b: BlockCert)
    requires Accepts(s, id, b) && Plain(s.queue)
    ensures Ones !in IdSet(b.certs)
  {
    forall i | 0 <= i < |b.certs| ensures CertIds(b.certs)[i] != Ones {
      assert b.certs[i].id.value in KeySet(s.queue);
    }
  }

  lemma ServeSound(s: Sys, i: nat, choice: Choice)
    requires Plain(s.store.queue) && Sound(s) && i < |s.asked|
    ensures Sound(Serve(s, i, choice)) <==> Undisturbed(s, Serving(i, choice))
  {
    var q := s.store.queue;
    ServeAccounts(s, i, choice);
    ServeLeaves(s, i, choice);
    if Writes(s, i, choice) {
      var b := s.asked[i].request.cert;
      NoSentinelTaken(s.store, s.asked[i].request.id, b);
      WithoutShape(q, IdSet(b.certs));
      WriteLooks(q, IdSet(b.certs), s.att);
      if !s.attesting {
        WithoutAttested(q, IdSet(b.certs));
      }
    }
  }

  // ---------- its own steps ----------

  lemma ReadSound(s: Sys)
    requires Plain(s.store.queue) && Sound(s) && s.att.Fetching?
    ensures Sound(Read(s, s.att.key, s.att.first))
  {
    ReadLeaves(s, s.att.key, s.att.first);
    ReadIsOk(s.store.queue, [s.att.key], s.att);
    ReadLooks(s, s.att.key, s.att.first);
  }

  lemma ReadLooks(s: Sys, key: Uuid, first: bool)
    requires var found := Get(s.store.queue, key);
      found.Found? ==> ReadOk(s.store.queue, [key], first, found)
    ensures Looks(s.store.queue, Read(s, key, first).att)
  {}

  lemma JudgeSound(s: Sys, accept: bool, recorded: bool)
    requires Plain(s.store.queue) && Sound(s) && s.att.At?
    ensures Sound(Judge(s, s.att.entry, s.att.next, accept, recorded))
  {
    var q, next := s.store.queue, s.att.next;
    var p := Position(q, s.att.entry.key);
    PositionAt(q, p);
    if accept {
      PromoteAt(q, p, []);
      AttPromoted(q, Promote(q, q[p].key), p, next, []);
    } else {
      DropAt(q, p, []);
      AttDropped(q, p, next, []);
    }
  }

  // ---------- every step and every run ----------

  /** From a sound state each step leads to a sound one exactly when it leaves the attestation
      service where it is. */
  lemma StepKeepsSoundExactly(s: Sys, step: Step)
    requires Base(s) && Sound(s) && Enabled(s, step)
    ensures Sound(Apply(s, step)) <==> Undisturbed(s, step)
  {
    if step.Submitting? {
      SubmitSound(s, step.key, step.artifact, step.cert);
    } else if step.Serving? {
      ServeSound(s, step.i, step.choice);
    } else if step.Reading? {
      ReadSound(s);
    } else if step.Judging? {
      JudgeSound(s, step.accept, step.recorded);
    } else {
      OthersSound(s, step);
    }
  }

  lemma OthersSound(s: Sys, step: Step)
    requires Sound(s) && Enabled(s, step)
    requires !step.Submitting? && !step.Serving? && !step.Reading? && !step.Judging?
    ensures Sound(Apply(s, step))
  {
    if step.Delivering? {
      DeliverLeavesAll(s, step.i, step.f, step.sig);
    }
  }

  lemma DeliverLeavesAll(s: Sys, i: nat, f: Faults, sig: seq<byte>)
    requires i < |s.answered|
    ensures var t := Deliver(s, i, f, sig); t.store == s.store && t.att == s.att && t.attesting == s.attesting
  {}

  /** Every step of a schedule leaves the attestation service where it is. */
  predicate UndisturbedRun(s: Sys, steps: seq<Step>)
    decreases |steps|
  {
    steps == [] ||
    (var n := |steps| - 1;
     var t := Exec(s, steps[..n]);
     UndisturbedRun(s, steps[..n]) && (Enabled(t, steps[n]) ==> Undisturbed(t, steps[n])))
  }

  /** The state is sound at every point of a schedule. */
  predicate SoundRun(s: Sys, steps: seq<Step>)
    decreases |steps|
  {
    Sound(Exec(s, steps)) && (steps == [] || SoundRun(s, steps[..|steps| - 1]))
  }

  /** Attestation is sound at every point of a run exactly when no submission and no block of the
      run disturbs it; and such a run misses nothing. */
  lemma {:induction false} RunKeepsSoundExactly(s: Sys, steps: seq<Step>)
    requires Base(s) && Sound(s)
    ensures SoundRun(s, steps) <==> UndisturbedRun(s, steps)
    ensures UndisturbedRun(s, steps) ==> Exec(s, steps).log.lost == s.log.lost
    decreases |steps|
  {
    if steps != [] {
      var n := |steps| - 1;
      RunKeepsSoundExactly(s, steps[..n]);
      RunKeepsBase(s, steps[..n]);
      var t := Exec(s, steps[..n]);
      if SoundRun(s, steps[..n]) && Enabled(t, steps[n]) {
        StepKeepsSoundExactly(t, steps[n]);
        NothingMissed(t, steps[n]);
      }
    }
  }

  /** Clean runs are undisturbed. */
  lemma {:induction false} CleanIsUndisturbed(s: Sys, steps: seq<Step>)
    requires Tidy(s) && CleanRun(s, steps)
    ensures UndisturbedRun(s, steps)
  {
    CleanIsSound(s, steps);
    assert Sound(s);
    RunKeepsSoundExactly(s, steps);
  }

  lemma {:induction false} CleanIsSound(s: Sys, steps: seq<Step>)
    requires Tidy(s) && CleanRun(s, steps)
    ensures SoundRun(s, steps)
    decreases |steps|
  {
    RunKeepsTidy(s, steps);
    if steps != [] {
      CleanIsSound(s, steps[..|steps| - 1]);
    }
  }

  // ---------- what it says about every undisturbed run ----------

  /** A state some undisturbed schedule leads to. */
  ghost predicate SoundlyReachable(s: Sys) {
    exists attesting, store, submitted, dropped, setup, steps ::
      && GoodStart(attesting, store, submitted, dropped)
      && UndisturbedRun(Begin(attesting, store, submitted, dropped, setup), steps)
      && s == Exec(Begin(attesting, store, submitted, dropped, setup), steps)
  }

  lemma SoundlyReachableSound(s: Sys)
    requires SoundlyReachable(s)
    ensures Base(s) && Sound(s) && !s.log.lost
  {
    var attesting, store, submitted, dropped, setup, steps :|
      GoodStart(attesting, store, submitted, dropped)
      && UndisturbedRun(Begin(attesting, store, submitted, dropped, setup), steps)
      && s == Exec(Begin(attesting, store, submitted, dropped, setup), steps);
    var s0 := Begin(attesting, store, submitted, dropped, setup);
    BeginTidy(attesting, store, submitted, dropped, setup);
    RunKeepsBase(s0, steps);
    assert Sound(s0);
    RunKeepsSoundExactly(s0, steps);
  }

  /** Clean runs are among them, and so are honest ones. */
  lemma CleanlyIsSoundly(s: Sys)
    requires CleanlyReachable(s)
    ensures SoundlyReachable(s)
  {
    var attesting, store, submitted, dropped, setup, steps :|
      GoodStart(attesting, store, submitted, dropped)
      && CleanRun(Begin(attesting, store, submitted, dropped, setup), steps)
      && s == Exec(Begin(attesting, store, submitted, dropped, setup), steps);
    BeginTidy(attesting, store, submitted, dropped, setup);
    CleanIsUndisturbed(Begin(attesting, store, submitted, dropped, setup), steps);
  }

  /** Queue shape: an attested prefix, then submitted transactions only. */
  lemma QueueIsShaped(s: Sys)
    requires SoundlyReachable(s)
    ensures var n := Front(s.store.queue);
      AttestedUpTo(s.store.queue, n) && forall i :: n <= i < |s.store.queue| ==> s.store.queue[i].state == Submitted
  {
    SoundlyReachableSound(s);
  }

  /** The attestation service only ever judges a queued, submitted transaction with nothing but
      attested ones before it; so its one look at the state is enough, and it never misses a
      transaction it has to find. */
  lemma AttestationIsSound(s: Sys)
    requires SoundlyReachable(s)
    ensures s.att.At? ==>
      var p := Position(s.store.queue, s.att.entry.key);
      Frontier(s.store.queue, p) && s.store.queue[p] == s.att.entry
    ensures s.att.Fetching? && !s.att.first ==> Get(s.store.queue, s.att.key).Found?
    ensures !s.log.lost
  {
    SoundlyReachableSound(s);
  }

  /** Judging a transaction neither removes nor moves an attested one, and does exactly one of
      two things to the rest: the first submitted transaction becomes attested or goes. */
  lemma JudgingTouchesOnlyTheFrontier(s: Sys, accept: bool, recorded: bool)
    requires SoundlyReachable(s) && s.att.At?
    ensures var q, p := s.store.queue, Front(s.store.queue);
      && Frontier(q, p) && q[p] == s.att.entry
      && Judge(s, s.att.entry, s.att.next, accept, recorded).store.queue
           == if accept then q[p := q[p].(state := Attested)] else q[..p] + q[p + 1..]
  {
    SoundlyReachableSound(s);
    SoundJudgement(s, accept, recorded);
  }
}
