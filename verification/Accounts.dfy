/** When exactly the accounts of submitted transactions stay in order.  The data service looks
    neither into a certificate nor at its history when a transaction is submitted, so this depends
    on the submitters; each step either keeps the accounts or breaks them for a reason that shows
    before it is taken. */
module Accounts {
  import opened Ids
  import opened Ledger
  import opened Canonization
  import opened QueueShape
  import opened Protocol
  import opened Conversation
  import opened Safety

  /** The canonized ids followed by the queued ids. */
  function AllIds(store: Store): seq<Uuid> {
    CertIds(History(store.chain)) + Keys(store.queue)
  }

  /** They are the submitted ids minus the dropped ones, in order, and none occurs twice. */
  predicate Accounted(s: Sys) {
    AllIds(s.store) == Kept(s.log.submitted, s.log.dropped) && Distinct(AllIds(s.store))
  }

  predicate InOrder(s: Sys) {
    Conserved(s.store, s.log.submitted, s.log.dropped)
  }

  lemma InOrderAccounts(s: Sys)
    requires InOrder(s)
    ensures Accounted(s)
  {
    KeptDistinct(s.log.submitted, s.log.dropped);
  }

  // ---------- submissions ----------

  /** A new id keeps both clauses, a dropped id breaks the equation, and a canonized one keeps the
      equation but comes twice. */
  lemma SubmissionKeepsOrderExactly(store: Store, submitted: seq<Uuid>, dropped: set<Uuid>, e: Entry)
    requires Conserved(store, submitted, dropped)
    ensures var t := store.(queue := store.queue + [e]);
      && (AllIds(t) == Kept(submitted + [e.key], dropped) <==> e.key !in dropped)
      && (Distinct(AllIds(t)) <==> e.key !in AllIds(store))
      && (AllIds(t) == Kept(submitted + [e.key], dropped) && Distinct(AllIds(t)) <==> e.key !in submitted)
  {
    var all := AllIds(store);
    KeysAppend(store.queue, [e]);
    assert Keys([e]) == [e.key];
    Associate(CertIds(History(store.chain)), Keys(store.queue), [e.key]);
    KeptAppend(submitted, [e.key], dropped);
    assert |Kept([e.key], dropped)| == if e.key in dropped then 0 else 1;
    KeptDistinct(submitted, dropped);
    KeptMembers(submitted, dropped, e.key);
    DistinctSnoc(all, e.key);
  }

  lemma SubmissionStep(s: Sys, key: Uuid, artifact: Uuid, cert: Certificate)
    requires InOrder(s)
    ensures var t := Enter(s, key, artifact, cert);
      Accounted(t) <==> (Submittable(s.store.queue, key) ==> key !in s.log.submitted)
    ensures var t := Enter(s, key, artifact, cert);
      (Submittable(s.store.queue, key) ==> key !in s.log.submitted) ==> InOrder(t)
  {
    var e := Entry(key, artifact, cert, EntryState(s.attesting));
    if Submittable(s.store.queue, key) {
      SubmissionKeepsOrderExactly(s.store, s.log.submitted, s.log.dropped, e);
      if key !in s.log.submitted {
        SubmitConserves(s.store, s.log.submitted, s.log.dropped, e);
      }
    } else {
      assert s.log.submitted + [] == s.log.submitted;
      InOrderAccounts(s);
    }
  }

  // ---------- block writes ----------

  /** An accepted block keeps the equation exactly when its certificates name the first keys of
      the queue, in order. */
  lemma WriteKeepsOrderExactly(s: Store, id: Uuid, b: BlockCert)
    requires Accepts(s, id, b) && Distinct(Keys(s.queue))
    ensures AllIds(Write(s, id, b)) == AllIds(s) <==> CertIds(b.certs) <= Keys(s.queue)
  {
    var h, c, q' := CertIds(History(s.chain)), CertIds(b.certs), Keys(Write(s, id, b).queue);
    HistoryAppend(s.chain, BlockOf(b));
    CertIdsAppend(History(s.chain), b.certs);
    Associate(h, c, q');
    assert AllIds(Write(s, id, b)) == h + (c + q');
    if AllIds(Write(s, id, b)) == AllIds(s) {
      SamePrefix(h, c + q', Keys(s.queue));
    }
    if c <= Keys(s.queue) {
      var n := |c|;
      PrefixKeys(s.queue, n);
      PrefixWrite(s, id, b);
      assert s.queue == s.queue[..n] + s.queue[n..];
      KeysAppend(s.queue[..n], s.queue[n..]);
    }
  }

  lemma SamePrefix(h: seq<Uuid>, a: seq<Uuid>, b: seq<Uuid>)
    requires h + a == h + b
    ensures a == b
  {
    assert |a| == |b|;
    forall i | 0 <= i < |a| ensures a[i] == b[i] {
      assert (h + a)[|h| + i] == a[i] && (h + b)[|h| + i] == b[i];
    }
  }

  /** In terms of the transactions a block was made from: their certificates must name them. */
  lemma TakenKeepsOrderExactly(s: Store, id: Uuid, b: BlockCert, n: nat)
    requires Accepts(s, id, b) && Distinct(Keys(s.queue)) && n <= |s.queue| && b.certs == CertsOf(s.queue[..n])
    ensures AllIds(Write(s, id, b)) == AllIds(s) <==> CertIds(b.certs) == Keys(s.queue[..n])
  {
    WriteKeepsOrderExactly(s, id, b);
    PrefixKeys(s.queue, n);
  }

  lemma WriteStep(s: Sys, i: nat, choice: Choice)
    requires InOrder(s) && i < |s.asked|
    ensures Accounted(Serve(s, i, choice)) <==> CleanServe(s, i, choice)
    ensures CleanServe(s, i, choice) ==> InOrder(Serve(s, i, choice))
  {
    ServeAccounts(s, i, choice);
    InOrderAccounts(s);
    if Writes(s, i, choice) {
      var id, b := s.asked[i].request.id, s.asked[i].request.cert;
      ConservedFacts(s.store, s.log.submitted, s.log.dropped);
      WriteKeepsOrderExactly(s.store, id, b);
      KeptDistinct(s.log.submitted, s.log.dropped);
    }
  }

  /** Serving changes the store only by an accepted block, and never the lists of ids. */
  lemma ServeAccounts(s: Sys, i: nat, choice: Choice)
    requires i < |s.asked|
    ensures var t := Serve(s, i, choice);
      && t.log.submitted == s.log.submitted && t.log.dropped == s.log.dropped
      && t.store ==
           if Writes(s, i, choice) then Write(s.store, s.asked[i].request.id, s.asked[i].request.cert) else s.store
  {
    if IsWrite(s.asked[i]) {
      ServeWrites(s, i, choice);
    } else {
      ServeReads(s, i, choice);
    }
  }

  // ---------- every step ----------

  /** Each step keeps the accounts exactly when it is clean. */
  lemma StepKeepsOrderExactly(s: Sys, step: Step)
    requires InOrder(s) && Enabled(s, step)
    ensures Accounted(Apply(s, step)) <==> CleanStep(s, step)
    ensures CleanStep(s, step) ==> InOrder(Apply(s, step))
  {
    if step.Submitting? {
      SubmissionStep(s, step.key, step.artifact, step.cert);
    } else if step.Serving? {
      WriteStep(s, step.i, step.choice);
    } else if step.Judging? {
      JudgeAccounts(s, step.accept, step.recorded);
      InOrderAccounts(Apply(s, step));
    } else {
      OtherAccounts(s, step);
      InOrderAccounts(Apply(s, step));
    }
  }

  lemma OtherAccounts(s: Sys, step: Step)
    requires InOrder(s) && Enabled(s, step) && !step.Submitting? && !step.Serving? && !step.Judging?
    ensures InOrder(Apply(s, step))
  {
    if step.Delivering? {
      DeliverAccounts(s, step.i, step.f, step.sig);
    } else if step.Reading? {
      ReadAccounts(s, s.att.key, s.att.first);
    }
  }

  lemma DeliverAccounts(s: Sys, i: nat, f: Faults, sig: seq<byte>)
    requires i < |s.answered|
    ensures var t := Deliver(s, i, f, sig);
      t.store == s.store && t.log.submitted == s.log.submitted && t.log.dropped == s.log.dropped
  {}

  lemma ReadAccounts(s: Sys, key: Uuid, first: bool)
    ensures var t := Read(s, key, first);
      t.store == s.store && t.log.submitted == s.log.submitted && t.log.dropped == s.log.dropped
  {}

  lemma JudgeAccounts(s: Sys, accept: bool, recorded: bool)
    requires InOrder(s) && s.att.At?
    ensures InOrder(Judge(s, s.att.entry, s.att.next, accept, recorded))
  {
    var q, key := s.store.queue, s.att.entry.key;
    ConservedFacts(s.store, s.log.submitted, s.log.dropped);
    if accept {
      assert Keys(Promote(q, key)) == Keys(q);
    } else if key in Keys(q) {
      DropConserves(s.store, s.log.submitted, s.log.dropped, Position(q, key));
    } else {
      assert s.log.dropped + {} == s.log.dropped;
    }
  }

  // ---------- every run ----------

  /** The accounts are in order at every point of a schedule. */
  predicate AccountedRun(s: Sys, steps: seq<Step>)
    decreases |steps|
  {
    Accounted(Exec(s, steps)) && (steps == [] || AccountedRun(s, steps[..|steps| - 1]))
  }

  /** Conservation and order, whoever submits what: a run accounts for every transaction at every
      point exactly when every step of it is clean. */
  lemma {:induction false} RunKeepsOrderExactly(s: Sys, steps: seq<Step>)
    requires InOrder(s)
    ensures AccountedRun(s, steps) <==> CleanRun(s, steps)
    ensures CleanRun(s, steps) ==> InOrder(Exec(s, steps))
    decreases |steps|
  {
    if steps == [] {
      InOrderAccounts(s);
    } else {
      var n := |steps| - 1;
      RunKeepsOrderExactly(s, steps[..n]);
      var t := Exec(s, steps[..n]);
      if CleanRun(s, steps[..n]) {
        if Enabled(t, steps[n]) {
          StepKeepsOrderExactly(t, steps[n]);
        } else {
          InOrderAccounts(t);
        }
      }
    }
  }

  // ---------- inputs that break the accounts ----------

  /** A certificate that names another queued transaction: the block made from the first of two
      transactions is accepted, takes the second one out of the queue unattested, and leaves the
      first one there. */
  lemma DisagreeingCertificate(a: Entry, b: Entry, id: Uuid, sig: seq<byte>)
    requires a.key != b.key && !Sentinel(a.key) && !Sentinel(b.key) && SaneBlockId(id)
    requires a.state == Attested && b.state == Submitted
    requires a.cert.Complete() && a.cert.id.value == b.key && a.cert.prev.value == Zero
    ensures var s := Store([a, b], []);
      var blk := BlockCert(Some(id), Some(Root), Some(1), ZeroSignature(), [a.cert], Some(sig), Some([]), Some(0));
      && Conserved(s, [a.key, b.key], {})
      && Accepts(s, id, blk)
      && Write(s, id, blk).queue == [a]
      && AllIds(Write(s, id, blk)) == [b.key, a.key]
      && AllIds(Write(s, id, blk)) != Kept([a.key, b.key], {})
  {
    var s := Store([a, b], []);
    var blk := BlockCert(Some(id), Some(Root), Some(1), ZeroSignature(), [a.cert], Some(sig), Some([]), Some(0));
    TwoConserved(a, b);
    assert Keys(s.queue)[1] == b.key;
    OneCertificate(s, id, blk, b.key);
    SecondTaken(a, b, id, blk);
    assert [b.key, a.key][0] != [a.key, b.key][0];
  }

  lemma SecondTaken(a: Entry, b: Entry, id: Uuid, blk: BlockCert)
    requires Accepts(Store([a, b], []), id, blk) && blk.certs == [a.cert] && a.cert.id == Some(b.key) && a.key != b.key
    ensures var t := Write(Store([a, b], []), id, blk); t.queue == [a] && AllIds(t) == [b.key, a.key]
  {
    assert CertIds(blk.certs) == [b.key];
    assert IdSet(blk.certs) == {b.key};
    WithoutSecond(a, b);
    assert [] + [BlockOf(blk)] == [BlockOf(blk)];
    SwappedIds(Store([a], [BlockOf(blk)]), a, b.key);
  }

  lemma TwoConserved(a: Entry, b: Entry)
    requires a.key != b.key && !Sentinel(a.key) && !Sentinel(b.key)
    ensures Conserved(Store([a, b], []), [a.key, b.key], {}) && Kept([a.key, b.key], {}) == [a.key, b.key]
  {
    KeptAll([a.key, b.key], {});
    assert CertIds(History([])) + Keys([a, b]) == [a.key, b.key];
  }

  lemma SwappedIds(s: Store, a: Entry, key: Uuid)
    requires s.queue == [a] && |s.chain| == 1 && s.chain[0].certs == [a.cert] && a.cert.id == Some(key)
    ensures AllIds(s) == [key, a.key]
  {
    HistoryAppend([], s.chain[0]);
    assert [] + [s.chain[0]] == s.chain;
    assert History([]) + [a.cert] == [a.cert];
  }

  /** A block of one certificate over an empty chain. */
  lemma OneCertificate(s: Store, id: Uuid, blk: BlockCert, key: Uuid)
    requires s.chain == [] && SaneBlockId(id) && key in Keys(s.queue)
    requires blk.height == Some(1) && blk.prev == Some(Root) && blk.id == Some(id) && |blk.certs| == 1
    requires blk.certs[0].Complete() && blk.certs[0].id.value == key && blk.certs[0].prev.value == Zero
    ensures Accepts(s, id, blk)
  {
    assert IdSet(History(s.chain)) == {};
    assert PrevKnown({}, blk.certs, 0);
    assert key in KeySet(s.queue);
  }

  lemma WithoutSecond(a: Entry, b: Entry)
    requires a.key != b.key
    ensures Without([a, b], {b.key}) == [a]
  {
    assert [a, b][1..] == [b] && [b][1..] == [];
    assert Without([b], {b.key}) == [];
  }

  /** An id that is in the chain can be queued again, and then it is there twice. */
  lemma CanonizedAgain(s: Sys, artifact: Uuid, cert: Certificate, key: Uuid)
    requires InOrder(s) && key in CertIds(History(s.store.chain))
    ensures var t := Enter(s, key, artifact, cert);
      && key in Keys(t.store.queue) && key in CertIds(History(t.store.chain))
      && AllIds(t.store) == Kept(t.log.submitted, t.log.dropped)
      && !Distinct(AllIds(t.store))
  {
    var h, q := CertIds(History(s.store.chain)), s.store.queue;
    var e := Entry(key, artifact, cert, EntryState(s.attesting));
    KeptDistinct(s.log.submitted, s.log.dropped);
    DistinctParts(h, Keys(q));
    KeptMembers(s.log.submitted, s.log.dropped, key);
    assert key in AllIds(s.store);
    SubmissionKeepsOrderExactly(s.store, s.log.submitted, s.log.dropped, e);
    assert Keys(q + [e])[|q|] == key;
  }
}
