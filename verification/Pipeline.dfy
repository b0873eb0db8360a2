/** From submission to chain.  A round of the attestation service is a run of the protocol, and so
    are the rounds of the canonization service after it. */
module Pipeline {
  import opened Ids
  import opened Ledger
  import opened Canonization
  import opened QueueShape
  import opened Protocol
  import opened Conversation
  import opened Safety
  import opened Database
  import opened Attestation
  import opened Rounds

  // ---------- an attestation round is a run ----------

  /** The system once an attestation round has ended: the ids that left the queue are logged. */
  function Rounded(s: Sys, o: Outcome): Sys {
    WithQueue(s, o.queue).(
      att := if o.ok then Asleep else Stopped,
      log := s.log.(dropped := s.log.dropped + (KeySet(s.store.queue) - KeySet(o.queue))))
  }

  lemma RemovedKeys(q: seq<Entry>, p: nat)
    requires Distinct(Keys(q)) && p < |q|
    ensures KeySet(RemoveAt(q, p)) == KeySet(q) - {q[p].key}
  {
    var r := RemoveAt(q, p);
    forall k ensures k in Keys(r) <==> k in Keys(q) && k != q[p].key {
      if k in Keys(r) {
        var i :| 0 <= i < |r| && Keys(r)[i] == k;
        var j := if i < p then i else i + 1;
        assert r[i] == q[j] && Keys(q)[j] == k && Keys(q)[p] == q[p].key;
      }
      if k in Keys(q) && k != q[p].key {
        var j :| 0 <= j < |q| && Keys(q)[j] == k;
        var i := if j < p then j else j - 1;
        assert r[i] == q[j] && Keys(r)[i] == k;
      }
    }
  }

  /** The queue after the decision on position `p`. */
  function DecidedQueue(q: seq<Entry>, p: nat, accept: bool): seq<Entry>
    requires p < |q|
  {
    if accept then PromotedAt(q, p) else RemoveAt(q, p)
  }

  lemma DecidedFacts(q: seq<Entry>, p: nat, accept: bool)
    requires Plain(q) && p < |q|
    ensures var q' := DecidedQueue(q, p, accept);
      && Plain(q')
      && KeySet(q') == KeySet(q) - (if accept then {} else {q[p].key})
      && q' == if accept then Promote(q, q[p].key) else Drop(q, q[p].key)
  {
    PositionAt(q, p);
    if accept {
      PromotePlain(q, q[p].key);
    } else {
      RemovePlain(q, p);
      RemovedKeys(q, p);
    }
  }

  /** The memory after the decision on position `p`, if the round goes on. */
  function DecidedMemory(q: seq<Entry>, p: nat, m: Memory, db: Db, v: Verifiers): Option<Memory>
    requires p < |q|
  {
    if v.Accept(m, db, q[p]) then Remembered(m, db.artifacts, q[p], PrevKey(q, p)) else Some(m)
  }

  /** One turn: it dies, or goes on from the queue and the memory it has decided on. */
  lemma OneTurn(q: seq<Entry>, p: nat, m: Memory, db: Db, v: Verifiers)
    requires p < |q| && q[p].cert.bytes != []
    ensures var o, accept := AttestFrom(q, p, m, db, v), v.Accept(m, db, q[p]);
      var q', p' := DecidedQueue(q, p, accept), if accept then p + 1 else p;
      && p' <= |q'| && |q'| - p' == |q| - p - 1 && (p + 1 < |q| ==> q'[p'] == q[p + 1])
      && match DecidedMemory(q, p, m, db, v)
         case None => !o.ok && o.queue == q'
         case Some(m') => AttestFrom(q', p', m', db, v) == o
  {
    var accept, next := v.Accept(m, db, q[p]), DecidedMemory(q, p, m, db, v);
    Decided(q, p, m, db, v, next.Some?, DecidedQueue(q, p, accept), if next.Some? then next.value else m);
  }

  /** A round never adds a transaction. */
  lemma {:induction false} AttestKeys(q: seq<Entry>, p: nat, m: Memory, db: Db, v: Verifiers)
    requires Plain(q) && p <= |q|
    ensures KeySet(AttestFrom(q, p, m, db, v).queue) <= KeySet(q)
    decreases |q| - p
  {
    if p < |q| && q[p].cert.bytes != [] {
      var accept, next := v.Accept(m, db, q[p]), DecidedMemory(q, p, m, db, v);
      DecidedFacts(q, p, accept);
      OneTurn(q, p, m, db, v);
      if next.Some? {
        AttestKeys(DecidedQueue(q, p, accept), if accept then p + 1 else p, next.value, db, v);
      }
    }
  }

  /** Judging position `p` is the decision on it, and the service looks for the next node. */
  lemma JudgeIs(s: Sys, p: nat, accept: bool, recorded: bool)
    requires Plain(s.store.queue) && p < |s.store.queue|
    ensures var q := s.store.queue;
      Judge(s, q[p], NextKey(q, p), accept, recorded) ==
        WithQueue(s, DecidedQueue(q, p, accept)).(
          att := if accept && !recorded then Stopped
                 else if p + 1 == |q| then Asleep else Fetching(q[p + 1].key, false),
          log := s.log.(dropped := s.log.dropped + if accept then {} else {q[p].key}))
  {
    PositionAt(s.store.queue, p);
    DecidedFacts(s.store.queue, p, accept);
  }

  /** Reading position `p` when it is its turn. */
  lemma ReadIs(s: Sys, p: nat)
    requires Plain(s.store.queue) && p < |s.store.queue|
    ensures var q := s.store.queue;
      Read(s, q[p].key, false) == s.(att := if q[p].cert.bytes == [] then Stopped else At(q[p], NextKey(q, p)))
  {
    PositionAt(s.store.queue, p);
  }

  lemma RoundedTwice(s: Sys, t: Sys, o: Outcome)
    requires t == WithQueue(s, t.store.queue).(att := t.att, log := s.log.(dropped := t.log.dropped))
    requires t.log.dropped == s.log.dropped + (KeySet(s.store.queue) - KeySet(t.store.queue))
    requires KeySet(o.queue) <= KeySet(t.store.queue) <= KeySet(s.store.queue)
    ensures Rounded(t, o) == Rounded(s, o)
  {
    assert t.log.dropped + (KeySet(t.store.queue) - KeySet(o.queue))
        == s.log.dropped + (KeySet(s.store.queue) - KeySet(o.queue));
  }

  /** The loop of the round, with the node at position `p` in hand. */
  lemma {:induction false} LoopIsARun(s: Sys, p: nat, m: Memory, db: Db, v: Verifiers) returns (steps: seq<Step>)
    requires Plain(s.store.queue) && p < |s.store.queue| && s.store.queue[p].cert.bytes != []
    requires s.att == At(s.store.queue[p], NextKey(s.store.queue, p))
    ensures Exec(s, steps) == Rounded(s, AttestFrom(s.store.queue, p, m, db, v))
    decreases |s.store.queue| - p, 1
  {
    var q := s.store.queue;
    var accept, next := v.Accept(m, db, q[p]), DecidedMemory(q, p, m, db, v);
    OneTurn(q, p, m, db, v);
    var t := JudgeTurn(s, p, accept, next.Some?);
    var rest := [];
    if next.Some? && p + 1 < |q| {
      var p' := if accept then p + 1 else p;
      rest := NextIsARun(t, p', next.value, db, v);
      AttestKeys(t.store.queue, p', next.value, db, v);
      RoundedTwice(s, t, AttestFrom(q, p, m, db, v));
    } else {
      RoundedOnce(s, t, AttestFrom(q, p, m, db, v));
    }
    ExecCons(s, Judging(accept, next.Some?), rest);
    steps := [Judging(accept, next.Some?)] + rest;
  }

  lemma JudgeTurn(s: Sys, p: nat, accept: bool, recorded: bool) returns (t: Sys)
    requires Plain(s.store.queue) && p < |s.store.queue|
    ensures var q := s.store.queue; t == Judge(s, q[p], NextKey(q, p), accept, recorded)
    ensures t == WithQueue(s, DecidedQueue(s.store.queue, p, accept)).(
      att := t.att, log := s.log.(dropped := t.log.dropped))
    ensures t.att == if accept && !recorded then Stopped
                     else if p + 1 == |s.store.queue| then Asleep else Fetching(s.store.queue[p + 1].key, false)
    ensures t.log.dropped == s.log.dropped + (KeySet(s.store.queue) - KeySet(t.store.queue))
    ensures Plain(t.store.queue) && KeySet(t.store.queue) <= KeySet(s.store.queue)
  {
    var q := s.store.queue;
    JudgeIs(s, p, accept, recorded);
    DecidedFacts(q, p, accept);
    assert Keys(q)[p] == q[p].key;
    t := Judge(s, q[p], NextKey(q, p), accept, recorded);
  }

  lemma RoundedOnce(s: Sys, t: Sys, o: Outcome)
    requires t == WithQueue(s, o.queue).(
      att := if o.ok then Asleep else Stopped, log := s.log.(dropped := t.log.dropped))
    requires t.log.dropped == s.log.dropped + (KeySet(s.store.queue) - KeySet(o.queue))
    ensures t == Rounded(s, o)
  {}

  /** The loop, with the node at position `p` still to be read. */
  lemma {:induction false} NextIsARun(s: Sys, p: nat, m: Memory, db: Db, v: Verifiers) returns (steps: seq<Step>)
    requires Plain(s.store.queue) && p < |s.store.queue| && s.att == Fetching(s.store.queue[p].key, false)
    ensures Exec(s, steps) == Rounded(s, AttestFrom(s.store.queue, p, m, db, v))
    decreases |s.store.queue| - p, 2
  {
    var q := s.store.queue;
    ReadIs(s, p);
    var t := Read(s, q[p].key, false);
    var rest := [];
    if q[p].cert.bytes == [] {
      RoundedOnce(s, t, Outcome(q, m, false));
    } else {
      rest := LoopIsARun(t, p, m, db, v);
    }
    ExecCons(s, Reading, rest);
    steps := [Reading] + rest;
  }

  /** A round of the attestation service over a queue nobody else touches, good or failing, is a
      run of the protocol. */
  lemma RoundIsARun(s: Sys, db: Db, v: Verifiers) returns (steps: seq<Step>)
    requires Plain(s.store.queue) && s.attesting && s.att.Asleep?
    ensures Exec(s, steps) == Rounded(s, AttestRound(s.store.queue, NOTHING, db, v))
  {
    var q := s.store.queue;
    if q == [] {
      steps := [];
      RoundedOnce(s, s, AttestRound(q, NOTHING, db, v));
    } else {
      var t := HeadRead(s);
      var rest := [];
      if t.att.At? {
        rest := LoopIsARun(t, 0, NOTHING, db, v);
      } else {
        RoundedOnce(s, t, AttestRound(q, NOTHING, db, v));
      }
      ExecCons(Wake(s), Reading, rest);
      ExecCons(s, Waking, [Reading] + rest);
      steps := [Waking] + ([Reading] + rest);
    }
  }

  lemma HeadRead(s: Sys) returns (t: Sys)
    requires Plain(s.store.queue) && s.att.Asleep? && s.store.queue != []
    ensures t == Read(Wake(s), s.store.queue[0].key, true)
    ensures var head := s.store.queue[0];
      t == s.(att := if head.cert.bytes == [] then Stopped
                     else if head.state != Submitted then Asleep else At(head, NextKey(s.store.queue, 0)))
  {
    PositionAt(s.store.queue, 0);
    t := Read(Wake(s), s.store.queue[0].key, true);
  }

  // ---------- and so are the rounds after it ----------

  lemma {:induction false} ExecAppend(s: Sys, a: seq<Step>, b: seq<Step>)
    ensures Exec(s, a + b) == Exec(Exec(s, a), b)
    decreases |b|
  {
    if b == [] {
      assert a + b == a;
    } else {
      var n, all := |b| - 1, a + b;
      JoinedLast(a, b);
      ExecAppend(s, a, b[..n]);
      assert Exec(s, all[..|all| - 1]) == Exec(Exec(s, a), b[..n]);
    }
  }

  lemma JoinedLast(a: seq<Step>, b: seq<Step>)
    requires b != []
    ensures var all, n := a + b, |b| - 1;
      all != [] && all[..|all| - 1] == a + b[..n] && all[|all| - 1] == b[n]
  {}

  lemma {:induction false} AfterIsARun(s: Sys, ids: seq<Uuid>, sig: seq<byte>) returns (steps: seq<Step>)
    requires Inv(s) && (s.armed || AtStart(s)) && |sig| == SIGNATURE_SIZE
    ensures Exec(s, steps) == After(s, ids, sig)
    decreases |ids|
  {
    steps := [];
    if ids != [] && !s.armed {
      QuietRound(s, ids[0], sig);
      var t := Finish(s, ids[0], sig);
      var first := FinishIsARun(s, ids[0], sig);
      var rest := AfterIsARun(t, ids[1..], sig);
      ExecAppend(s, first, rest);
      AfterFirst(s, ids, sig);
      steps := first + rest;
    }
  }

  lemma AfterFirst(s: Sys, ids: seq<Uuid>, sig: seq<byte>)
    requires AtStart(s) && |sig| == SIGNATURE_SIZE && ids != []
    requires Inv(Finish(s, ids[0], sig)) && (Finish(s, ids[0], sig).armed || AtStart(Finish(s, ids[0], sig)))
    ensures After(s, ids, sig) == After(Finish(s, ids[0], sig), ids[1..], sig)
  {}

  // ---------- from submission to chain ----------

  lemma {:induction false} RestIsSuffix(es: seq<Entry>, m: Memory, db: Db, v: Verifiers, head: bool)
    ensures var rest := Judged(es, m, db, v, head).rest; |rest| <= |es| && es[|es| - |rest|..] == rest
    decreases |es|
  {
    if es != [] && es[0].cert.bytes != [] {
      if !v.Accept(m, db, es[0]) {
        RestIsSuffix(es[1..], m, db, v, head);
      } else {
        var found := Remembered(m, db.artifacts, es[0], if head then Zero else Ones);
        if found.Some? {
          RestIsSuffix(es[1..], found.value, db, v, false);
        }
      }
    }
  }

  lemma PromotedFacts(es: seq<Entry>, rest: seq<Entry>)
    requires forall i :: 0 <= i < |rest| ==> rest[i].state != Attested
    ensures var q := Promoted(es) + rest;
      && q[..|es|] == Promoted(es) && q[|es|..] == rest && Front(q) == |es|
      && Keys(Promoted(es)) == Keys(es) && Keys(q) == Keys(es) + Keys(rest)
  {
    var q := Promoted(es) + rest;
    FrontAtLeast(q, |es|);
    KeysAppend(Promoted(es), rest);
    assert Keys(Promoted(es)) == Keys(es);
  }

  /** Whether a transaction can be canonized depends on those before it only, and not on states. */
  lemma PromotedDrainable(es: seq<Entry>, rest: seq<Entry>, chain: seq<Block>)
    requires Drainable(Store(es, chain), |es|)
    ensures Drainable(Store(Promoted(es) + rest, chain), |es|)
  {
    var q := Promoted(es) + rest;
    forall i | 0 <= i < |es| ensures Ready(Store(q, chain), i) {
      assert Ready(Store(es, chain), i) && q[i].cert == es[i].cert;
      assert Keys(q[..i + 1]) == Keys(es[..i + 1]);
    }
  }

  /** The head is submitted, and so is everything the round does not come to. */
  lemma RestSubmitted(q: seq<Entry>, rest: seq<Entry>)
    requires Shaped(q) && q != [] && q[0].state == Submitted && |rest| <= |q| && q[|q| - |rest|..] == rest
    ensures forall i :: 0 <= i < |rest| ==> rest[i].state != Attested
  {
    forall i | 0 <= i < |rest| ensures rest[i].state != Attested {
      assert rest[i] == q[|q| - |rest| + i];
    }
  }

  /** What the round makes of a queue of submitted transactions. */
  lemma RoundFacts(s: Sys, db: Db, v: Verifiers)
    requires Inv(s) && s.store.queue != [] && s.store.queue[0].state == Submitted && Keyed(db.artifacts)
    ensures var o, j := AttestRound(s.store.queue, NOTHING, db, v), Judged(s.store.queue, NOTHING, db, v, true);
      && o.queue == Promoted(j.taken) + j.rest
      && (forall i :: 0 <= i < |j.rest| ==> j.rest[i].state != Attested)
      && (o.ok <==> RoundSafe(j.taken, db.artifacts)) && (o.ok ==> j.rest == [])
  {
    var q := s.store.queue;
    EntriesReadable(q);
    RoundResult(q, db, v);
    JudgedAtHead(q, db, v);
    RestOfRound(q, db, v);
  }

  lemma EntriesReadable(q: seq<Entry>)
    requires EntriesOk(q)
    ensures Readable(q) && NoZeroKey(q)
  {
    forall i | 0 <= i < |q| ensures q[i].cert.bytes != [] && q[i].key != Zero {
      assert EntryOk(q[i]);
    }
  }

  lemma RestOfRound(q: seq<Entry>, db: Db, v: Verifiers)
    requires Shaped(q) && q != [] && q[0].state == Submitted
    ensures var rest := Judged(q, NOTHING, db, v, true).rest;
      forall i :: 0 <= i < |rest| ==> rest[i].state != Attested
  {
    RestIsSuffix(q, NOTHING, db, v, true);
    RestSubmitted(q, Judged(q, NOTHING, db, v, true).rest);
  }

  lemma {:induction false} AfterLeaves(s: Sys, ids: seq<Uuid>, sig: seq<byte>)
    requires Inv(s) && (s.armed || AtStart(s)) && |sig| == SIGNATURE_SIZE
    ensures SameLists(s, After(s, ids, sig))
    decreases |ids|
  {
    if ids != [] && !s.armed {
      QuietRound(s, ids[0], sig);
      AfterFirst(s, ids, sig);
      AfterLeaves(Finish(s, ids[0], sig), ids[1..], sig);
    }
  }

  /** The transactions taken have moved to the chain, in order and in as few blocks as the limit
      allows, and the others stay. */
  predicate Emptied(s: Sys, t: Sys, taken: seq<Entry>, rest: seq<Entry>) {
    && s.canon.maxTxns >= 1
    && t.armed && t.store.queue == rest
    && CertIds(History(t.store.chain)) == CertIds(History(s.store.chain)) + Keys(taken)
    && |t.store.chain| == |s.store.chain| + (|taken| + s.canon.maxTxns - 1) / s.canon.maxTxns
  }

  /** After the attestation round: the canonization service drains what was taken. */
  lemma TakenIsDrained(s: Sys, taken: seq<Entry>, rest: seq<Entry>, ids: seq<Uuid>, sig: seq<byte>)
    returns (steps: seq<Step>)
    requires AtStart(s) && |sig| == SIGNATURE_SIZE && s.canon.maxTxns >= 1 && s.store.queue == Promoted(taken) + rest
    requires forall i :: 0 <= i < |rest| ==> rest[i].state != Attested
    requires Drainable(Store(taken, s.store.chain), |taken|) && FreshIds(s.store.chain, ids)
    requires |ids| > |taken| / s.canon.maxTxns
    ensures SameLists(s, Exec(s, steps)) && Emptied(s, Exec(s, steps), taken, rest)
  {
    PromotedFacts(taken, rest);
    PromotedDrainable(taken, rest, s.store.chain);
    assert s.store == Store(Promoted(taken) + rest, s.store.chain);
    Drain(s, ids, sig);
    AfterLeaves(s, ids, sig);
    steps := AfterIsARun(s, ids, sig);
  }

  /** From a queue of submitted transactions, one schedule attests and drains it.  The chain grows
      by exactly the transactions the round takes, in submission order and in as few blocks as the
      limit allows; the ids it rejects are dropped; what it does not come to stays in the queue.
      The attestation service survives exactly when the round is safe, and then nothing stays. */
  lemma SubmittedToCanonized(s: Sys, db: Db, v: Verifiers, ids: seq<Uuid>, sig: seq<byte>) returns (steps: seq<Step>)
    requires AtStart(s) && s.attesting && s.att.Asleep? && |sig| == SIGNATURE_SIZE && s.canon.maxTxns >= 1
    requires s.store.queue != [] && s.store.queue[0].state == Submitted && Keyed(db.artifacts)
    requires var taken := Judged(s.store.queue, NOTHING, db, v, true).taken;
      && Drainable(Store(taken, s.store.chain), |taken|) && FreshIds(s.store.chain, ids)
      && |ids| > |taken| / s.canon.maxTxns
    ensures var t, j := Exec(s, steps), Judged(s.store.queue, NOTHING, db, v, true);
      && Emptied(s, t, j.taken, j.rest)
      && t.log.submitted == s.log.submitted
      && t.log.dropped == s.log.dropped + (KeySet(s.store.queue) - KeySet(j.taken) - KeySet(j.rest))
      && (t.att.Asleep? <==> RoundSafe(j.taken, db.artifacts))
      && (t.att.Asleep? ==> j.rest == [])
  {
    var j := Judged(s.store.queue, NOTHING, db, v, true);
    RoundFacts(s, db, v);
    var u, first := AttestsFirst(s, db, v);
    DroppedExactly(s.store.queue, j.taken, j.rest);
    var rest := TakenIsDrained(u, j.taken, j.rest, ids, sig);
    ExecAppend(s, first, rest);
    steps := first + rest;
    EmptiedFrom(s, u, Exec(s, steps), j);
  }

  lemma EmptiedFrom(s: Sys, u: Sys, t: Sys, j: Verdict)
    requires u.store.chain == s.store.chain && u.canon == s.canon && Emptied(u, t, j.taken, j.rest)
    ensures Emptied(s, t, j.taken, j.rest)
  {}

  lemma AttestsFirst(s: Sys, db: Db, v: Verifiers) returns (u: Sys, steps: seq<Step>)
    requires AtStart(s) && s.attesting && s.att.Asleep?
    ensures u == Exec(s, steps) == Rounded(s, AttestRound(s.store.queue, NOTHING, db, v)) && AtStart(u)
  {
    steps := RoundIsARun(s, db, v);
    u := Rounded(s, AttestRound(s.store.queue, NOTHING, db, v));
    RunKeepsInv(s, steps);
  }

  lemma DroppedExactly(q: seq<Entry>, taken: seq<Entry>, rest: seq<Entry>)
    requires forall i :: 0 <= i < |rest| ==> rest[i].state != Attested
    ensures KeySet(q) - KeySet(Promoted(taken) + rest) == KeySet(q) - KeySet(taken) - KeySet(rest)
  {
    PromotedFacts(taken, rest);
    var all := Promoted(taken) + rest;
    assert forall k :: k in Keys(all) <==> k in Keys(taken) || k in Keys(rest);
  }
}
