/** When exactly the queue stays an attested prefix followed by submitted transactions.  Nothing but
    the order of steps ensures it, so this too depends on the submitters. */
module Turns {
  import opened Ids
  import opened Ledger
  import opened Canonization
  import opened QueueShape
  import opened Protocol
  import opened Conversation
  import opened Safety
  import opened Accounts

  /** A promotion keeps the queue an attested prefix and a submitted suffix exactly when nothing
      before the promoted transaction is unattested; a drop keeps it in any case. */
  lemma {:induction false} JudgingKeepsShapeExactly(q: seq<Entry>, p: nat)
    requires Shaped(q) && Distinct(Keys(q)) && p < |q|
    ensures Shaped(Promote(q, q[p].key)) <==> AttestedUpTo(q, p)
    ensures Shaped(Drop(q, q[p].key))
  {
    PositionAt(q, p);
    PromotedShape(q, p);
    RemovedShape(q, p);
  }

  lemma {:induction false} PromotedShape(q: seq<Entry>, p: nat)
    requires Shaped(q) && p < |q|
    ensures Shaped(q[p := q[p].(state := Attested)]) <==> AttestedUpTo(q, p)
  {
    var q' := q[p := q[p].(state := Attested)];
    assert forall i :: 0 <= i < |q| && i != p ==> q'[i] == q[i];
    if Shaped(q') {
      forall i | 0 <= i < p ensures q[i].state == Attested {
        assert q'[p].state == Attested && q'[i] == q[i];
      }
    }
  }

  lemma {:induction false} RemovedShape(q: seq<Entry>, p: nat)
    requires Shaped(q) && p < |q|
    ensures Shaped(RemoveAt(q, p))
  {
    var r := RemoveAt(q, p);
    forall i, j | 0 <= i < j < |r| && r[j].state == Attested ensures r[i].state == Attested {
      assert r[i] == q[if i < p then i else i + 1] && r[j] == q[if j < p then j else j + 1];
    }
  }

  lemma {:induction false} WithoutShape(q: seq<Entry>, gone: set<Uuid>)
    requires Shaped(q)
    ensures Shaped(Without(q, gone))
    decreases |q|
  {
    if q != [] {
      WithoutShape(q[1..], gone);
      if q[0].key !in gone {
        HeadShape(q, Without(q[1..], gone), gone);
      }
    }
  }

  lemma HeadShape(q: seq<Entry>, w: seq<Entry>, gone: set<Uuid>)
    requires q != [] && Shaped(q) && Shaped(w) && w == Without(q[1..], gone)
    ensures Shaped([q[0]] + w)
  {
    forall j | 0 <= j < |w| && w[j].state == Attested ensures q[0].state == Attested {
      WithoutMembers(q[1..], gone, w[j]);
      var k :| 0 <= k < |q| - 1 && q[1..][k] == w[j];
      assert q[k + 1] == w[j];
    }
  }

  /** A step that keeps the shape, told from the state before it: without attestation nothing
      unattested is ahead of a submission, and nothing unattested is ahead of what is promoted. */
  predicate InTurn(s: Sys, step: Step)
    requires Enabled(s, step)
  {
    var q := s.store.queue;
    match step
    case Submitting(key, _, _) => Submittable(q, key) ==> s.attesting || AttestedUpTo(q, |q|)
    case Judging(accept, _) =>
      var key := s.att.entry.key;
      accept && key in Keys(q) ==> AttestedUpTo(q, Position(q, key))
    case _ => true
  }

  /** Each step keeps the shape exactly when it is in turn, whoever submitted what. */
  lemma StepKeepsShapeExactly(s: Sys, step: Step)
    requires Base(s) && Shaped(s.store.queue) && Enabled(s, step)
    ensures Shaped(Apply(s, step).store.queue) <==> InTurn(s, step)
  {
    var q := s.store.queue;
    if step.Submitting? {
      SubmitShape(q, Entry(step.key, step.artifact, step.cert, EntryState(s.attesting)));
    } else if step.Judging? {
      var p := Position(q, s.att.entry.key);
      if p < |q| {
        JudgingKeepsShapeExactly(q, p);
      }
    } else {
      OthersKeepShape(s, step);
    }
  }

  lemma OthersKeepShape(s: Sys, step: Step)
    requires Shaped(s.store.queue) && Enabled(s, step) && !step.Submitting? && !step.Judging?
    ensures Shaped(Apply(s, step).store.queue)
  {
    if step.Serving? {
      ServeAccounts(s, step.i, step.choice);
      if Writes(s, step.i, step.choice) {
        WithoutShape(s.store.queue, IdSet(s.asked[step.i].request.cert.certs));
      }
    } else if step.Delivering? {
      DeliverAccounts(s, step.i, step.f, step.sig);
    } else if step.Reading? {
      ReadAccounts(s, s.att.key, s.att.first);
    }
  }

  /** Every step of a schedule is in turn in the state the steps before it lead to. */
  predicate InTurnRun(s: Sys, steps: seq<Step>)
    decreases |steps|
  {
    steps == [] ||
    (var n := |steps| - 1;
     var t := Exec(s, steps[..n]);
     InTurnRun(s, steps[..n]) && (Enabled(t, steps[n]) ==> InTurn(t, steps[n])))
  }

  /** The queue is an attested prefix and a submitted suffix at every point of a schedule. */
  predicate ShapedRun(s: Sys, steps: seq<Step>)
    decreases |steps|
  {
    Shaped(Exec(s, steps).store.queue) && (steps == [] || ShapedRun(s, steps[..|steps| - 1]))
  }

  /** The shape of the queue, whoever submits what: it is there at every point of a run exactly
      when every step of the run is in turn. */
  lemma {:induction false} RunKeepsShapeExactly(s: Sys, steps: seq<Step>)
    requires Base(s) && Shaped(s.store.queue)
    ensures ShapedRun(s, steps) <==> InTurnRun(s, steps)
    decreases |steps|
  {
    if steps != [] {
      var n := |steps| - 1;
      RunKeepsShapeExactly(s, steps[..n]);
      RunKeepsBase(s, steps[..n]);
      var t := Exec(s, steps[..n]);
      if ShapedRun(s, steps[..n]) && Enabled(t, steps[n]) {
        StepKeepsShapeExactly(t, steps[n]);
      }
    }
  }

  /** A clean run is in turn. */
  lemma {:induction false} CleanIsInTurn(s: Sys, steps: seq<Step>)
    requires Tidy(s) && CleanRun(s, steps)
    ensures InTurnRun(s, steps)
    decreases |steps|
  {
    CleanShaped(s, steps);
    RunKeepsShapeExactly(s, steps);
  }

  lemma {:induction false} CleanShaped(s: Sys, steps: seq<Step>)
    requires Tidy(s) && CleanRun(s, steps)
    ensures ShapedRun(s, steps)
    decreases |steps|
  {
    RunKeepsTidy(s, steps);
    if steps != [] {
      CleanShaped(s, steps[..|steps| - 1]);
    }
  }
}
