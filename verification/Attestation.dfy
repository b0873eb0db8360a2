/** The attestation round: which transactions it promotes and drops, what its memory of the
    round says about artifacts, and when it fails.  Attestor.dfy holds the class that does it. */
module Attestation {
  import opened Ids
  import opened Ledger
  import opened ProcessQueue
  import opened Database
  import opened QueueShape

  /** What the service remembers of a round: the promoted transactions and, over the artifact
      table of the database, the artifacts they touched. */
  datatype Memory = Memory(txns: map<Uuid, Entry>, artifacts: Artifacts)

  const NOTHING := Memory(map[], map[])

  /** The tables a verifier can ask the data service about. */
  datatype Db = Db(artifacts: Artifacts, txns: Table, blocks: Blocks)

  /** The three verifiers: each may look at the memory of the round and at the database. */
  datatype Verifiers = Verifiers(
    fields: (Memory, Db, Entry) -> bool,
    sequence: (Memory, Db, Entry) -> bool,
    unique: (Memory, Db, Entry) -> bool)
  {
    predicate Accept(m: Memory, db: Db, e: Entry) {
      fields(m, db, e) && sequence(m, db, e) && unique(m, db, e)
    }
  }

  /** The number that stands for a transaction's state in a node. */
  function Code(s: TxnState): nat {
    match s
    case Unknown => 0
    case Submitted => 1
    case Attested => 2
    case Canonized => 3
  }

  /** The artifact record the service goes by: the round's own, or else the database's. */
  function Known(m: Memory, db: Artifacts, a: Uuid): Option<ArtifactRecord> {
    if a in m.artifacts then Some(m.artifacts[a]) else if a in db then Some(db[a]) else None
  }

  function Upsert(tree: Artifacts, r: ArtifactRecord): Artifacts {
    tree[r.key := if r.key in tree then tree[r.key].(latest := r.latest, state := r.state) else r]
  }

  /** Remembering a promoted transaction.  Whether it creates its artifact is decided by the
      previous node of the queue, so it fails for an unknown artifact unless the transaction
      stands at the head of the queue. */
  function Remembered(m: Memory, db: Artifacts, e: Entry, prev: Uuid): Option<Memory> {
    var txns := m.txns[e.key := e];
    if prev == Zero then
      Some(Memory(txns, Upsert(m.artifacts, ArtifactRecord(e.artifact, e.key, e.key, 0, 0, Code(e.state)))))
    else
      match Known(m, db, e.artifact)
      case None => None
      case Some(r) => Some(Memory(txns, Upsert(m.artifacts, r.(latest := e.key, state := Code(e.state)))))
  }

  /** The queue and the memory an attestation round leaves, and whether it ended well. */
  datatype Outcome = Outcome(queue: seq<Entry>, memory: Memory, ok: bool)

  function PromotedAt(q: seq<Entry>, p: nat): seq<Entry>
    requires p < |q|
  {
    q[p := q[p].(state := Attested)]
  }

  /** The loop from position `p` on, over a queue nobody else touches. */
  function AttestFrom(q: seq<Entry>, p: nat, m: Memory, db: Db, v: Verifiers): Outcome
    requires p <= |q|
    decreases |q| - p
  {
    if p == |q| then Outcome(q, m, true)
    else if q[p].cert.bytes == [] then Outcome(q, m, false)
    else if !v.Accept(m, db, q[p]) then AttestFrom(RemoveAt(q, p), p, m, db, v)
    else
      match Remembered(m, db.artifacts, q[p], PrevKey(q, p))
      case None => Outcome(PromotedAt(q, p), m, false)
      case Some(m') => AttestFrom(PromotedAt(q, p), p + 1, m', db, v)
  }

  /** A whole round: nothing happens unless the head of the queue is a submitted transaction. */
  function AttestRound(q: seq<Entry>, m: Memory, db: Db, v: Verifiers): Outcome {
    if q == [] then Outcome(q, m, true)
    else if q[0].cert.bytes == [] then Outcome(q, m, false)
    else if q[0].state != Submitted then Outcome(q, m, true)
    else AttestFrom(q, 0, m, db, v)
  }

  /** One turn of the loop. */
  lemma {:induction false} AttestTurn(q: seq<Entry>, p: nat, m: Memory, db: Db, v: Verifiers)
    requires p < |q| && q[p].cert.bytes != []
    ensures !v.Accept(m, db, q[p]) ==> AttestFrom(q, p, m, db, v) == AttestFrom(RemoveAt(q, p), p, m, db, v)
    ensures v.Accept(m, db, q[p]) ==>
      match Remembered(m, db.artifacts, q[p], PrevKey(q, p))
      case None => AttestFrom(q, p, m, db, v) == Outcome(PromotedAt(q, p), m, false)
      case Some(m') => AttestFrom(q, p, m, db, v) == AttestFrom(PromotedAt(q, p), p + 1, m', db, v)
  {}

  /** A decision moves the loop on by one turn. */
  lemma Decided(q: seq<Entry>, p: nat, m: Memory, db: Db, v: Verifiers, ok: bool, q': seq<Entry>, m': Memory)
    requires p < |q| && q[p].cert.bytes != []
    requires var accepted, next := v.Accept(m, db, q[p]), Remembered(m, db.artifacts, q[p], PrevKey(q, p));
      && q' == (if accepted then PromotedAt(q, p) else RemoveAt(q, p))
      && (ok <==> !accepted || next.Some?)
      && (ok && accepted ==> m' == next.value)
      && (!accepted ==> m' == m)
    ensures var o, p' := AttestFrom(q, p, m, db, v), if v.Accept(m, db, q[p]) then p + 1 else p;
      && p' <= |q'| && |q'| - p' == |q| - p - 1
      && (p + 1 < |q| ==> q'[p'] == q[p + 1])
      && (!ok ==> !o.ok && q' == o.queue)
      && (ok ==> AttestFrom(q', p', m', db, v) == o)
  {
    AttestTurn(q, p, m, db, v);
  }

  // ---------- judging a list, without a queue ----------

  /** The transactions taken, in order; those the round did not come to; the memory; and whether
      it came to the end. */
  datatype Verdict = Verdict(taken: seq<Entry>, rest: seq<Entry>, memory: Memory, ok: bool)

  /** Each transaction is judged by what is known when its turn comes; only the first one taken
      may bring an unknown artifact, and an unreadable one or another unknown artifact ends it. */
  function Judged(es: seq<Entry>, m: Memory, db: Db, v: Verifiers, head: bool): Verdict
    decreases |es|
  {
    if es == [] then Verdict([], [], m, true)
    else if es[0].cert.bytes == [] then Verdict([], es, m, false)
    else if !v.Accept(m, db, es[0]) then Judged(es[1..], m, db, v, head)
    else
      match Remembered(m, db.artifacts, es[0], if head then Zero else Ones)
      case None => Verdict([es[0]], es[1..], m, false)
      case Some(m') =>
        var j := Judged(es[1..], m', db, v, false);
        j.(taken := [es[0]] + j.taken)
  }

  /** The same transactions, attested. */
  function Promoted(es: seq<Entry>): (r: seq<Entry>)
    ensures |r| == |es|
  {
    seq(|es|, i requires 0 <= i < |es| => es[i].(state := Attested))
  }

  predicate NoZeroKey(q: seq<Entry>) {
    forall i :: 0 <= i < |q| ==> q[i].key != Zero
  }

  lemma NoZeroKept(q: seq<Entry>, p: nat)
    requires p < |q| && NoZeroKey(q)
    ensures PrevKey(q, p) == Zero <==> p == 0
    ensures NoZeroKey(RemoveAt(q, p)) && NoZeroKey(PromotedAt(q, p))
  {}

  /** What a verdict makes of a queue whose first `p` transactions are done. */
  function Joined(done: seq<Entry>, j: Verdict): Outcome {
    Outcome(done + Promoted(j.taken) + j.rest, j.memory, j.ok)
  }

  lemma JoinedTake(done: seq<Entry>, e: Entry, j: Verdict)
    ensures Joined(done + [e.(state := Attested)], j) == Joined(done, j.(taken := [e] + j.taken))
  {
    assert Promoted([e] + j.taken) == [e.(state := Attested)] + Promoted(j.taken);
  }

  lemma QueueParts(q: seq<Entry>, p: nat)
    requires p < |q|
    ensures q[p..][0] == q[p] && q[p..][1..] == q[p + 1..]
    ensures RemoveAt(q, p)[..p] == q[..p] && RemoveAt(q, p)[p..] == q[p + 1..]
    ensures PromotedAt(q, p)[..p + 1] == q[..p] + [q[p].(state := Attested)] && PromotedAt(q, p)[p + 1..] == q[p + 1..]
  {}

  /** The loop over the queue and the judgement of the list agree, whatever the queue. */
  lemma {:induction false} AttestFromIs(q: seq<Entry>, p: nat, m: Memory, db: Db, v: Verifiers)
    requires p <= |q| && NoZeroKey(q)
    ensures AttestFrom(q, p, m, db, v) == Joined(q[..p], Judged(q[p..], m, db, v, p == 0))
    decreases |q| - p
  {
    if p == |q| {
      assert q[..p] + Promoted([]) + [] == q;
    } else if q[p].cert.bytes == [] {
      assert q[..p] + Promoted([]) + q[p..] == q;
    } else {
      QueueParts(q, p);
      AttestTurn(q, p, m, db, v);
      NoZeroKept(q, p);
      if !v.Accept(m, db, q[p]) {
        AttestFromIs(RemoveAt(q, p), p, m, db, v);
      } else {
        TakeIs(q, p, m, db, v);
      }
    }
  }

  lemma {:induction false} TakeIs(q: seq<Entry>, p: nat, m: Memory, db: Db, v: Verifiers)
    requires p < |q| && NoZeroKey(q) && q[p].cert.bytes != [] && v.Accept(m, db, q[p])
    ensures AttestFrom(q, p, m, db, v) == Joined(q[..p], Judged(q[p..], m, db, v, p == 0))
    decreases |q| - p, 0
  {
    QueueParts(q, p);
    AttestTurn(q, p, m, db, v);
    NoZeroKept(q, p);
    var prev := if p == 0 then Zero else Ones;
    assert Remembered(m, db.artifacts, q[p], PrevKey(q, p)) == Remembered(m, db.artifacts, q[p], prev);
    match Remembered(m, db.artifacts, q[p], prev) {
      case None =>
        assert Promoted([q[p]]) == [q[p].(state := Attested)];
        assert PromotedAt(q, p) == q[..p] + [q[p].(state := Attested)] + q[p + 1..];
      case Some(m') =>
        AttestFromIs(PromotedAt(q, p), p + 1, m', db, v);
        JoinedTake(q[..p], q[p], Judged(q[p + 1..], m', db, v, false));
    }
  }

  // ---------- when it fails ----------

  predicate Keyed(tree: Artifacts) {
    forall k :: k in tree ==> tree[k].key == k
  }

  predicate Readable(q: seq<Entry>) {
    forall i :: 0 <= i < |q| ==> q[i].cert.bytes != []
  }

  /** The artifacts the loop finds when it asks for them. */
  predicate Findable(m: Memory, db: Artifacts, a: Uuid) {
    a in m.artifacts || a in db
  }

  /** Past the head, remembering adds no artifact that was not known. */
  lemma RememberedKnows(m: Memory, db: Artifacts, e: Entry)
    requires Keyed(m.artifacts) && Keyed(db)
    ensures Remembered(m, db, e, Ones).Some? <==> Findable(m, db, e.artifact)
    ensures Findable(m, db, e.artifact) ==>
      var m' := Remembered(m, db, e, Ones).value;
      (forall a :: Findable(m', db, a) <==> Findable(m, db, a)) && Keyed(m'.artifacts)
  {}

  predicate AllFindable(es: seq<Entry>, m: Memory, db: Artifacts) {
    forall i :: 0 <= i < |es| ==> Findable(m, db, es[i].artifact)
  }

  /** Past the head: it comes to the end exactly when every transaction taken is on a known
      artifact, and if not, only the last one taken is not. */
  lemma {:induction false} JudgedOk(es: seq<Entry>, m: Memory, db: Db, v: Verifiers)
    requires Readable(es) && Keyed(m.artifacts) && Keyed(db.artifacts)
    ensures var j := Judged(es, m, db, v, false);
      && (j.ok <==> AllFindable(j.taken, m, db.artifacts))
      && (j.ok ==> j.rest == [])
      && (!j.ok ==> j.taken != [] && AllFindable(j.taken[..|j.taken| - 1], m, db.artifacts))
    decreases |es|
  {
    if es != [] {
      var e := es[0];
      RememberedKnows(m, db.artifacts, e);
      if !v.Accept(m, db, e) {
        JudgedOk(es[1..], m, db, v);
      } else if Findable(m, db.artifacts, e.artifact) {
        var m' := Remembered(m, db.artifacts, e, Ones).value;
        JudgedOk(es[1..], m', db, v);
        FindableCons(e, Judged(es[1..], m', db, v, false).taken, m, m', db.artifacts);
      } else {
        assert [e][0] == e && [e][..0] == [];
      }
    }
  }

  lemma FindableCons(e: Entry, es: seq<Entry>, m: Memory, m': Memory, db: Artifacts)
    requires Findable(m, db, e.artifact) && forall a :: Findable(m', db, a) <==> Findable(m, db, a)
    ensures AllFindable([e] + es, m, db) <==> AllFindable(es, m', db)
    ensures es != [] ==>
      ([e] + es)[..|es|] == [e] + es[..|es| - 1]
      && (AllFindable(es[..|es| - 1], m', db) ==> AllFindable(([e] + es)[..|es|], m, db))
  {
    var all := [e] + es;
    assert forall i :: 0 <= i < |es| ==> all[i + 1] == es[i];
    if AllFindable(all, m, db) {
      forall i | 0 <= i < |es| ensures Findable(m', db, es[i].artifact) {
        assert Findable(m, db, all[i + 1].artifact);
      }
    }
  }

  /** Every transaction taken after the first is on an artifact the database knows or the first
      one touched. */
  predicate RoundSafe(taken: seq<Entry>, db: Artifacts) {
    forall i :: 1 <= i < |taken| ==> taken[i].artifact in db || taken[i].artifact == taken[0].artifact
  }

  lemma SafeIsFindable(taken: seq<Entry>, m: Memory, db: Artifacts)
    requires taken != [] && m.artifacts.Keys == {taken[0].artifact}
    ensures RoundSafe(taken, db) <==> AllFindable(taken[1..], m, db)
  {
    assert forall i :: 1 <= i < |taken| ==> taken[i] == taken[1..][i - 1];
    if AllFindable(taken[1..], m, db) {
      forall i | 1 <= i < |taken| ensures taken[i].artifact in db || taken[i].artifact == taken[0].artifact {
        assert Findable(m, db, taken[1..][i - 1].artifact);
      }
    }
  }

  /** From an empty memory at the head. */
  lemma {:induction false} JudgedAtHead(es: seq<Entry>, db: Db, v: Verifiers)
    requires Readable(es) && Keyed(db.artifacts)
    ensures var j := Judged(es, NOTHING, db, v, true);
      && (j.ok <==> RoundSafe(j.taken, db.artifacts))
      && (j.ok ==> j.rest == [])
      && (!j.ok ==> |j.taken| >= 2 && RoundSafe(j.taken[..|j.taken| - 1], db.artifacts))
    decreases |es|
  {
    if es != [] {
      if !v.Accept(NOTHING, db, es[0]) {
        JudgedAtHead(es[1..], db, v);
      } else {
        FirstTaken(es, db, v);
      }
    }
  }

  lemma FirstTaken(es: seq<Entry>, db: Db, v: Verifiers)
    requires es != [] && Readable(es) && Keyed(db.artifacts) && v.Accept(NOTHING, db, es[0])
    ensures var j := Judged(es, NOTHING, db, v, true);
      && (j.ok <==> RoundSafe(j.taken, db.artifacts))
      && (j.ok ==> j.rest == [])
      && (!j.ok ==> |j.taken| >= 2 && RoundSafe(j.taken[..|j.taken| - 1], db.artifacts))
  {
    var e := es[0];
    var m := Remembered(NOTHING, db.artifacts, e, Zero).value;
    var k := Judged(es[1..], m, db, v, false);
    JudgedOk(es[1..], m, db, v);
    var taken := [e] + k.taken;
    assert taken[1..] == k.taken;
    SafeIsFindable(taken, m, db.artifacts);
    if !k.ok {
      var init := taken[..|taken| - 1];
      assert init[1..] == k.taken[..|k.taken| - 1];
      SafeIsFindable(init, m, db.artifacts);
    }
  }

  /** A round over a fixed queue with a submitted head: the transactions taken are there, attested
      and in order, followed by those it did not come to; it ends well exactly when every
      transaction taken after the first is on an artifact the database knows or the first one
      touched, and otherwise it dies over the first one that is not, with its promotion stored. */
  lemma RoundResult(q: seq<Entry>, db: Db, v: Verifiers)
    requires q != [] && q[0].state == Submitted && Readable(q) && NoZeroKey(q) && Keyed(db.artifacts)
    ensures var o, j := AttestRound(q, NOTHING, db, v), Judged(q, NOTHING, db, v, true);
      && o == Outcome(Promoted(j.taken) + j.rest, j.memory, j.ok)
      && (o.ok <==> RoundSafe(j.taken, db.artifacts))
      && (o.ok ==> o.queue == Promoted(j.taken))
      && (!o.ok ==> |j.taken| >= 2 && RoundSafe(j.taken[..|j.taken| - 1], db.artifacts))
  {
    AttestFromIs(q, 0, NOTHING, db, v);
    JudgedAtHead(q, db, v);
    var j := Judged(q, NOTHING, db, v, true);
    assert q[0..] == q;
    assert q[..0] + Promoted(j.taken) + j.rest == Promoted(j.taken) + j.rest;
    assert Promoted(j.taken) + [] == Promoted(j.taken);
  }

  // ---------- verifiers that go by the transaction and the database alone ----------

  ghost predicate Impartial(v: Verifiers, db: Db, verdict: Entry -> bool) {
    forall m, e :: v.Accept(m, db, e) == verdict(e)
  }

  /** The transactions a verdict accepts, in order. */
  function Accepted(q: seq<Entry>, verdict: Entry -> bool): seq<Entry> {
    if q == [] then []
    else (if verdict(q[0]) then [q[0]] else []) + Accepted(q[1..], verdict)
  }

  /** Such verifiers: what a round takes is what they accept of the part it came to. */
  lemma {:induction false} TakesWhatIsAccepted(es: seq<Entry>, m: Memory, db: Db, v: Verifiers, head: bool,
                                               verdict: Entry -> bool)
    requires Impartial(v, db, verdict)
    ensures var j := Judged(es, m, db, v, head);
      |j.rest| <= |es| && es[|es| - |j.rest|..] == j.rest && j.taken == Accepted(es[..|es| - |j.rest|], verdict)
    decreases |es|
  {
    if es != [] {
      assert v.Accept(m, db, es[0]) == verdict(es[0]);
      var prev := if head then Zero else Ones;
      if es[0].cert.bytes != [] && v.Accept(m, db, es[0]) && Remembered(m, db.artifacts, es[0], prev).None? {
        assert es[..1] == [es[0]] && [es[0]][1..] == [];
      } else if es[0].cert.bytes != [] {
        var m' := if v.Accept(m, db, es[0]) then Remembered(m, db.artifacts, es[0], prev).value else m;
        var head' := head && !v.Accept(m, db, es[0]);
        TakesWhatIsAccepted(es[1..], m', db, v, head', verdict);
        var n := |es| - |Judged(es[1..], m', db, v, head').rest|;
        assert es[..n][1..] == es[1..][..n - 1] && es[..n][0] == es[0];
      }
    }
  }

  lemma {:induction false} AcceptedAppend(a: seq<Entry>, b: seq<Entry>, verdict: Entry -> bool)
    ensures Accepted(a + b, verdict) == Accepted(a, verdict) + Accepted(b, verdict)
  {
    if a == [] {
      assert a + b == b;
    } else {
      assert (a + b)[0] == a[0] && (a + b)[1..] == a[1..] + b;
      AcceptedAppend(a[1..], b, verdict);
      Associates(if verdict(a[0]) then [a[0]] else [], Accepted(a[1..], verdict), Accepted(b, verdict));
    }
  }

  lemma Associates(a: seq<Entry>, b: seq<Entry>, c: seq<Entry>)
    ensures (a + b) + c == a + (b + c)
  {}

  /** What is left of a queue past the first `n` transactions a verdict accepts. */
  function Past(q: seq<Entry>, verdict: Entry -> bool, n: nat): seq<Entry> {
    if n == 0 || q == [] then q
    else Past(q[1..], verdict, if verdict(q[0]) then n - 1 else n)
  }

  /** A round that dies over an unknown artifact leaves what follows it. */
  lemma {:induction false} LeavesWhatFollows(es: seq<Entry>, m: Memory, db: Db, v: Verifiers, head: bool,
                                             verdict: Entry -> bool)
    requires Impartial(v, db, verdict) && Readable(es)
    ensures var j := Judged(es, m, db, v, head); !j.ok ==> j.taken != [] && j.rest == Past(es, verdict, |j.taken|)
    decreases |es|
  {
    if es != [] {
      assert v.Accept(m, db, es[0]) == verdict(es[0]);
      var found := Remembered(m, db.artifacts, es[0], if head then Zero else Ones);
      if !verdict(es[0]) {
        LeavesWhatFollows(es[1..], m, db, v, head, verdict);
      } else if found.Some? {
        LeavesWhatFollows(es[1..], found.value, db, v, false, verdict);
      }
    }
  }

  /** The first transaction that makes a round unsafe. */
  function FirstUnsafe(es: seq<Entry>, db: Artifacts): (n: nat)
    requires !RoundSafe(es, db)
    ensures 1 <= n < |es| && es[n].artifact !in db && es[n].artifact != es[0].artifact
    ensures RoundSafe(es[..n], db)
  {
    var n := |es| - 1;
    if RoundSafe(es[..n], db) then n
    else
      var k := FirstUnsafe(es[..n], db);
      assert es[..n][..k] == es[..k];
      k
  }

  lemma {:induction false} FirstUnsafeIs(es: seq<Entry>, n: nat, db: Artifacts)
    requires 1 <= n < |es| && RoundSafe(es[..n], db) && !RoundSafe(es[..n + 1], db)
    ensures !RoundSafe(es, db) && FirstUnsafe(es, db) == n
  {
    SafePrefix(es, n, db);
    SafePrefix(es, n + 1, db);
    SafePrefix(es, |es|, db);
    assert es[..|es|] == es;
    SafePrefix(es, FirstUnsafe(es, db), db);
  }

  predicate SafeAt(es: seq<Entry>, i: nat, db: Artifacts)
    requires i < |es|
  {
    es[i].artifact in db || es[i].artifact == es[0].artifact
  }

  lemma SafePrefix(es: seq<Entry>, n: nat, db: Artifacts)
    requires n <= |es|
    ensures RoundSafe(es[..n], db) <==> forall i :: 1 <= i < n ==> SafeAt(es, i, db)
  {
    var p := es[..n];
    assert forall i :: 0 <= i < n ==> p[i] == es[i];
    if RoundSafe(p, db) {
      forall i | 1 <= i < n ensures SafeAt(es, i, db) {
        assert p[i].artifact in db || p[i].artifact == p[0].artifact;
      }
    }
    if forall i :: 1 <= i < n ==> SafeAt(es, i, db) {
      forall i | 1 <= i < |p| ensures p[i].artifact in db || p[i].artifact == p[0].artifact {
        assert SafeAt(es, i, db);
      }
    }
  }

  /** Attestation promotes exactly what the verdict accepts and drops the rest, unless an accepted
      transaction after the first is on an artifact neither the database knows nor the first one
      touched: then it dies over the first of those, promotes the accepted ones up to and including
      it, drops the rejected ones before it, and leaves what follows. */
  lemma PromotesWhatIsAccepted(q: seq<Entry>, db: Db, v: Verifiers, verdict: Entry -> bool)
    requires q != [] && q[0].state == Submitted && Readable(q) && NoZeroKey(q) && Keyed(db.artifacts)
    requires Impartial(v, db, verdict)
    ensures var o, accepted := AttestRound(q, NOTHING, db, v), Accepted(q, verdict);
      && (o.ok <==> RoundSafe(accepted, db.artifacts))
      && (o.ok ==> o.queue == Promoted(accepted))
      && (!o.ok ==>
            var n := FirstUnsafe(accepted, db.artifacts) + 1;
            o.queue == Promoted(accepted[..n]) + Past(q, verdict, n))
  {
    RoundResult(q, db, v);
    JudgedAtHead(q, db, v);
    TakenOfAccepted(q, db, v, verdict);
    PrefixDecides(Judged(q, NOTHING, db, v, true), Accepted(q, verdict), db.artifacts);
  }

  /** Whether what was taken is safe tells whether all that is accepted is. */
  lemma PrefixDecides(j: Verdict, accepted: seq<Entry>, db: Artifacts)
    requires |j.taken| <= |accepted| && accepted[..|j.taken|] == j.taken && (j.ok ==> accepted == j.taken)
    requires j.ok <==> RoundSafe(j.taken, db)
    requires !j.ok ==>
      |j.taken| >= 2 && accepted[..|j.taken| - 1] == j.taken[..|j.taken| - 1] && RoundSafe(j.taken[..|j.taken| - 1], db)
    ensures j.ok <==> RoundSafe(accepted, db)
    ensures !j.ok ==> FirstUnsafe(accepted, db) + 1 == |j.taken|
  {
    if !j.ok {
      FirstUnsafeIs(accepted, |j.taken| - 1, db);
    }
  }

  /** What a round takes are the first of the accepted transactions, and all of them if it ends well. */
  lemma TakenOfAccepted(q: seq<Entry>, db: Db, v: Verifiers, verdict: Entry -> bool)
    requires Impartial(v, db, verdict) && Readable(q)
    ensures var j, accepted := Judged(q, NOTHING, db, v, true), Accepted(q, verdict);
      && |j.taken| <= |accepted| && accepted[..|j.taken|] == j.taken
      && (j.rest == [] ==> accepted == j.taken)
      && (!j.ok ==>
            && j.taken != [] && accepted[..|j.taken| - 1] == j.taken[..|j.taken| - 1]
            && j.rest == Past(q, verdict, |j.taken|))
  {
    var j := Judged(q, NOTHING, db, v, true);
    TakesWhatIsAccepted(q, NOTHING, db, v, true, verdict);
    LeavesWhatFollows(q, NOTHING, db, v, true, verdict);
    var k := |q| - |j.rest|;
    AcceptedAppend(q[..k], q[k..], verdict);
    assert q == q[..k] + q[k..];
  }

  lemma {:induction false} AcceptedMembers(q: seq<Entry>, verdict: Entry -> bool, e: Entry)
    ensures e in Accepted(q, verdict) <==> e in q && verdict(e)
  {
    if q != [] {
      AcceptedMembers(q[1..], verdict, e);
      assert e in q <==> e == q[0] || e in q[1..];
    }
  }

  /** The three verifiers, each with a verdict of its own: the round takes the transactions that all
      three accept, in order.  If it ends well, a transaction is still queued, and then attested,
      exactly when none of the three rejects it. */
  lemma EachVerifierDecides(q: seq<Entry>, db: Db, v: Verifiers,
                            a: Entry -> bool, b: Entry -> bool, c: Entry -> bool)
    requires q != [] && q[0].state == Submitted && Readable(q) && NoZeroKey(q) && Keyed(db.artifacts)
    requires forall m, e :: v.fields(m, db, e) == a(e)
    requires forall m, e :: v.sequence(m, db, e) == b(e)
    requires forall m, e :: v.unique(m, db, e) == c(e)
    ensures var o, all := AttestRound(q, NOTHING, db, v), Accepted(q, (e: Entry) => a(e) && b(e) && c(e));
      && (o.ok <==> RoundSafe(all, db.artifacts))
      && (o.ok ==> o.queue == Promoted(all))
      && (o.ok ==> forall e :: e in q ==> (e.(state := Attested) in o.queue <== a(e) && b(e) && c(e)))
      && (o.ok && Distinct(Keys(q)) ==> forall e :: e in q ==> (e.key in Keys(o.queue) <==> a(e) && b(e) && c(e)))
  {
    var verdict := (e: Entry) => a(e) && b(e) && c(e);
    forall m, e ensures v.Accept(m, db, e) == verdict(e) {
      assert v.fields(m, db, e) == a(e) && v.sequence(m, db, e) == b(e) && v.unique(m, db, e) == c(e);
    }
    PromotesWhatIsAccepted(q, db, v, verdict);
    var all := Accepted(q, verdict);
    if RoundSafe(all, db.artifacts) {
      forall e | e in q ensures e.(state := Attested) in Promoted(all) <== verdict(e) {
        AcceptedMembers(q, verdict, e);
        PromotedMember(all, e);
      }
      if Distinct(Keys(q)) {
        forall e | e in q ensures e.key in Keys(Promoted(all)) <==> verdict(e) {
          QueuedExactly(q, verdict, e);
        }
      }
    }
  }

  lemma PromotedMember(es: seq<Entry>, e: Entry)
    ensures e in es ==> e.(state := Attested) in Promoted(es)
  {
    if e in es {
      var i :| 0 <= i < |es| && es[i] == e;
      assert Promoted(es)[i] == e.(state := Attested);
    }
  }

  lemma QueuedExactly(q: seq<Entry>, verdict: Entry -> bool, e: Entry)
    requires Distinct(Keys(q)) && e in q
    ensures e.key in Keys(Promoted(Accepted(q, verdict))) <==> verdict(e)
  {
    var all := Accepted(q, verdict);
    AcceptedMembers(q, verdict, e);
    if verdict(e) {
      var i :| 0 <= i < |all| && all[i] == e;
      assert Keys(Promoted(all))[i] == e.key;
    }
    if e.key in Keys(Promoted(all)) {
      var i :| 0 <= i < |all| && Keys(Promoted(all))[i] == e.key;
      AcceptedMembers(q, verdict, all[i]);
      var j :| 0 <= j < |q| && q[j] == all[i];
      var k :| 0 <= k < |q| && q[k] == e;
      assert Keys(q)[j] == Keys(q)[k];
    }
  }

  // ---------- what is remembered ----------

  /** The transactions in a list, by key. */
  ghost predicate Remembers(txns: map<Uuid, Entry>, before: map<Uuid, Entry>, taken: seq<Entry>) {
    && (forall k :: k in txns <==> k in before || k in Keys(taken))
    && (forall i :: 0 <= i < |taken| ==> taken[i].key in txns && txns[taken[i].key] == taken[i])
    && (forall k :: k in before && k !in Keys(taken) ==> k in txns && txns[k] == before[k])
  }

  /** A round that ends well remembers exactly the transactions it took. */
  lemma {:induction false} TreeHoldsTaken(es: seq<Entry>, m: Memory, db: Db, v: Verifiers, head: bool)
    requires Judged(es, m, db, v, head).ok && Distinct(Keys(es))
    ensures var j := Judged(es, m, db, v, head); Remembers(j.memory.txns, m.txns, j.taken)
    ensures forall k :: k in Keys(Judged(es, m, db, v, head).taken) ==> k in Keys(es)
    decreases |es|
  {
    if es != [] {
      var e, rest := es[0], es[1..];
      TailKeys(es);
      if !v.Accept(m, db, e) {
        TreeHoldsTaken(rest, m, db, v, head);
      } else {
        var m' := Remembered(m, db.artifacts, e, if head then Zero else Ones).value;
        TreeHoldsTaken(rest, m', db, v, false);
        RemembersOneMore(m.txns, e, Judged(rest, m', db, v, false));
      }
    }
  }

  lemma TailKeys(es: seq<Entry>)
    requires es != [] && Distinct(Keys(es))
    ensures Distinct(Keys(es[1..])) && es[0].key !in Keys(es[1..])
    ensures forall k :: k in Keys(es) <==> k == es[0].key || k in Keys(es[1..])
  {
    assert forall i :: 0 <= i < |es| - 1 ==> Keys(es[1..])[i] == Keys(es)[i + 1];
    assert Keys(es)[0] == es[0].key;
    forall k | k in Keys(es) ensures k == es[0].key || k in Keys(es[1..]) {
      var i :| 0 <= i < |es| && Keys(es)[i] == k;
      if i > 0 {
        assert Keys(es[1..])[i - 1] == k;
      }
    }
  }

  lemma RemembersOneMore(before: map<Uuid, Entry>, e: Entry, j: Verdict)
    requires Remembers(j.memory.txns, before[e.key := e], j.taken) && e.key !in Keys(j.taken)
    ensures Remembers(j.memory.txns, before, [e] + j.taken)
  {
    var all := [e] + j.taken;
    assert Keys(all) == [e.key] + Keys(j.taken);
    assert forall i :: 1 <= i < |all| ==> all[i] == j.taken[i - 1];
  }

  /** The whole round: its tree holds the transactions taken and nothing else. */
  lemma RoundRemembers(q: seq<Entry>, db: Db, v: Verifiers)
    requires q != [] && q[0].state == Submitted && Readable(q) && NoZeroKey(q) && Keyed(db.artifacts)
    requires Distinct(Keys(q)) && AttestRound(q, NOTHING, db, v).ok
    ensures var o := AttestRound(q, NOTHING, db, v);
      && o.memory.txns.Keys == KeySet(o.queue)
      && forall e :: e in o.queue ==> o.memory.txns[e.key].(state := Attested) == e
  {
    var j := Judged(q, NOTHING, db, v, true);
    RoundResult(q, db, v);
    TreeHoldsTaken(q, NOTHING, db, v, true);
    assert Keys(Promoted(j.taken)) == Keys(j.taken);
    forall e | e in Promoted(j.taken) ensures e.key in j.memory.txns && j.memory.txns[e.key].(state := Attested) == e {
      var i :| 0 <= i < |j.taken| && Promoted(j.taken)[i] == e;
      assert j.taken[i].key in j.memory.txns && j.memory.txns[j.taken[i].key] == j.taken[i];
    }
  }

  /** Two new artifacts in one round: the second promotion is stored and then kills the service. */
  lemma TwoCreatesAreFatal(a: Entry, b: Entry, v: Verifiers)
    requires forall m, db, e :: v.Accept(m, db, e)
    requires a.state == Submitted && a.cert.bytes != [] && b.cert.bytes != []
    requires a.artifact != b.artifact && a.key != Zero && b.key != Zero
    ensures var o := AttestRound([a, b], NOTHING, Db(map[], map[], map[]), v);
      !o.ok && o.queue == [a.(state := Attested), b.(state := Attested)]
  {
    var q, db := [a, b], Db(map[], map[], map[]);
    var m := Remembered(NOTHING, db.artifacts, a, Zero).value;
    assert q[1..] == [b] && [b][1..] == [];
    assert Judged([b], m, db, v, false) == Verdict([b], [], m, false);
    assert [a] + [b] == q;
    RoundResult(q, db, v);
    assert Promoted(q) + [] == [a.(state := Attested), b.(state := Attested)];
  }

  /** Verifiers that accept nothing, as the unfinished ones do, empty the queue. */
  lemma NothingAccepted(q: seq<Entry>, db: Db, v: Verifiers)
    requires q != [] && q[0].state == Submitted && Readable(q) && NoZeroKey(q) && Keyed(db.artifacts)
    requires forall m, e :: !v.Accept(m, db, e)
    ensures AttestRound(q, NOTHING, db, v).queue == [] && AttestRound(q, NOTHING, db, v).ok
  {
    NothingTaken(q, NOTHING, db, v);
    RoundResult(q, db, v);
  }

  lemma {:induction false} NothingTaken(es: seq<Entry>, m: Memory, db: Db, v: Verifiers)
    requires Readable(es) && forall e :: !v.Accept(m, db, e)
    ensures Judged(es, m, db, v, true) == Verdict([], [], m, true)
    decreases |es|
  {
    if es != [] {
      NothingTaken(es[1..], m, db, v);
    }
  }
}
