/** Facts about the shared queue: an attested prefix followed by a submitted suffix, and what
    submission, promotion and dropping leave in place. */
module QueueShape {
  import opened Ids
  import opened Ledger

  /** The first `n` transactions are attested. */
  predicate AttestedUpTo(q: seq<Entry>, n: nat) {
    n <= |q| && forall i :: 0 <= i < n ==> q[i].state == Attested
  }

  /** Position `p` holds the first transaction that is not attested, and it is submitted. */
  predicate Frontier(q: seq<Entry>, p: nat) {
    AttestedUpTo(q, p) && p < |q| && q[p].state == Submitted
  }

  /** An attested prefix, then submitted transactions only. */
  predicate Shaped(q: seq<Entry>) {
    && (forall i :: 0 <= i < |q| ==> q[i].state == Attested || q[i].state == Submitted)
    && (forall i, j :: 0 <= i < j < |q| && q[j].state == Attested ==> q[i].state == Attested)
  }

  /** Length of the longest attested prefix. */
  function Front(q: seq<Entry>): (n: nat)
    ensures AttestedUpTo(q, n)
    ensures n < |q| ==> q[n].state != Attested
  {
    if q == [] || q[0].state != Attested then 0
    else
      var m := Front(q[1..]);
      assert forall i :: 1 <= i < m + 1 ==> q[i] == q[1..][i - 1];
      m + 1
  }

  /** What submitters put into the queue. */
  predicate EntryOk(e: Entry) {
    && !Sentinel(e.key)
    && e.cert.bytes != []
    && (e.cert.id.Some? ==> e.cert.id.value == e.key)
  }

  predicate EntriesOk(q: seq<Entry>) {
    forall i :: 0 <= i < |q| ==> EntryOk(q[i])
  }

  /** A reference read earlier: if it is still queued at all, it is queued at position `n`. */
  predicate Stale(q: seq<Entry>, id: Uuid, n: nat) {
    id in Keys(q) ==> n < |q| && q[n].key == id
  }

  /** Attested transactions stay put, and so do references to the transaction after them. */
  ghost predicate Keeps(q: seq<Entry>, q': seq<Entry>, known: seq<Uuid>) {
    && (forall n: nat :: AttestedUpTo(q, n) ==> AttestedUpTo(q', n) && q'[..n] == q[..n])
    && (forall n: nat, id :: AttestedUpTo(q, n) && id in known && Stale(q, id, n) ==> Stale(q', id, n))
  }

  lemma PositionAt(q: seq<Entry>, p: nat)
    requires Distinct(Keys(q)) && p < |q|
    ensures Position(q, q[p].key) == p && q[p].key in Keys(q)
  {
    assert Keys(q)[p] == q[p].key;
    var r := Position(q, q[p].key);
    assert Keys(q)[r] == q[r].key;
  }

  lemma KeysAppend(a: seq<Entry>, b: seq<Entry>)
    ensures Keys(a + b) == Keys(a) + Keys(b)
  {}

  lemma SubmitKeeps(q: seq<Entry>, e: Entry, known: seq<Uuid>)
    requires e.key !in known
    ensures Keeps(q, q + [e], known)
  {
    KeysAppend(q, [e]);
    forall n: nat, id | AttestedUpTo(q, n) && id in known && Stale(q, id, n) ensures Stale(q + [e], id, n) {
      assert Keys([e]) == [e.key];
    }
  }

  lemma SubmitShape(q: seq<Entry>, e: Entry)
    requires Shaped(q) && (e.state == Submitted || e.state == Attested)
    ensures Shaped(q + [e]) <==> e.state == Submitted || AttestedUpTo(q, |q|)
  {
    var q' := q + [e];
    assert q'[|q|] == e && forall i :: 0 <= i < |q| ==> q'[i] == q[i];
  }

  lemma PromoteAt(q: seq<Entry>, p: nat, known: seq<Uuid>)
    requires Distinct(Keys(q)) && Shaped(q) && Frontier(q, p)
    ensures Promote(q, q[p].key) == q[p := q[p].(state := Attested)]
    ensures var q' := Promote(q, q[p].key);
      Shaped(q') && Keys(q') == Keys(q) && Keeps(q, q', known)
      && AttestedUpTo(q', p + 1) && (p + 1 < |q| ==> Frontier(q', p + 1))
  {
    PositionAt(q, p);
    var q' := q[p := q[p].(state := Attested)];
    assert Keys(q') == Keys(q);
    forall n: nat | AttestedUpTo(q, n) ensures AttestedUpTo(q', n) && q'[..n] == q[..n] {
      assert n <= p;
    }
  }

  lemma DropAt(q: seq<Entry>, p: nat, known: seq<Uuid>)
    requires Distinct(Keys(q)) && Shaped(q) && Frontier(q, p)
    ensures Drop(q, q[p].key) == RemoveAt(q, p)
    ensures Shaped(RemoveAt(q, p)) && Keeps(q, RemoveAt(q, p), known)
    ensures p + 1 < |q| ==> Frontier(RemoveAt(q, p), p)
  {
    PositionAt(q, p);
    DropShape(q, p);
    DropKeeps(q, p, known);
  }

  lemma DropShape(q: seq<Entry>, p: nat)
    requires Shaped(q) && Frontier(q, p)
    ensures Shaped(RemoveAt(q, p))
    ensures p + 1 < |q| ==> Frontier(RemoveAt(q, p), p)
    ensures forall n: nat :: AttestedUpTo(q, n) ==> AttestedUpTo(RemoveAt(q, p), n) && RemoveAt(q, p)[..n] == q[..n]
  {
    var q' := RemoveAt(q, p);
    assert forall i :: 0 <= i < p ==> q'[i] == q[i];
    assert forall i :: p <= i < |q'| ==> q'[i] == q[i + 1];
    forall n: nat | AttestedUpTo(q, n) ensures AttestedUpTo(q', n) && q'[..n] == q[..n] {
      assert n <= p;
    }
  }

  lemma DropKeys(q: seq<Entry>, p: nat)
    requires p < |q|
    ensures Keys(q) == Keys(q[..p]) + [q[p].key] + Keys(q[p + 1..])
    ensures Keys(RemoveAt(q, p)) == Keys(q[..p]) + Keys(q[p + 1..])
  {
    KeysAppend(q[..p], q[p + 1..]);
  }

  lemma DropKeeps(q: seq<Entry>, p: nat, known: seq<Uuid>)
    requires Distinct(Keys(q)) && Frontier(q, p)
    ensures forall n: nat, id :: AttestedUpTo(q, n) && id in known && Stale(q, id, n) ==> Stale(RemoveAt(q, p), id, n)
  {
    var q' := RemoveAt(q, p);
    forall n: nat, id | AttestedUpTo(q, n) && id in known && Stale(q, id, n) ensures Stale(q', id, n) {
      if id in Keys(q') {
        var j :| 0 <= j < |q'| && Keys(q')[j] == id;
        var k := if j < p then j else j + 1;
        assert q'[j] == q[k] && Keys(q)[k] == id;
        assert Keys(q)[n] == id;
        assert k == n;
      }
    }
  }

  // ---------- the ids that are still accounted for ----------

  /** A list of ids without those in `gone`. */
  function Kept(ids: seq<Uuid>, gone: set<Uuid>): seq<Uuid> {
    if ids == [] then []
    else if ids[0] in gone then Kept(ids[1..], gone)
    else [ids[0]] + Kept(ids[1..], gone)
  }

  lemma {:induction false} KeptAppend(ids: seq<Uuid>, more: seq<Uuid>, gone: set<Uuid>)
    ensures Kept(ids + more, gone) == Kept(ids, gone) + Kept(more, gone)
  {
    if ids == [] {
      assert ids + more == more;
    } else {
      assert (ids + more)[1..] == ids[1..] + more;
      KeptAppend(ids[1..], more, gone);
    }
  }

  lemma {:induction false} KeptMembers(ids: seq<Uuid>, gone: set<Uuid>, id: Uuid)
    ensures id in Kept(ids, gone) <==> id in ids && id !in gone
  {
    if ids != [] {
      KeptMembers(ids[1..], gone, id);
    }
  }

  lemma {:induction false} KeptDistinct(ids: seq<Uuid>, gone: set<Uuid>)
    requires Distinct(ids)
    ensures Distinct(Kept(ids, gone))
  {
    if ids != [] {
      KeptDistinct(ids[1..], gone);
      KeptMembers(ids[1..], gone, ids[0]);
    }
  }

  lemma {:induction false} KeptTwice(ids: seq<Uuid>, gone: set<Uuid>, more: set<Uuid>)
    ensures Kept(ids, gone + more) == Kept(Kept(ids, gone), more)
  {
    if ids != [] {
      KeptTwice(ids[1..], gone, more);
    }
  }

  lemma {:induction false} KeptAll(ids: seq<Uuid>, gone: set<Uuid>)
    requires forall id :: id in ids ==> id !in gone
    ensures Kept(ids, gone) == ids
  {
    if ids != [] {
      KeptAll(ids[1..], gone);
    }
  }

  /** Dropping one id from a list without repetitions leaves what was before and after it. */
  lemma KeptDrop(ids: seq<Uuid>, gone: set<Uuid>, before: seq<Uuid>, id: Uuid, after: seq<Uuid>)
    requires Distinct(ids) && Kept(ids, gone) == before + [id] + after
    ensures Kept(ids, gone + {id}) == before + after
  {
    KeptDistinct(ids, gone);
    KeptTwice(ids, gone, {id});
    KeptOthers(before, id, after);
  }

  lemma {:induction false} KeptOthers(before: seq<Uuid>, id: Uuid, after: seq<Uuid>)
    requires Distinct(before + [id] + after)
    ensures Kept(before + [id] + after, {id}) == before + after
    decreases |before|
  {
    var all := before + [id] + after;
    if before == [] {
      assert all[0] == id && all[1..] == after;
      assert forall i :: 0 <= i < |after| ==> after[i] == all[i + 1];
      KeptAll(after, {id});
    } else {
      var rest := before[1..];
      assert all[0] == before[0] && all[1..] == rest + [id] + after;
      assert all[|before|] == id;
      assert forall i :: 0 <= i < |all| - 1 ==> all[1..][i] == all[i + 1];
      KeptOthers(rest, id, after);
    }
  }

  lemma DistinctParts(a: seq<Uuid>, b: seq<Uuid>)
    requires Distinct(a + b)
    ensures Distinct(a) && Distinct(b)
    ensures forall id :: id in a ==> id !in b
  {
    assert forall i :: 0 <= i < |a| ==> (a + b)[i] == a[i];
    assert forall i :: 0 <= i < |b| ==> (a + b)[|a| + i] == b[i];
  }
}
