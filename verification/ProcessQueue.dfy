/** The process queue table: a doubly linked list kept in a key-value database, with an all-zero
    start sentinel and an all-0xFF end sentinel that are created by the first submission.  Every
    operation runs inside one database transaction, so it takes the table and returns the table
    to commit; an operation that fails returns the table it was given. */
module ProcessQueue {
  import opened Ids
  import opened Ledger

  datatype Node = Node(
    key: Uuid,
    prev: Uuid,
    next: Uuid,
    artifact: Uuid,
    block: Uuid,
    cert: Certificate,
    state: TxnState)

  type Table = map<Uuid, Node>

  // ---------- what a table means ----------

  /** The `i`-th node of the list is stored under its key and points at its two neighbours. */
  ghost predicate NodeAt(pq: Table, ring: seq<Uuid>, i: nat)
    requires i < |ring|
  {
    && ring[i] in pq
    && pq[ring[i]].key == ring[i]
    && (i > 0 ==> pq[ring[i]].prev == ring[i - 1])
    && (i < |ring| - 1 ==> pq[ring[i]].next == ring[i + 1])
    && (i == 0 || i == |ring| - 1 ==> pq[ring[i]].cert == NO_CERTIFICATE)
  }

  /** The table is the list that `ring` spells out, sentinels included. */
  ghost predicate Linked(pq: Table, ring: seq<Uuid>) {
    && |ring| >= 2 && ring[0] == Zero && ring[|ring| - 1] == Ones
    && Distinct(ring)
    && (forall k :: k in pq ==> k in ring)
    && (forall i :: 0 <= i < |ring| ==> NodeAt(pq, ring, i))
  }

  /** A table is either untouched or a linked list. */
  ghost predicate Represents(pq: Table, ring: seq<Uuid>) {
    (pq == map[] && ring == [Zero, Ones]) || Linked(pq, ring)
  }

  ghost function EntryAt(pq: Table, key: Uuid): Entry {
    if key in pq then Entry(key, pq[key].artifact, pq[key].cert, pq[key].state)
    else Entry(key, Zero, NO_CERTIFICATE, Unknown)
  }

  /** The pending transactions a table holds, in queue order. */
  ghost function View(pq: Table, ring: seq<Uuid>): (q: seq<Entry>)
    requires |ring| >= 2
    ensures |q| == |ring| - 2
    ensures forall i :: 0 <= i < |q| ==> q[i] == EntryAt(pq, ring[i + 1])
  {
    seq(|ring| - 2, i requires 0 <= i < |ring| - 2 => EntryAt(pq, ring[i + 1]))
  }

  lemma Initialized(pq: Table, ring: seq<Uuid>)
    requires Represents(pq, ring)
    ensures Zero in pq <==> pq != map[]
    ensures Ones in pq <==> pq != map[]
    ensures pq == map[] ==> ring == [Zero, Ones]
  {
    if ring != [Zero, Ones] || pq != map[] {
      assert NodeAt(pq, ring, 0) && NodeAt(pq, ring, |ring| - 1);
    }
  }

  lemma ViewPosition(pq: Table, ring: seq<Uuid>, i: nat)
    requires Linked(pq, ring) && 0 < i < |ring| - 1
    ensures Position(View(pq, ring), ring[i]) == i - 1
  {
    var q := View(pq, ring);
    assert Keys(q)[i - 1] == ring[i];
    var p := Position(q, ring[i]);
    assert q[p].key == ring[p + 1];
  }

  lemma ViewMembers(pq: Table, ring: seq<Uuid>, key: Uuid)
    requires Represents(pq, ring)
    ensures key in Keys(View(pq, ring)) <==> key in pq && !Sentinel(key)
    ensures key in pq && !Sentinel(key) ==> exists i :: 0 < i < |ring| - 1 && ring[i] == key
  {
    var q := View(pq, ring);
    if key in Keys(q) {
      var i :| 0 <= i < |q| && Keys(q)[i] == key;
      assert NodeAt(pq, ring, i + 1) && ring[i + 1] == key;
      assert ring[0] != ring[i + 1] && ring[i + 1] != ring[|ring| - 1];
    }
    if key in pq && !Sentinel(key) {
      var i :| 0 <= i < |ring| && ring[i] == key;
      assert Keys(q)[i - 1] == key;
    }
  }

  /** The neighbours stored in a node are its neighbours in the queue. */
  lemma ViewGet(pq: Table, ring: seq<Uuid>, i: nat)
    requires Linked(pq, ring) && 0 < i < |ring| - 1
    ensures ring[i] in pq
    ensures Get(View(pq, ring), ring[i])
         == Found(EntryAt(pq, ring[i]), pq[ring[i]].prev, pq[ring[i]].next)
  {
    var q := View(pq, ring);
    ViewPosition(pq, ring, i);
    assert NodeAt(pq, ring, i);
    assert q[i - 1] == EntryAt(pq, ring[i]);
    assert i > 1 ==> q[i - 2].key == ring[i - 1];
    assert i < |q| ==> q[i].key == ring[i + 1];
  }

  // ---------- dataservice_transaction_submit ----------

  /** Submission keeps the list and appends to it, unless the very first submission names a
      sentinel: then the new node is overwritten by a sentinel and no list remains. */
  method SubmitNode(pq: Table, key: Uuid, artifact: Uuid, cert: Certificate, state: TxnState, ghost ring: seq<Uuid>)
    returns (status: Status, t: Table, ghost ring': seq<Uuid>)
    requires Represents(pq, ring)
    ensures status == if key in pq then PutFailure else Success
    ensures status != Success ==> t == pq
    ensures pq == map[] && Sentinel(key) ==> forall r :: !Represents(t, r)
    ensures !(pq == map[] && Sentinel(key)) ==>
      Represents(t, ring') && View(t, ring') == Submit(View(pq, ring), key, artifact, cert, state)
    ensures status == Success && !(pq == map[] && Sentinel(key)) ==>
      key in t && t[key] == Node(key, ring[|ring| - 2], Ones, artifact, Zero, cert, state)
  {
    t, ring' := pq, ring;
    ViewMembers(pq, ring, key);
    Initialized(pq, ring);
    var initialized := Ones in pq;
    var prev := if initialized then pq[Ones].prev else Zero;
    var added := Node(key, prev, Ones, artifact, Zero, cert, state);
    if key in pq {
      return PutFailure, pq, ring;
    }
    t := t[key := added];
    if !initialized {
      var start := Node(Zero, Zero, key, Zero, Zero, NO_CERTIFICATE, Unknown);
      var end := Node(Ones, key, Ones, Zero, Zero, NO_CERTIFICATE, Unknown);
      t := t[Zero := start];
      t := t[Ones := end];
      ring' := [Zero, key, Ones];
      if Sentinel(key) {
        NoListOfTwo(t);
      } else {
        ListOfThree(t, key);
        assert View(pq, ring) == [] && View(t, ring') == [Entry(key, artifact, cert, state)];
      }
    } else {
      var end := pq[Ones];
      assert NodeAt(pq, ring, |ring| - 1) && NodeAt(pq, ring, |ring| - 2);
      t := t[end.prev := t[end.prev].(next := key)];
      t := t[end.key := end.(prev := key)];
      ring' := ring[..|ring| - 1] + [key, Ones];
      AppendLinked(pq, ring, added, t);
    }
    status := Success;
  }

  /** The two sentinels with one node between them. */
  lemma ListOfThree(t: Table, key: Uuid)
    requires t.Keys == {Zero, key, Ones} && !Sentinel(key)
    requires t[Zero].key == Zero && t[Zero].next == key && t[Zero].cert == NO_CERTIFICATE
    requires t[key].key == key && t[key].prev == Zero && t[key].next == Ones
    requires t[Ones].key == Ones && t[Ones].prev == key && t[Ones].cert == NO_CERTIFICATE
    ensures Represents(t, [Zero, key, Ones])
  {
    var ring := [Zero, key, Ones];
    assert NodeAt(t, ring, 0) && NodeAt(t, ring, 1) && NodeAt(t, ring, 2);
  }

  /** Two sentinels alone, one of them naming itself, are no list. */
  lemma NoListOfTwo(t: Table)
    requires t.Keys == {Zero, Ones}
    requires t[Zero].next == t[Ones].prev && Sentinel(t[Zero].next)
    ensures forall r :: !Represents(t, r)
  {
    forall r ensures !Represents(t, r) {
      if Linked(t, r) {
        FirstLink(t, r);
      }
    }
  }

  lemma FirstLink(t: Table, r: seq<Uuid>)
    requires Linked(t, r)
    ensures Zero in t && r[1] in t && t[Zero].next == r[1] && t[r[1]].prev == Zero && r[1] != Zero
  {
    assert NodeAt(t, r, 0) && NodeAt(t, r, 1);
  }

  /** The table once a node has been put in front of the end sentinel. */
  ghost predicate Appended(pq: Table, ring: seq<Uuid>, added: Node, t: Table) {
    && Linked(pq, ring) && added.key !in pq && added.next == Ones
    && Ones in pq && added.prev == pq[Ones].prev && added.prev in pq
    && t == pq[added.key := added][added.prev := pq[added.prev].(next := added.key)]
                [Ones := pq[Ones].(prev := added.key)]
  }

  lemma AppendLinked(pq: Table, ring: seq<Uuid>, added: Node, t: Table)
    requires Appended(pq, ring, added, t)
    ensures Linked(t, ring[..|ring| - 1] + [added.key, Ones])
    ensures View(t, ring[..|ring| - 1] + [added.key, Ones])
         == View(pq, ring) + [Entry(added.key, added.artifact, added.cert, added.state)]
  {
    var r := ring[..|ring| - 1] + [added.key, Ones];
    forall i | 0 <= i < |r| ensures NodeAt(t, r, i) {
      AppendedNode(pq, ring, added, t, i);
    }
    AppendedRing(pq, ring, added, t);
    AppendedView(pq, ring, added, t);
  }

  lemma AppendedNode(pq: Table, ring: seq<Uuid>, added: Node, t: Table, i: nat)
    requires Appended(pq, ring, added, t) && i <= |ring|
    ensures NodeAt(t, ring[..|ring| - 1] + [added.key, Ones], i)
  {
    var n := |ring|;
    assert NodeAt(pq, ring, n - 1) && NodeAt(pq, ring, n - 2);
    if i < n - 1 {
      assert NodeAt(pq, ring, i) && ring[i] != ring[n - 1];
      if i < n - 2 { assert ring[i] != ring[n - 2]; }
    }
  }

  lemma AppendedRing(pq: Table, ring: seq<Uuid>, added: Node, t: Table)
    requires Appended(pq, ring, added, t)
    ensures var r := ring[..|ring| - 1] + [added.key, Ones];
      Distinct(r) && forall k :: k in t ==> k in r
  {
    var n := |ring|;
    var r := ring[..n - 1] + [added.key, Ones];
    forall k | k in t ensures k in r {
      if k in ring {
        var i :| 0 <= i < n && ring[i] == k;
        assert k == if i < n - 1 then r[i] else r[n];
      } else {
        assert k == r[n - 1];
      }
    }
    forall i | 0 <= i < n - 1 ensures ring[i] != added.key && ring[i] != Ones {
      assert NodeAt(pq, ring, i) && ring[i] != ring[n - 1];
    }
    assert NodeAt(pq, ring, n - 1);
  }

  lemma AppendedView(pq: Table, ring: seq<Uuid>, added: Node, t: Table)
    requires Appended(pq, ring, added, t)
    ensures View(t, ring[..|ring| - 1] + [added.key, Ones])
         == View(pq, ring) + [Entry(added.key, added.artifact, added.cert, added.state)]
  {
    var n := |ring|;
    var r := ring[..n - 1] + [added.key, Ones];
    var q, q' := View(pq, ring), View(t, r);
    assert NodeAt(pq, ring, n - 1) && NodeAt(pq, ring, n - 2);
    forall i | 0 <= i < |q| ensures q'[i] == q[i] {
      assert NodeAt(pq, ring, i + 1) && ring[i + 1] != ring[n - 1];
      assert r[i + 1] == ring[i + 1];
    }
    assert q'[n - 2] == EntryAt(t, added.key);
  }

  // ---------- dataservice_transaction_drop ----------

  /** Dropping a queued transaction closes the gap; anything else is not found. */
  method DropNode(pq: Table, key: Uuid, ghost ring: seq<Uuid>)
    returns (status: Status, t: Table, ghost ring': seq<Uuid>)
    requires Represents(pq, ring)
    ensures status == if key in Keys(View(pq, ring)) then Success else NotFound
    ensures Represents(t, ring') && View(t, ring') == Drop(View(pq, ring), key)
    ensures t.Keys == pq.Keys - (if status == Success then {key} else {})
  {
    t, ring' := pq, ring;
    ViewMembers(pq, ring, key);
    if Sentinel(key) {
      return NotFound, pq, ring;
    }
    if key !in pq {
      return NotFound, pq, ring;
    }
    ghost var i :| 0 < i < |ring| - 1 && ring[i] == key;
    var node := pq[key];
    t := t - {key};
    assert NodeAt(pq, ring, i - 1) && NodeAt(pq, ring, i) && NodeAt(pq, ring, i + 1);
    assert ring[i - 1] != ring[i] && ring[i] != ring[i + 1] && ring[i - 1] != ring[i + 1];
    t := t[node.prev := t[node.prev].(next := node.next)];
    t := t[node.next := t[node.next].(prev := node.prev)];
    ring' := ring[..i] + ring[i + 1..];
    RemoveLinked(pq, ring, i, t);
    RemoveView(pq, ring, i, t);
    status := Success;
  }

  lemma RemoveLinked(pq: Table, ring: seq<Uuid>, i: nat, t: Table)
    requires Linked(pq, ring) && 0 < i < |ring| - 1
    requires ring[i - 1] in pq && ring[i + 1] in pq && ring[i - 1] != ring[i + 1]
    requires t == (pq - {ring[i]})[ring[i - 1] := pq[ring[i - 1]].(next := ring[i + 1])]
                    [ring[i + 1] := pq[ring[i + 1]].(prev := ring[i - 1])]
    ensures Linked(t, ring[..i] + ring[i + 1..])
  {
    var r := ring[..i] + ring[i + 1..];
    RingWithout(ring, i);
    forall j | 0 <= j < |r| ensures NodeAt(t, r, j) {
      RemovedNode(pq, ring, i, t, j);
    }
    assert NodeAt(pq, ring, i - 1) && NodeAt(pq, ring, i + 1) && ring[i - 1] != ring[i] && ring[i] != ring[i + 1];
    assert forall k :: k in t ==> k in pq && k != ring[i];
  }

  lemma RemoveView(pq: Table, ring: seq<Uuid>, i: nat, t: Table)
    requires Linked(pq, ring) && 0 < i < |ring| - 1
    requires ring[i - 1] in pq && ring[i + 1] in pq && ring[i - 1] != ring[i + 1]
    requires t == (pq - {ring[i]})[ring[i - 1] := pq[ring[i - 1]].(next := ring[i + 1])]
                    [ring[i + 1] := pq[ring[i + 1]].(prev := ring[i - 1])]
    ensures View(t, ring[..i] + ring[i + 1..]) == Drop(View(pq, ring), ring[i])
  {
    var r := ring[..i] + ring[i + 1..];
    ViewPosition(pq, ring, i);
    forall j | 0 <= j < |ring| - 1 ensures EntryAt(t, r[j]) == EntryAt(pq, r[j]) {
      RemovedNode(pq, ring, i, t, j);
    }
    ViewRemoved(pq, t, ring, i);
  }

  lemma ViewRemoved(pq: Table, t: Table, ring: seq<Uuid>, i: nat)
    requires 0 < i < |ring| - 1
    requires var r := ring[..i] + ring[i + 1..]; forall j :: 0 <= j < |r| ==> EntryAt(t, r[j]) == EntryAt(pq, r[j])
    ensures View(t, ring[..i] + ring[i + 1..]) == RemoveAt(View(pq, ring), i - 1)
  {
    var r := ring[..i] + ring[i + 1..];
    forall j | 0 <= j < |ring| - 3 ensures View(t, r)[j] == RemoveAt(View(pq, ring), i - 1)[j] {
      RemovedEntry(pq, ring, i, j);
    }
  }

  lemma RemovedEntry(pq: Table, ring: seq<Uuid>, i: nat, j: nat)
    requires 0 < i < |ring| - 1 && j < |ring| - 3
    ensures RemoveAt(View(pq, ring), i - 1)[j] == EntryAt(pq, (ring[..i] + ring[i + 1..])[j + 1])
  {
    var k := if j < i - 1 then j else j + 1;
    assert (ring[..i] + ring[i + 1..])[j + 1] == ring[k + 1];
    assert RemoveAt(View(pq, ring), i - 1)[j] == View(pq, ring)[k];
  }

  lemma RemovedNode(pq: Table, ring: seq<Uuid>, i: nat, t: Table, j: nat)
    requires Linked(pq, ring) && 0 < i < |ring| - 1
    requires ring[i - 1] in pq && ring[i + 1] in pq && ring[i - 1] != ring[i + 1]
    requires t == (pq - {ring[i]})[ring[i - 1] := pq[ring[i - 1]].(next := ring[i + 1])]
                    [ring[i + 1] := pq[ring[i + 1]].(prev := ring[i - 1])]
    requires j < |ring| - 1
    ensures var r := ring[..i] + ring[i + 1..];
      NodeAt(t, r, j) && EntryAt(t, r[j]) == EntryAt(pq, r[j])
  {
    var k := if j < i then j else j + 1;
    assert NodeAt(pq, ring, k) && NodeAt(pq, ring, i - 1) && NodeAt(pq, ring, i + 1);
    assert ring[i - 1] != ring[i] && ring[i] != ring[i + 1] && ring[k] != ring[i];
    assert ring[k] == ring[i - 1] <==> k == i - 1;
    assert ring[k] == ring[i + 1] <==> k == i + 1;
    RemovedCell(pq, ring[i - 1], ring[i], ring[i + 1], t, ring[k]);
    RingAt(ring, i, j);
  }

  /** What happens to the node stored under `k`. */
  lemma RemovedCell(pq: Table, before: Uuid, gone: Uuid, after: Uuid, t: Table, k: Uuid)
    requires before in pq && after in pq && k in pq && before != after && gone != before && gone != after && k != gone
    requires t == (pq - {gone})[before := pq[before].(next := after)][after := pq[after].(prev := before)]
    ensures k in t
    ensures t[k] == if k == before then pq[k].(next := after)
                    else if k == after then pq[k].(prev := before) else pq[k]
  {}

  lemma RingAt(ring: seq<Uuid>, i: nat, j: nat)
    requires i < |ring| && j < |ring| - 1
    ensures var r := ring[..i] + ring[i + 1..];
      && |r| == |ring| - 1
      && r[j] == (if j < i then ring[j] else ring[j + 1])
      && (j > 0 ==> r[j - 1] == if j <= i then ring[j - 1] else ring[j])
      && (j + 1 < |r| ==> r[j + 1] == if j + 1 < i then ring[j + 1] else ring[j + 2])
  {}

  lemma RingWithout(ring: seq<Uuid>, i: nat)
    requires Distinct(ring) && i < |ring|
    ensures var r := ring[..i] + ring[i + 1..];
      Distinct(r) && forall k :: k in r <==> k in ring && k != ring[i]
  {
    var r := ring[..i] + ring[i + 1..];
    forall j | 0 <= j < |r| ensures r[j] == ring[if j < i then j else j + 1] {}
    forall k ensures k in r <==> k in ring && k != ring[i] {
      if k in ring && k != ring[i] {
        var j :| 0 <= j < |ring| && ring[j] == k;
        assert r[if j < i then j else j - 1] == k;
      }
    }
  }

  // ---------- dataservice_transaction_promote ----------

  method PromoteNode(pq: Table, key: Uuid, ghost ring: seq<Uuid>)
    returns (status: Status, t: Table)
    requires Represents(pq, ring)
    ensures status == if key in Keys(View(pq, ring)) then Success else NotFound
    ensures Represents(t, ring) && View(t, ring) == Promote(View(pq, ring), key)
    ensures t.Keys == pq.Keys && forall k :: k in t ==> t[k].block == pq[k].block
  {
    t := pq;
    ViewMembers(pq, ring, key);
    if Sentinel(key) {
      return NotFound, pq;
    }
    if key !in pq {
      return NotFound, pq;
    }
    t := t[key := t[key].(state := Attested)];
    PromotedLinked(pq, ring, key);
    PromotedView(pq, ring, key);
    status := Success;
  }

  lemma PromotedLinked(pq: Table, ring: seq<Uuid>, key: Uuid)
    requires Represents(pq, ring) && key in pq && !Sentinel(key)
    ensures Linked(pq[key := pq[key].(state := Attested)], ring)
  {
    var t := pq[key := pq[key].(state := Attested)];
    forall j | 0 <= j < |ring| ensures NodeAt(t, ring, j) {
      assert NodeAt(pq, ring, j);
    }
  }

  lemma PromotedView(pq: Table, ring: seq<Uuid>, key: Uuid)
    requires Represents(pq, ring) && key in pq && !Sentinel(key)
    ensures View(pq[key := pq[key].(state := Attested)], ring) == Promote(View(pq, ring), key)
  {
    var t := pq[key := pq[key].(state := Attested)];
    ViewMembers(pq, ring, key);
    var i :| 0 < i < |ring| - 1 && ring[i] == key;
    ViewPosition(pq, ring, i);
    PromotedEntries(pq, ring, i, t);
  }

  lemma PromotedEntries(pq: Table, ring: seq<Uuid>, i: nat, t: Table)
    requires Distinct(ring) && 0 < i < |ring| - 1 && ring[i] in pq
    requires t == pq[ring[i] := pq[ring[i]].(state := Attested)]
    ensures var q := View(pq, ring); View(t, ring) == q[i - 1 := q[i - 1].(state := Attested)]
  {
    var q := View(pq, ring);
    forall j | 0 <= j < |q| ensures View(t, ring)[j] == if j == i - 1 then q[j].(state := Attested) else q[j] {
      PromotedEntry(pq, ring[i], ring[j + 1], t);
    }
  }

  lemma PromotedEntry(pq: Table, key: Uuid, k: Uuid, t: Table)
    requires key in pq && t == pq[key := pq[key].(state := Attested)]
    ensures EntryAt(t, k) == if k == key then EntryAt(pq, k).(state := Attested) else EntryAt(pq, k)
  {}

  // ---------- dataservice_transaction_get and _get_first ----------

  /** Reading a node gives the entry and its two neighbours in the queue.  A node with an empty
      certificate is refused, which is also how the sentinels are refused. */
  method ReadNode(pq: Table, key: Uuid, ghost ring: seq<Uuid>) returns (status: Status, answer: Lookup)
    requires Represents(pq, ring)
    ensures Sentinel(key) ==> status == if key in pq then InvalidStoredNode else NotFound
    ensures !Sentinel(key) ==>
      match Get(View(pq, ring), key)
      case Missing => status == NotFound
      case Found(e, _, _) => status == if e.cert.bytes == [] then InvalidStoredNode else Success
    ensures answer == if status == Success then Get(View(pq, ring), key) else Missing
  {
    ViewMembers(pq, ring, key);
    if key !in pq {
      return NotFound, Missing;
    }
    assert NodeAt(pq, ring, 0) && NodeAt(pq, ring, |ring| - 1);
    var node := pq[key];
    if |node.cert.bytes| == 0 {
      if !Sentinel(key) {
        ghost var i :| 0 < i < |ring| - 1 && ring[i] == key;
        ViewGet(pq, ring, i);
      }
      return InvalidStoredNode, Missing;
    }
    ghost var i :| 0 < i < |ring| - 1 && ring[i] == key;
    ViewGet(pq, ring, i);
    assert NodeAt(pq, ring, i);
    return Success, Found(Entry(node.key, node.artifact, node.cert, node.state), node.prev, node.next);
  }

  /** The first of the two reads of dataservice_transaction_get_first: the head's key. */
  method ReadFirstKey(pq: Table, ghost ring: seq<Uuid>) returns (status: Status, key: Uuid)
    requires Represents(pq, ring)
    ensures status == if View(pq, ring) == [] then NotFound else Success
    ensures status == Success ==> key == View(pq, ring)[0].key
  {
    Initialized(pq, ring);
    assert View(pq, ring) == [] <==> |ring| == 2;
    if Zero !in pq {
      return NotFound, Zero;
    }
    assert NodeAt(pq, ring, 0);
    var first := pq[Zero];
    assert |ring| > 2 ==> ring[1] != ring[|ring| - 1];
    if first.next == Ones {
      return NotFound, Zero;
    }
    return Success, first.next;
  }
}
