/** The attestation service instance: two trees that live for one round, over the data service. */
module Attestor {
  import opened Ids
  import opened Ledger
  import opened ProcessQueue
  import opened Database
  import opened Attestation

  /** Which of the calls behind remembering fail: making a transaction record, inserting it, and
      making, reading or inserting an artifact record. */
  datatype TreeFaults = TreeFaults(txnRecord: bool, txnInsert: bool, artifact: bool)

  const NO_TREE_FAULTS := TreeFaults(false, false, false)

  class Instance {
    const data: DataService
    var transactionTree: map<Uuid, Entry>
    var artifactTree: Artifacts

    constructor (d: DataService)
      ensures data == d && Memory() == NOTHING
    {
      data := d;
      transactionTree, artifactTree := map[], map[];
    }

    function Memory(): Memory
      reads this
    {
      Attestation.Memory(transactionTree, artifactTree)
    }

    /** The tables of the data service, as a verifier sees them. */
    function Tables(): Db
      reads data
    {
      Db(data.artifacts, data.txns, data.blocks)
    }

    /** The artifact record from the tree, or else from the data service. */
    method GetOrQueryArtifact(artifact: Uuid) returns (record: Option<ArtifactRecord>)
      requires data.Valid()
      ensures record == Known(Memory(), data.artifacts, artifact)
      ensures artifact !in artifactTree ==>
        AllComplete(Rows(data.chain)) && (record.Some? <==> LastRow(Rows(data.chain), artifact) >= 0)
    {
      if artifact in artifactTree {
        return Some(artifactTree[artifact]);
      }
      var status, found := data.GetArtifact(artifact);
      if status != Success {
        return None;
      }
      return found;
    }

    method UpdateOrInsertArtifact(record: ArtifactRecord)
      modifies `artifactTree
      ensures artifactTree == Upsert(old(artifactTree), record)
    {
      if record.key !in artifactTree {
        artifactTree := artifactTree[record.key := record];
        return;
      }
      var curr := artifactTree[record.key];
      artifactTree := artifactTree[record.key := curr.(latest := record.latest, state := record.state)];
    }

    /** Remembering fails when a record cannot be made, a tree refuses one, or the artifact is
        unknown away from the head of the queue. */
    method TransactionTreeInsert(e: Entry, prev: Uuid, f: TreeFaults) returns (ok: bool)
      requires data.Valid()
      modifies this
      ensures ok <==> f == NO_TREE_FAULTS && Remembered(old(Memory()), data.artifacts, e, prev).Some?
      ensures ok ==> Memory() == Remembered(old(Memory()), data.artifacts, e, prev).value
    {
      if f.txnRecord || f.txnInsert {
        return false;
      }
      transactionTree := transactionTree[e.key := e];
      if f.artifact {
        return false;
      }
      if prev == Zero {
        UpdateOrInsertArtifact(ArtifactRecord(e.artifact, e.key, e.key, 0, 0, Code(e.state)));
      } else {
        var found := GetOrQueryArtifact(e.artifact);
        if found.None? {
          return false;
        }
        UpdateOrInsertArtifact(found.value.(latest := e.key, state := Code(e.state)));
      }
      return true;
    }

    /** Promotion reaches the database first; a failure to remember it comes too late. */
    method PromoteTransaction(e: Entry, prev: Uuid, f: TreeFaults) returns (ok: bool)
      requires data.Valid() && data as object != this
      modifies this, data`pq
      ensures data.Valid()
      ensures data.Contents() == Store(Promote(old(data.Contents()).queue, e.key), old(data.chain))
      ensures ok <==> e.key in Keys(old(data.Contents()).queue) && f == NO_TREE_FAULTS
                      && Remembered(old(Memory()), data.artifacts, e, prev).Some?
      ensures ok ==> Memory() == Remembered(old(Memory()), data.artifacts, e, prev).value
    {
      var status := data.Promote(e.key);
      if status != Success {
        return false;
      }
      ok := TransactionTreeInsert(e, prev, f);
    }

    /** The next pending transaction, by key. */
    method QueryPending(key: Uuid) returns (status: Status, answer: Lookup)
      requires data.Valid() && !Sentinel(key)
      ensures status == Success ==>
        answer == Get(data.Contents().queue, key) && answer.Found? && answer.entry.cert.bytes != []
      ensures status != Success ==> match Get(data.Contents().queue, key)
        case Missing => true
        case Found(e, _, _) => e.cert.bytes == []
    {
      status, answer := data.Get(key);
    }

    /** One decision: the queue and the memory move as the round prescribes for position `p`. */
    method Decide(e: Entry, prev: Uuid, v: Verifiers, ghost p: nat) returns (accepted: bool, ok: bool)
      requires data.Valid() && data as object != this
      requires p < |data.Contents().queue| && e == data.Contents().queue[p] && prev == PrevKey(data.Contents().queue, p)
      modifies this, data`pq, data`ring
      ensures data.Valid()
      ensures accepted <==>
        && v.fields(old(Memory()), Tables(), e)
        && v.sequence(old(Memory()), Tables(), e)
        && v.unique(old(Memory()), Tables(), e)
      ensures data.Contents().queue ==
        if accepted then PromotedAt(old(data.Contents()).queue, p) else RemoveAt(old(data.Contents()).queue, p)
      ensures ok <==> !accepted || Remembered(old(Memory()), data.artifacts, e, prev).Some?
      ensures ok && accepted ==> Memory() == Remembered(old(Memory()), data.artifacts, e, prev).value
      ensures !accepted ==> Memory() == old(Memory())
    {
      var m, db := Memory(), Tables();
      accepted := v.fields(m, db, e) && v.sequence(m, db, e) && v.unique(m, db, e);
      if accepted {
        ok := AcceptNode(e, prev, p);
      } else {
        RejectNode(e, p);
        ok := true;
      }
    }

    method AcceptNode(e: Entry, prev: Uuid, ghost p: nat) returns (ok: bool)
      requires data.Valid() && data as object != this
      requires p < |data.Contents().queue| && e == data.Contents().queue[p]
      modifies this, data`pq
      ensures data.Valid() && data.Contents().queue == PromotedAt(old(data.Contents()).queue, p)
      ensures ok <==> Remembered(old(Memory()), data.artifacts, e, prev).Some?
      ensures ok ==> Memory() == Remembered(old(Memory()), data.artifacts, e, prev).value
    {
      KeyAt(data.pq, data.ring, p);
      ok := PromoteTransaction(e, prev, NO_TREE_FAULTS);
    }

    /** The status of a drop is ignored. */
    method RejectNode(e: Entry, ghost p: nat)
      requires data.Valid() && p < |data.Contents().queue| && e == data.Contents().queue[p]
      modifies data`pq, data`ring
      ensures data.Valid() && data.Contents().queue == RemoveAt(old(data.Contents()).queue, p)
    {
      KeyAt(data.pq, data.ring, p);
      var status := data.Drop(e.key);
    }

    /** The answer read last is the node at position `p`. */
    ghost predicate AtNode(answer: Lookup, p: nat)
      reads data
      requires data.Valid()
    {
      var q := data.Contents().queue;
      p < |q| && answer == Found(q[p], PrevKey(q, p), NextKey(q, p)) && q[p].cert.bytes != []
    }

    /** One turn of the loop: decide, then read the next node if there is one. */
    method Advance(answer: Lookup, v: Verifiers, ghost p: nat)
      returns (ok: bool, more: bool, answer': Lookup, ghost p': nat)
      requires data.Valid() && data as object != this && AtNode(answer, p)
      modifies this, data`pq, data`ring
      ensures data.Valid()
      ensures var o := AttestFrom(old(data.Contents()).queue, p, old(Memory()), Tables(), v);
        && (!ok ==> !o.ok && data.Contents().queue == o.queue)
        && (ok ==> p' <= |data.Contents().queue| && AttestFrom(data.Contents().queue, p', Memory(), Tables(), v) == o)
      ensures ok && more ==> AtNode(answer', p')
      ensures ok && !more ==> p' == |data.Contents().queue|
      ensures |data.Contents().queue| - p' < old(|data.Contents().queue|) - p
    {
      ghost var q, m := data.Contents().queue, Memory();
      var e, next := answer.entry, answer.next;
      answer', more := answer, false;
      NextAt(data.pq, data.ring, p);
      var accepted;
      accepted, ok := Decide(e, answer.prev, v, p);
      p' := if accepted then p + 1 else p;
      Decided(q, p, m, Tables(), v, ok, data.Contents().queue, Memory());
      if ok && next != Ones {
        ok, answer' := ReadNext(next, p');
        more := true;
      }
    }

    /** The node at position `p`, by its key; only an empty certificate makes it unreadable. */
    method ReadNext(key: Uuid, ghost p: nat) returns (ok: bool, answer: Lookup)
      requires data.Valid() && p < |data.Contents().queue| && data.Contents().queue[p].key == key
      ensures ok ==> AtNode(answer, p)
      ensures !ok ==> data.Contents().queue[p].cert.bytes == []
    {
      KeyAt(data.pq, data.ring, p);
      var status;
      status, answer := QueryPending(key);
      ok := status == Success;
    }

    /** A round of attestation over a queue nobody else touches. */
    method DoAttestation(v: Verifiers) returns (ok: bool)
      requires data.Valid() && data as object != this
      modifies this, data`pq, data`ring
      ensures data.Valid()
      ensures var o := AttestRound(old(data.Contents()).queue, old(Memory()), Tables(), v);
        data.Contents().queue == o.queue && ok == o.ok && (ok ==> Memory() == o.memory)
      ensures old(data.Contents()).queue == [] || old(data.Contents()).queue[0].state == Attested ==>
        data.Contents() == old(data.Contents())
    {
      var status, key := data.FirstKey();
      if status == NotFound {
        return true;
      }
      KeyAt(data.pq, data.ring, 0);
      var answer;
      status, answer := QueryPending(key);
      if status != Success {
        return false;
      }
      if answer.entry.state != Submitted {
        return true;
      }
      ok := Loop(answer, v);
    }

    /** The loop, from the head on. */
    method Loop(first: Lookup, v: Verifiers) returns (ok: bool)
      requires data.Valid() && data as object != this && AtNode(first, 0)
      modifies this, data`pq, data`ring
      ensures data.Valid()
      ensures var o := AttestFrom(old(data.Contents()).queue, 0, old(Memory()), Tables(), v);
        data.Contents().queue == o.queue && ok == o.ok && (ok ==> Memory() == o.memory)
    {
      ghost var o := AttestFrom(data.Contents().queue, 0, Memory(), Tables(), v);
      ghost var p: nat := 0;
      var answer, more := first, true;
      while more
        invariant data.Valid()
        invariant p <= |data.Contents().queue|
        invariant if more then AtNode(answer, p) else p == |data.Contents().queue|
        invariant AttestFrom(data.Contents().queue, p, Memory(), Tables(), v) == o
        decreases |data.Contents().queue| - p
      {
        ok, more, answer, p := Advance(answer, v, p);
        if !ok {
          return;
        }
      }
      return true;
    }

    /** One turn of the event loop after its sleep: a round, then both trees are cleared. */
    method Turn(v: Verifiers) returns (ok: bool)
      requires data.Valid() && data as object != this && Memory() == NOTHING
      modifies this, data`pq, data`ring
      ensures data.Valid()
      ensures var o := AttestRound(old(data.Contents()).queue, NOTHING, Tables(), v);
        data.Contents().queue == o.queue && ok == o.ok
      ensures ok ==> Memory() == NOTHING
    {
      ok := DoAttestation(v);
      if ok {
        transactionTree, artifactTree := map[], map[];
      }
    }
  }

  /** A queued key is no sentinel and is found where it stands. */
  lemma KeyAt(pq: Table, ring: seq<Uuid>, p: nat)
    requires Represents(pq, ring)
    ensures p < |View(pq, ring)| ==>
      var q := View(pq, ring);
      && !Sentinel(q[p].key) && q[p].key in Keys(q) && Position(q, q[p].key) == p
      && Get(q, q[p].key) == Found(q[p], PrevKey(q, p), NextKey(q, p))
  {
    var q := View(pq, ring);
    if p < |q| {
      QueueDistinct(pq, ring);
      assert Keys(q)[p] == q[p].key;
      ViewMembers(pq, ring, q[p].key);
      var r := Position(q, q[p].key);
      assert Keys(q)[r] == q[r].key;
    }
  }

  /** What follows a node: the key of the next one, or the end sentinel, which is no key. */
  lemma NextAt(pq: Table, ring: seq<Uuid>, p: nat)
    requires Represents(pq, ring) && p < |View(pq, ring)|
    ensures var q := View(pq, ring);
      (NextKey(q, p) == Ones <==> p + 1 == |q|) && (p + 1 < |q| ==> NextKey(q, p) == q[p + 1].key)
  {
    KeyAt(pq, ring, p + 1);
  }
}
