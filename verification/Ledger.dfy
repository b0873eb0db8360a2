/** The data service seen from outside: a process queue of pending transactions and a chain of
    blocks, with the five operations its clients use.  The databases behind it are refined to
    this view in ProcessQueue.dfy and Database.dfy. */
module Ledger {
  import opened Ids

  /** A pending transaction. */
  datatype Entry = Entry(key: Uuid, artifact: Uuid, cert: Certificate, state: TxnState)

  /** A block of the chain. */
  datatype Block = Block(
    id: Uuid,
    prev: Uuid,
    height: nat,
    prevSig: seq<byte>,
    certs: seq<Certificate>,
    sig: Option<seq<byte>>)

  datatype Store = Store(queue: seq<Entry>, chain: seq<Block>)

  /** The answer to a process queue read. */
  datatype Lookup = Missing | Found(entry: Entry, prev: Uuid, next: Uuid)

  // ---------- the process queue ----------

  function Keys(q: seq<Entry>): (ks: seq<Uuid>)
    ensures |ks| == |q|
    ensures forall i :: 0 <= i < |q| ==> ks[i] == q[i].key
  {
    seq(|q|, i requires 0 <= i < |q| => q[i].key)
  }

  predicate Distinct(ids: seq<Uuid>) {
    forall i, j :: 0 <= i < j < |ids| ==> ids[i] != ids[j]
  }

  function KeySet(q: seq<Entry>): set<Uuid> {
    set k | k in Keys(q)
  }

  /** Position of a key in the queue, or the queue's length when it is not there. */
  function Position(q: seq<Entry>, key: Uuid): (p: nat)
    ensures p <= |q|
    ensures p < |q| ==> q[p].key == key
    ensures p < |q| <==> key in Keys(q)
    ensures forall i :: 0 <= i < p ==> q[i].key != key
  {
    KeysMember(q, key);
    if q == [] then 0
    else if q[0].key == key then 0
    else
      KeysMember(q[1..], key);
      var p := Position(q[1..], key);
      assert forall i :: 1 <= i < |q| ==> q[i] == q[1..][i - 1];
      p + 1
  }

  function NextKey(q: seq<Entry>, i: nat): Uuid {
    if i + 1 < |q| then q[i + 1].key else Ones
  }

  function PrevKey(q: seq<Entry>, i: nat): Uuid
    requires i <= |q|
  {
    if i == 0 then Zero else q[i - 1].key
  }

  function Get(q: seq<Entry>, key: Uuid): Lookup {
    var p := Position(q, key);
    if p < |q| then Found(q[p], PrevKey(q, p), NextKey(q, p)) else Missing
  }

  function RemoveAt(q: seq<Entry>, i: nat): seq<Entry>
    requires i < |q|
  {
    q[..i] + q[i + 1..]
  }

  function Drop(q: seq<Entry>, key: Uuid): seq<Entry> {
    var p := Position(q, key);
    if p < |q| then RemoveAt(q, p) else q
  }

  function Promote(q: seq<Entry>, key: Uuid): seq<Entry> {
    var p := Position(q, key);
    if p < |q| then q[p := q[p].(state := Attested)] else q
  }

  /** The queue after the transactions of a block have left it. */
  function Without(q: seq<Entry>, gone: set<Uuid>): seq<Entry> {
    if q == [] then []
    else if q[0].key in gone then Without(q[1..], gone)
    else [q[0]] + Without(q[1..], gone)
  }

  // ---------- the chain ----------

  function Latest(chain: seq<Block>): Uuid {
    if chain == [] then Root else chain[|chain| - 1].id
  }

  function BlockIds(chain: seq<Block>): set<Uuid> {
    set i | 0 <= i < |chain| :: chain[i].id
  }

  /** Transaction ids in a list of certificates. */
  function CertIds(certs: seq<Certificate>): (ids: seq<Uuid>)
    ensures |ids| == |certs|
  {
    seq(|certs|, i requires 0 <= i < |certs| => if certs[i].id.Some? then certs[i].id.value else Zero)
  }

  function IdSet(certs: seq<Certificate>): set<Uuid> {
    set k | k in CertIds(certs)
  }

  /** All canonized transactions, in chain order. */
  function History(chain: seq<Block>): seq<Certificate> {
    if chain == [] then [] else History(chain[..|chain| - 1]) + chain[|chain| - 1].certs
  }

  predicate SaneBlockId(id: Uuid) {
    !Sentinel(id) && id != Root
  }

  /** When the data service can move every certificate of a block from the queue to the ledger. */
  predicate Processable(queued: set<Uuid>, done: set<Uuid>, certs: seq<Certificate>) {
    && (forall i :: 0 <= i < |certs| ==>
          && certs[i].Complete()
          && certs[i].id.value in queued
          && certs[i].id.value !in done
          && PrevKnown(done, certs, i))
    && Distinct(CertIds(certs))
  }

  /** The previous transaction a certificate names is none, canonized, or earlier in the block. */
  predicate PrevKnown(done: set<Uuid>, certs: seq<Certificate>, i: nat)
    requires i < |certs| && certs[i].prev.Some?
  {
    || certs[i].prev.value == Zero
    || certs[i].prev.value in done
    || certs[i].prev.value in CertIds(certs[..i + 1])
  }

  /** When the data service accepts a block. */
  predicate Accepts(s: Store, id: Uuid, b: BlockCert) {
    && b.height == Some(|s.chain| + 1)
    && b.prev == Some(Latest(s.chain))
    && b.id == Some(id)
    && SaneBlockId(id)
    && id !in BlockIds(s.chain)
    && b.certs != []
    && Processable(KeySet(s.queue), IdSet(History(s.chain)), b.certs)
  }

  function BlockOf(b: BlockCert): Block
    requires b.id.Some? && b.prev.Some? && b.height.Some?
  {
    Block(b.id.value, b.prev.value, b.height.value, b.prevSig, b.certs, b.sig)
  }

  /** Block write: all or nothing. */
  function Write(s: Store, id: Uuid, b: BlockCert): Store {
    if Accepts(s, id, b)
    then Store(Without(s.queue, IdSet(b.certs)), s.chain + [BlockOf(b)])
    else s
  }

  /** Submission: an id that names a sentinel or a queued transaction is refused. */
  predicate Submittable(q: seq<Entry>, key: Uuid) {
    !Sentinel(key) && key !in Keys(q)
  }

  function Submit(q: seq<Entry>, key: Uuid, artifact: Uuid, cert: Certificate, state: TxnState): seq<Entry> {
    if Submittable(q, key) then q + [Entry(key, artifact, cert, state)] else q
  }

  // ---------- facts about these definitions ----------

  lemma {:induction false} WithoutMembers(q: seq<Entry>, gone: set<Uuid>, e: Entry)
    ensures e in Without(q, gone) <==> e in q && e.key !in gone
  {
    if q != [] {
      WithoutMembers(q[1..], gone, e);
      assert e in q <==> e == q[0] || e in q[1..];
    }
  }

  lemma KeysMember(q: seq<Entry>, key: Uuid)
    ensures key in Keys(q) <==> exists i :: 0 <= i < |q| && q[i].key == key
    ensures key in KeySet(q) <==> key in Keys(q)
  {
    if key in Keys(q) {
      var i :| 0 <= i < |q| && Keys(q)[i] == key;
      assert q[i].key == key;
    }
    if i :| 0 <= i < |q| && q[i].key == key {
      assert Keys(q)[i] == key;
    }
  }

  lemma WithoutKeys(q: seq<Entry>, gone: set<Uuid>)
    ensures KeySet(Without(q, gone)) == KeySet(q) - gone
  {
    var w := Without(q, gone);
    forall k ensures k in KeySet(w) <==> k in KeySet(q) && k !in gone {
      KeysMember(w, k);
      KeysMember(q, k);
      if k in Keys(w) {
        var i :| 0 <= i < |w| && w[i].key == k;
        WithoutMembers(q, gone, w[i]);
        var j :| 0 <= j < |q| && q[j] == w[i];
      }
      if k in Keys(q) && k !in gone {
        var i :| 0 <= i < |q| && q[i].key == k;
        WithoutMembers(q, gone, q[i]);
        var j :| 0 <= j < |w| && w[j] == q[i];
      }
    }
  }

  lemma DistinctSnoc(ids: seq<Uuid>, id: Uuid)
    ensures Distinct(ids + [id]) <==> Distinct(ids) && id !in ids
  {
    var all := ids + [id];
    assert forall i :: 0 <= i < |ids| ==> all[i] == ids[i];
    assert all[|ids|] == id;
  }

  lemma DistinctCons(e: Entry, q: seq<Entry>)
    requires Distinct(Keys(q)) && e.key !in Keys(q)
    ensures Distinct(Keys([e] + q))
  {
    assert Keys([e] + q) == [e.key] + Keys(q);
  }

  lemma {:induction false} WithoutDistinct(q: seq<Entry>, gone: set<Uuid>)
    requires Distinct(Keys(q))
    ensures Distinct(Keys(Without(q, gone)))
  {
    if q != [] {
      DistinctTail(q);
      WithoutDistinct(q[1..], gone);
      if q[0].key !in gone {
        WithoutKeys(q[1..], gone);
        assert q[0].key !in KeySet(q[1..]) && q[0].key !in KeySet(Without(q[1..], gone));
        DistinctCons(q[0], Without(q[1..], gone));
      }
    }
  }

  lemma DistinctTail(q: seq<Entry>)
    requires Distinct(Keys(q)) && q != []
    ensures Distinct(Keys(q[1..]))
    ensures q[0].key !in Keys(q[1..])
  {
    assert forall i :: 0 <= i < |q| - 1 ==> Keys(q[1..])[i] == Keys(q)[i + 1];
  }

  lemma {:induction false} WithoutNone(q: seq<Entry>, gone: set<Uuid>)
    requires forall k :: k in Keys(q) ==> k !in gone
    ensures Without(q, gone) == q
  {
    if q != [] {
      assert Keys(q)[0] == q[0].key;
      assert forall i :: 0 <= i < |q| - 1 ==> Keys(q[1..])[i] == Keys(q)[i + 1];
      WithoutNone(q[1..], gone);
    }
  }

  lemma DropCons(e: Entry, q: seq<Entry>, key: Uuid)
    ensures Drop([e] + q, key) == if e.key == key then q else [e] + Drop(q, key)
  {
    var p := Position(q, key);
    assert ([e] + q)[1..] == q && ([e] + q)[0] == e;
    if e.key == key {
      assert Position([e] + q, key) == 0;
    } else {
      assert Position([e] + q, key) == 1 + p;
      if p < |q| {
        RemoveAtCons(e, q, p);
      }
    }
  }

  lemma RemoveAtCons(e: Entry, q: seq<Entry>, i: nat)
    requires i < |q|
    ensures RemoveAt([e] + q, i + 1) == [e] + RemoveAt(q, i)
  {}

  /** Dropping one more key after a set of keys is removing the larger set. */
  lemma {:induction false} WithoutDrop(q: seq<Entry>, gone: set<Uuid>, key: Uuid)
    requires Distinct(Keys(q))
    ensures Drop(Without(q, gone), key) == Without(q, gone + {key})
  {
    if q != [] {
      DistinctTail(q);
      WithoutDrop(q[1..], gone, key);
      if q[0].key !in gone {
        DropCons(q[0], Without(q[1..], gone), key);
        if q[0].key == key {
          WithoutKeys(q[1..], gone);
          assert key !in KeySet(q[1..]) && key !in KeySet(Without(q[1..], gone));
          assert Position(Without(q[1..], gone), key) == |Without(q[1..], gone)|;
        }
      }
    }
  }

  /** Removing the keys of a prefix leaves the rest. */
  lemma {:induction false} WithoutPrefix(q: seq<Entry>, n: nat)
    requires Distinct(Keys(q)) && n <= |q|
    ensures Without(q, KeySet(q[..n])) == q[n..]
  {
    WithoutPrefixOf(q, n, KeySet(q[..n]));
  }

  lemma {:induction false} WithoutPrefixOf(q: seq<Entry>, n: nat, gone: set<Uuid>)
    requires Distinct(Keys(q)) && n <= |q|
    requires forall i :: 0 <= i < n ==> q[i].key in gone
    requires forall i :: n <= i < |q| ==> q[i].key !in gone
    ensures Without(q, gone) == q[n..]
  {
    if n == 0 {
      forall k | k in Keys(q) ensures k !in gone {
        KeysMember(q, k);
      }
      WithoutNone(q, gone);
    } else {
      DistinctTail(q);
      WithoutPrefixOf(q[1..], n - 1, gone);
    }
  }

  /** The condition on one more certificate, given what the earlier ones of the block did. */
  predicate ChildOk(queued: set<Uuid>, done: set<Uuid>, cert: Certificate) {
    && cert.Complete()
    && cert.id.value in queued
    && cert.id.value !in done
    && (cert.prev.value == Zero || cert.prev.value in done + {cert.id.value})
  }

  lemma CertIdsPrefix(certs: seq<Certificate>, j: nat)
    requires j <= |certs|
    ensures CertIds(certs[..j]) == CertIds(certs)[..j]
    ensures j < |certs| ==> CertIds(certs[..j + 1]) == CertIds(certs[..j]) + [CertIds(certs)[j]]
  {}

  lemma ProcessableStep(queued: set<Uuid>, done: set<Uuid>, certs: seq<Certificate>, j: nat)
    requires j < |certs|
    ensures Processable(queued, done, certs[..j + 1]) <==>
      && Processable(queued, done, certs[..j])
      && ChildOk(queued - IdSet(certs[..j]), done + IdSet(certs[..j]), certs[j])
  {
    var a, b := certs[..j], certs[..j + 1];
    CertIdsPrefix(certs, j);
    assert b[j] == certs[j] && b[..j + 1] == b;
    assert forall i :: 0 <= i < j ==> b[i] == a[i] && b[..i + 1] == a[..i + 1];
    if certs[j].Complete() {
      assert CertIds(b)[j] == certs[j].id.value;
      assert forall k :: k in CertIds(b) <==> k in CertIds(a) || k == certs[j].id.value;
      assert PrevKnown(done, b, j) <==>
        certs[j].prev.value == Zero || certs[j].prev.value in done + IdSet(a) + {certs[j].id.value};
      DistinctSnoc(CertIds(a), certs[j].id.value);
    }
    assert forall i :: 0 <= i < j && a[i].Complete() ==> PrevKnown(done, a, i) == PrevKnown(done, b, i);
  }

  lemma ProcessablePrefix(queued: set<Uuid>, done: set<Uuid>, certs: seq<Certificate>, j: nat)
    requires j <= |certs| && Processable(queued, done, certs)
    ensures Processable(queued, done, certs[..j])
    decreases |certs| - j
  {
    if j == |certs| {
      assert certs[..j] == certs;
    } else {
      ProcessablePrefix(queued, done, certs, j + 1);
      ProcessableStep(queued, done, certs, j);
    }
  }

  lemma HistoryAppend(chain: seq<Block>, b: Block)
    ensures History(chain + [b]) == History(chain) + b.certs
  {
    assert (chain + [b])[..|chain|] == chain;
  }
}
