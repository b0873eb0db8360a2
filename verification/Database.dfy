/** The data service: process queue, block table, height index, transaction table and artifact
    table, each operation one database transaction.  Every operation is proved to do what
    Ledger says on the queue and the chain, and the two index tables are proved to be exactly
    what the chain's transactions determine. */
module Database {
  import opened Ids
  import opened Ledger
  import opened ProcessQueue

  datatype BlockNode = BlockNode(
    key: Uuid,
    prev: Uuid,
    next: Uuid,
    first: Uuid,
    height: nat,
    cert: Option<BlockCert>)

  datatype ArtifactRecord = ArtifactRecord(
    key: Uuid,
    first: Uuid,
    latest: Uuid,
    heightFirst: nat,
    heightLatest: nat,
    state: nat)

  /** One canonized transaction. */
  datatype Row = Row(cert: Certificate, block: Uuid, height: nat)

  type Blocks = map<Uuid, BlockNode>
  type Heights = map<nat, Uuid>
  type Artifacts = map<Uuid, ArtifactRecord>

  function RowsOf(b: Block): seq<Row> {
    seq(|b.certs|, i requires 0 <= i < |b.certs| => Row(b.certs[i], b.id, b.height))
  }

  /** Every canonized transaction, in chain order. */
  function Rows(chain: seq<Block>): seq<Row> {
    if chain == [] then [] else Rows(chain[..|chain| - 1]) + RowsOf(chain[|chain| - 1])
  }

  predicate AllComplete(rows: seq<Row>) {
    forall i :: 0 <= i < |rows| ==> rows[i].cert.Complete()
  }

  // ---------- the transaction table ----------

  /** The last canonized transaction that names `id` as its previous transaction. */
  function NextFor(rows: seq<Row>, id: Uuid): Uuid
    requires AllComplete(rows)
  {
    if rows == [] then Ones
    else
      var last := rows[|rows| - 1].cert;
      if last.prev.value == id then last.id.value else NextFor(rows[..|rows| - 1], id)
  }

  ghost predicate TxnAt(txns: Table, rows: seq<Row>, i: nat)
    requires AllComplete(rows) && i < |rows|
  {
    var c := rows[i].cert;
    && c.id.value != Zero
    && c.id.value in txns
    && txns[c.id.value] == Node(c.id.value, c.prev.value, NextFor(rows, c.id.value), c.artifact.value,
                                rows[i].block, c, Canonized)
    && (c.prev.value == Zero || c.prev.value in txns)
  }

  /** The transaction table holds exactly the canonized transactions, each linked to the
      transaction before and after it on the same artifact. */
  ghost predicate TxnIndex(txns: Table, rows: seq<Row>) {
    && AllComplete(rows)
    && (forall k :: k in txns ==> exists i :: 0 <= i < |rows| && rows[i].cert.id.value == k)
    && (forall i :: 0 <= i < |rows| ==> TxnAt(txns, rows, i))
  }

  lemma {:induction false} NextForNone(rows: seq<Row>, id: Uuid)
    requires AllComplete(rows)
    requires forall i :: 0 <= i < |rows| ==> rows[i].cert.prev.value != id
    ensures NextFor(rows, id) == Ones
  {
    if rows != [] {
      NextForNone(rows[..|rows| - 1], id);
    }
  }

  lemma TxnIndexAppend(txns: Table, rows: seq<Row>, row: Row)
    requires TxnIndex(txns, rows) && row.cert.Complete()
    requires row.cert.id.value !in txns && row.cert.id.value != Zero
    requires row.cert.prev.value == Zero || row.cert.prev.value in txns.Keys + {row.cert.id.value}
    ensures TxnIndex(Recorded(txns, row), rows + [row])
  {
    var c := row.cert;
    var all := rows + [row];
    var t := Recorded(txns, row);
    assert all[..|rows|] == rows;
    forall i | 0 <= i < |all| ensures TxnAt(t, all, i) {
      if i < |rows| {
        assert TxnAt(txns, rows, i);
      } else {
        forall j | 0 <= j < |rows| ensures rows[j].cert.prev.value != c.id.value {
          assert TxnAt(txns, rows, j);
        }
        NextForNone(rows, c.id.value);
      }
    }
    forall k | k in t ensures exists i :: 0 <= i < |all| && all[i].cert.id.value == k {
      if k in txns {
        var i :| 0 <= i < |rows| && rows[i].cert.id.value == k;
        assert all[i].cert.id.value == k;
      } else {
        assert all[|rows|].cert.id.value == k;
      }
    }
  }

  /** The transaction table once a row has been inserted and its predecessor fixed up. */
  function Recorded(txns: Table, row: Row): Table
    requires row.cert.Complete()
    requires row.cert.prev.value == Zero || row.cert.prev.value in txns.Keys + {row.cert.id.value}
  {
    var c := row.cert;
    var t := txns[c.id.value := Node(c.id.value, c.prev.value, Ones, c.artifact.value, row.block, c, Canonized)];
    if c.prev.value == Zero then t else t[c.prev.value := t[c.prev.value].(next := c.id.value)]
  }

  // ---------- the artifact table ----------

  /** The first canonized transaction on an artifact; the number of rows when there is none. */
  function FirstRow(rows: seq<Row>, a: Uuid): (f: nat)
    requires AllComplete(rows)
    ensures f <= |rows|
    ensures f < |rows| ==> rows[f].cert.artifact.value == a
    ensures forall i :: 0 <= i < f ==> rows[i].cert.artifact.value != a
  {
    if rows == [] then 0
    else
      var n := |rows| - 1;
      var f := FirstRow(rows[..n], a);
      if f < n then f else if rows[n].cert.artifact.value == a then n else n + 1
  }

  /** The last canonized transaction on an artifact; -1 when there is none. */
  function LastRow(rows: seq<Row>, a: Uuid): (l: int)
    requires AllComplete(rows)
    ensures -1 <= l < |rows|
    ensures l >= 0 ==> rows[l].cert.artifact.value == a
    ensures forall i :: l < i < |rows| ==> rows[i].cert.artifact.value != a
  {
    if rows == [] then -1
    else
      var n := |rows| - 1;
      if rows[n].cert.artifact.value == a then n else LastRow(rows[..n], a)
  }

  /** What the artifact table must say about an artifact that some transaction touched. */
  ghost function Summary(rows: seq<Row>, a: Uuid): ArtifactRecord
    requires AllComplete(rows) && LastRow(rows, a) >= 0
  {
    var f, l := rows[FirstRow(rows, a)], rows[LastRow(rows, a)];
    ArtifactRecord(a, f.cert.id.value, l.cert.id.value, f.height, l.height, l.cert.state.value)
  }

  ghost predicate ArtifactAt(artifacts: Artifacts, rows: seq<Row>, a: Uuid)
    requires AllComplete(rows)
  {
    && (a in artifacts <==> LastRow(rows, a) >= 0)
    && (a in artifacts ==> artifacts[a] == Summary(rows, a))
  }

  ghost predicate ArtifactIndex(artifacts: Artifacts, rows: seq<Row>) {
    AllComplete(rows) && forall a :: ArtifactAt(artifacts, rows, a)
  }

  /** dataservice_block_make_update_artifact. */
  method UpdateArtifact(artifacts: Artifacts, row: Row, ghost rows: seq<Row>) returns (t: Artifacts)
    requires ArtifactIndex(artifacts, rows) && row.cert.Complete()
    ensures ArtifactIndex(t, rows + [row])
  {
    var c := row.cert;
    var a := c.artifact.value;
    if a !in artifacts {
      t := artifacts[a := ArtifactRecord(a, c.id.value, c.id.value, row.height, row.height, c.state.value)];
    } else {
      t := artifacts[a := artifacts[a].(latest := c.id.value, heightLatest := row.height, state := c.state.value)];
    }
    ghost var all := rows + [row];
    assert all[..|rows|] == rows;
    forall b ensures ArtifactAt(t, all, b) {
      assert ArtifactAt(artifacts, rows, b);
    }
  }

  // ---------- dataservice_block_make_process_child ----------

  /** The three tables a child transaction touches hold the queue `q` and the rows `rows`. */
  ghost predicate Stored(pq: Table, ring: seq<Uuid>, txns: Table, artifacts: Artifacts, q: seq<Entry>, rows: seq<Row>) {
    Represents(pq, ring) && View(pq, ring) == q && TxnIndex(txns, rows) && ArtifactIndex(artifacts, rows)
  }

  method ProcessChild(pq: Table, txns: Table, artifacts: Artifacts, height: nat, block: Uuid, cert: Certificate,
                      ghost ring: seq<Uuid>, ghost q: seq<Entry>, ghost rows: seq<Row>)
    returns (status: Status, pq': Table, txns': Table, artifacts': Artifacts, ghost ring': seq<Uuid>)
    requires Stored(pq, ring, txns, artifacts, q, rows)
    ensures status == Success <==> ChildOk(KeySet(q), txns.Keys, cert)
    ensures status == MissingChildId <==> cert.id.None?
    ensures status == MissingChildPrevious <==> cert.id.Some? && cert.prev.None?
    ensures status == MissingChildArtifact <==> cert.id.Some? && cert.prev.Some? && cert.artifact.None?
    ensures status == MissingChildState <==>
      cert.id.Some? && cert.prev.Some? && cert.artifact.Some? && cert.state.None?
    ensures cert.Complete() ==>
      && (status == PutFailure <==> cert.id.value in txns)
      && (status == NotFound <==> cert.id.value !in txns && cert.id.value !in Keys(q))
      && (status == GetFailure <==>
            && cert.id.value !in txns && cert.id.value in Keys(q)
            && cert.prev.value != Zero && cert.prev.value !in txns && cert.prev != cert.id)
    ensures status == Success ==>
      && Stored(pq', ring', txns', artifacts', Drop(q, cert.id.value), rows + [Row(cert, block, height)])
      && txns'.Keys == txns.Keys + {cert.id.value}
  {
    pq', txns', artifacts', ring' := pq, txns, artifacts, ring;
    if cert.id.None? { status := MissingChildId; return; }
    if cert.prev.None? { status := MissingChildPrevious; return; }
    if cert.artifact.None? { status := MissingChildArtifact; return; }
    if cert.state.None? { status := MissingChildState; return; }
    var id := cert.id.value;
    if id in txns { status := PutFailure; return; }
    ViewMembers(pq, ring, id);
    status, pq', ring' := DropNode(pq, id, ring);
    if status != Success { return; }
    status, txns' := RecordChild(txns, Row(cert, block, height), rows);
    if status != Success { return; }
    artifacts' := UpdateArtifact(artifacts, Row(cert, block, height), rows);
  }

  /** The transaction table's part: the new record, and the link from its predecessor to it. */
  method RecordChild(txns: Table, row: Row, ghost rows: seq<Row>) returns (status: Status, txns': Table)
    requires TxnIndex(txns, rows) && row.cert.Complete() && row.cert.id.value !in txns && row.cert.id.value != Zero
    ensures status == if row.cert.prev.value == Zero || row.cert.prev.value in txns.Keys + {row.cert.id.value}
                      then Success else GetFailure
    ensures status == Success ==> TxnIndex(txns', rows + [row]) && txns'.Keys == txns.Keys + {row.cert.id.value}
  {
    var cert := row.cert;
    var id, prev := cert.id.value, cert.prev.value;
    txns' := txns[id := Node(id, prev, Ones, cert.artifact.value, row.block, cert, Canonized)];
    if prev != Zero {
      if prev !in txns' { return GetFailure, txns'; }
      txns' := txns'[prev := txns'[prev].(next := id)];
    }
    TxnIndexAppend(txns, rows, row);
    status := Success;
  }

  // ---------- the block table ----------

  function PrevBlock(chain: seq<Block>, i: nat): Uuid
    requires i <= |chain|
  {
    if i == 0 then Root else chain[i - 1].id
  }

  function NextBlock(chain: seq<Block>, i: nat): Uuid {
    if i + 1 < |chain| then chain[i + 1].id else Ones
  }

  /** The `i`-th block has the height and predecessor its position demands, and is stored and
      indexed that way. */
  ghost predicate BlockAt(blocks: Blocks, heights: Heights, chain: seq<Block>, i: nat)
    requires i < |chain|
  {
    var b := chain[i];
    && SaneBlockId(b.id) && b.height == i + 1 && b.prev == PrevBlock(chain, i)
    && i + 1 in heights && heights[i + 1] == b.id
    && b.certs != []
    && b.id in blocks
    && blocks[b.id].cert.Some? && StoredAs(blocks[b.id].cert.value, b)
    && blocks[b.id].(cert := None)
       == BlockNode(b.id, b.prev, NextBlock(chain, i), CertIds(b.certs)[0], i + 1, None)
  }

  predicate StoredAs(cert: BlockCert, b: Block) {
    cert.id.Some? && cert.prev.Some? && cert.height.Some? && BlockOf(cert) == b
  }

  ghost predicate ChainIndex(blocks: Blocks, heights: Heights, chain: seq<Block>) {
    && (chain == [] ==> blocks == map[])
    && (chain != [] ==>
          && Zero in blocks && blocks[Zero] == BlockNode(Zero, Zero, chain[0].id, Zero, 0, None)
          && Ones in blocks && blocks[Ones] == BlockNode(Ones, Latest(chain), Ones, Zero, |chain|, None))
    && (forall k :: k in blocks ==> Sentinel(k) || k in BlockIds(chain))
    && (forall h :: h in heights ==> 1 <= h <= |chain|)
    && (forall i :: 0 <= i < |chain| ==> BlockAt(blocks, heights, chain, i))
    && (forall i, j :: 0 <= i < j < |chain| ==> chain[i].id != chain[j].id)
  }

  lemma ChainAppend(blocks: Blocks, heights: Heights, chain: seq<Block>, b: BlockCert, t: Blocks)
    requires ChainIndex(blocks, heights, chain)
    requires b.height == Some(|chain| + 1) && b.prev == Some(Latest(chain)) && b.id.Some? && b.certs != []
    requires SaneBlockId(b.id.value) && b.id.value !in blocks
    requires var node := BlockNode(b.id.value, b.prev.value, Ones, CertIds(b.certs)[0], |chain| + 1, Some(b));
      t == if chain == [] then
             map[b.id.value := node, Zero := BlockNode(Zero, Zero, b.id.value, Zero, 0, None),
                 Ones := BlockNode(Ones, b.id.value, Ones, Zero, 1, None)]
           else if Latest(chain) in blocks && Ones in blocks then
             blocks[b.id.value := node][Latest(chain) := blocks[Latest(chain)].(next := b.id.value)]
                   [Ones := blocks[Ones].(prev := b.id.value, height := |chain| + 1)]
           else map[]
    ensures ChainIndex(t, heights[|chain| + 1 := b.id.value], chain + [BlockOf(b)])
  {
    var n := |chain|;
    var all := chain + [BlockOf(b)];
    var hs := heights[n + 1 := b.id.value];
    forall i | 0 <= i < n ensures chain[i].id in blocks && chain[i].id != b.id.value {
      assert BlockAt(blocks, heights, chain, i);
    }
    if n > 0 { assert BlockAt(blocks, heights, chain, n - 1); }
    forall i | 0 <= i < |all| ensures BlockAt(t, hs, all, i) {
      if i < n {
        assert BlockAt(blocks, heights, chain, i);
        assert all[i] == chain[i];
        if i < n - 1 { assert chain[i].id != chain[n - 1].id; }
      }
    }
    forall k | k in t ensures Sentinel(k) || k in BlockIds(all) {
      if k in BlockIds(chain) {
        var i :| 0 <= i < n && chain[i].id == k;
        assert all[i].id == k;
      } else if !Sentinel(k) {
        assert all[n].id == k;
      }
    }
  }

  lemma ChainIds(blocks: Blocks, heights: Heights, chain: seq<Block>, id: Uuid)
    requires ChainIndex(blocks, heights, chain) && !Sentinel(id)
    ensures id in blocks <==> id in BlockIds(chain)
  {
    if id in BlockIds(chain) {
      var i :| 0 <= i < |chain| && chain[i].id == id;
      assert BlockAt(blocks, heights, chain, i);
    }
  }

  /** What the block table holds under any id. */
  lemma ChainKeys(blocks: Blocks, heights: Heights, chain: seq<Block>, id: Uuid)
    requires ChainIndex(blocks, heights, chain)
    ensures id in BlockIds(chain) ==> SaneBlockId(id)
    ensures id in blocks <==> id in BlockIds(chain) || (Sentinel(id) && chain != [])
    ensures Sentinel(id) && id in blocks ==> blocks[id].cert.None?
    ensures forall i :: 0 <= i < |chain| && chain[i].id == id ==> id in blocks && BlockAt(blocks, heights, chain, i)
  {
    if !Sentinel(id) {
      ChainIds(blocks, heights, chain, id);
    }
    forall i | 0 <= i < |chain| && chain[i].id == id
      ensures SaneBlockId(id) && id in blocks && BlockAt(blocks, heights, chain, i)
    {
      assert BlockAt(blocks, heights, chain, i);
    }
  }

  lemma {:induction false} RowsHistory(chain: seq<Block>)
    ensures |Rows(chain)| == |History(chain)|
    ensures forall i :: 0 <= i < |Rows(chain)| ==> Rows(chain)[i].cert == History(chain)[i]
  {
    if chain != [] {
      RowsHistory(chain[..|chain| - 1]);
    }
  }

  /** The keys of the transaction table are the ids of the chain's transactions. */
  lemma TxnKeys(txns: Table, chain: seq<Block>)
    requires TxnIndex(txns, Rows(chain))
    ensures txns.Keys == IdSet(History(chain))
  {
    var rows, h := Rows(chain), History(chain);
    RowsHistory(chain);
    forall k ensures k in txns <==> k in CertIds(h) {
      if k in txns {
        var i :| 0 <= i < |rows| && rows[i].cert.id.value == k;
        assert CertIds(h)[i] == k;
      }
      if k in CertIds(h) {
        var i :| 0 <= i < |h| && CertIds(h)[i] == k;
        assert TxnAt(txns, rows, i);
      }
    }
  }

  // ---------- the two index tables, in terms of the chain ----------

  /** The `j`-th certificate of the `i`-th block. */
  predicate Holds(chain: seq<Block>, i: int, j: int) {
    0 <= i < |chain| && 0 <= j < |chain[i].certs|
  }

  /** `next` is the last canonized transaction that names `id` as its previous one, or the end
      sentinel when there is none. */
  predicate IsNext(certs: seq<Certificate>, id: Uuid, next: Uuid) {
    || (next == Ones && forall k :: 0 <= k < |certs| ==> certs[k].prev != Some(id))
    || exists k :: 0 <= k < |certs| && certs[k].prev == Some(id) && certs[k].id == Some(next)
                   && forall l :: k < l < |certs| ==> certs[l].prev != Some(id)
  }

  predicate CanonizedAs(node: Node, chain: seq<Block>, i: int, j: int)
    requires Holds(chain, i, j)
  {
    var c := chain[i].certs[j];
    && c.Complete()
    && node.key == c.id.value && node.prev == c.prev.value && node.artifact == c.artifact.value
    && node.block == chain[i].id && node.cert == c && node.state == Canonized
    && IsNext(History(chain), c.id.value, node.next)
  }

  /** The row of a certificate. */
  lemma {:induction false} RowPlace(chain: seq<Block>, i: nat, j: nat) returns (r: nat)
    requires Holds(chain, i, j)
    ensures r < |Rows(chain)| && Rows(chain)[r] == Row(chain[i].certs[j], chain[i].id, chain[i].height)
    ensures r == |Rows(chain[..i])| + j
    decreases |chain|
  {
    var n := |chain| - 1;
    if i == n {
      r := |Rows(chain[..n])| + j;
    } else {
      assert chain[..n][i] == chain[i] && chain[..n][..i] == chain[..i];
      r := RowPlace(chain[..n], i, j);
    }
  }

  /** The certificate of a row. */
  lemma {:induction false} PlaceOfRow(chain: seq<Block>, r: nat) returns (i: nat, j: nat)
    requires r < |Rows(chain)|
    ensures Holds(chain, i, j) && Rows(chain)[r] == Row(chain[i].certs[j], chain[i].id, chain[i].height)
    ensures r == |Rows(chain[..i])| + j
    decreases |chain|
  {
    var n := |chain| - 1;
    if r >= |Rows(chain[..n])| {
      i, j := n, r - |Rows(chain[..n])|;
    } else {
      i, j := PlaceOfRow(chain[..n], r);
      assert chain[..n][i] == chain[i] && chain[..n][..i] == chain[..i];
    }
  }

  /** Rows are in chain order. */
  lemma {:induction false} RowsInOrder(chain: seq<Block>, i: nat, k: nat)
    requires i < k <= |chain|
    ensures |Rows(chain[..i])| + |chain[i].certs| <= |Rows(chain[..k])|
    decreases k
  {
    assert chain[..k][..k - 1] == chain[..k - 1] && chain[..k][k - 1] == chain[k - 1];
    if i < k - 1 {
      RowsInOrder(chain, i, k - 1);
    }
  }

  /** One place of the chain comes before another. */
  predicate Earlier(i: int, j: int, k: int, l: int) {
    i < k || (i == k && j < l)
  }

  lemma {:induction false} PlacesInOrder(chain: seq<Block>, i: nat, j: nat, k: nat, l: nat)
    requires Holds(chain, i, j) && Holds(chain, k, l)
    ensures Earlier(i, j, k, l) <==> |Rows(chain[..i])| + j < |Rows(chain[..k])| + l
  {
    if i < k {
      RowsInOrder(chain, i, k);
    } else if k < i {
      RowsInOrder(chain, k, i);
    }
  }

  predicate Touches(chain: seq<Block>, i: int, j: int, a: Uuid) {
    Holds(chain, i, j) && chain[i].certs[j].artifact == Some(a)
  }

  /** The record of an artifact: the first and the last transaction of the chain on it, the heights of
      their blocks, and the artifact state in the last one. */
  ghost predicate RecordOf(r: ArtifactRecord, chain: seq<Block>, a: Uuid, i: int, j: int, k: int, l: int) {
    && r.key == a
    && Touches(chain, i, j, a) && (forall x, y :: Touches(chain, x, y, a) ==> !Earlier(x, y, i, j))
    && Touches(chain, k, l, a) && (forall x, y :: Touches(chain, x, y, a) ==> !Earlier(k, l, x, y))
    && chain[i].certs[j].id == Some(r.first) && r.heightFirst == i + 1
    && chain[k].certs[l].id == Some(r.latest) && r.heightLatest == k + 1
    && chain[k].certs[l].state == Some(r.state)
  }

  /** The artifact table says exactly that. */
  lemma {:induction false} ArtifactMeans(artifacts: Artifacts, chain: seq<Block>, a: Uuid)
    requires ArtifactIndex(artifacts, Rows(chain)) && forall i :: 0 <= i < |chain| ==> chain[i].height == i + 1
    ensures a in artifacts <==> exists i, j :: Touches(chain, i, j, a)
    ensures a in artifacts ==> exists i, j, k, l :: RecordOf(artifacts[a], chain, a, i, j, k, l)
  {
    var rows := Rows(chain);
    assert ArtifactAt(artifacts, rows, a);
    if a in artifacts {
      var i, j := PlaceOfRow(chain, FirstRow(rows, a));
      var k, l := PlaceOfRow(chain, LastRow(rows, a));
      FirstAndLast(chain, a, i, j, k, l);
      assert Touches(chain, i, j, a);
      assert RecordOf(artifacts[a], chain, a, i, j, k, l);
    }
    if i, j :| Touches(chain, i, j, a) {
      var r := RowPlaceOf(chain, a, i, j);
    }
  }

  lemma {:induction false} RowPlaceOf(chain: seq<Block>, a: Uuid, i: nat, j: nat) returns (r: nat)
    requires AllComplete(Rows(chain)) && Touches(chain, i, j, a)
    ensures r < |Rows(chain)| && Rows(chain)[r].cert.artifact.value == a && r == |Rows(chain[..i])| + j
    ensures FirstRow(Rows(chain), a) <= r <= LastRow(Rows(chain), a)
  {
    r := RowPlace(chain, i, j);
  }

  lemma {:induction false} FirstAndLast(chain: seq<Block>, a: Uuid, i: nat, j: nat, k: nat, l: nat)
    requires AllComplete(Rows(chain)) && LastRow(Rows(chain), a) >= 0 && Holds(chain, i, j) && Holds(chain, k, l)
    requires FirstRow(Rows(chain), a) == |Rows(chain[..i])| + j && LastRow(Rows(chain), a) == |Rows(chain[..k])| + l
    ensures forall x, y :: Touches(chain, x, y, a) ==> !Earlier(x, y, i, j) && !Earlier(k, l, x, y)
  {
    forall x, y | Touches(chain, x, y, a) ensures !Earlier(x, y, i, j) && !Earlier(k, l, x, y) {
      var r := RowPlaceOf(chain, a, x, y);
      PlacesInOrder(chain, x, y, i, j);
      PlacesInOrder(chain, k, l, x, y);
    }
  }

  lemma {:induction false} NextForIs(rows: seq<Row>, certs: seq<Certificate>, id: Uuid)
    requires AllComplete(rows) && |certs| == |rows| && forall i :: 0 <= i < |rows| ==> certs[i] == rows[i].cert
    ensures IsNext(certs, id, NextFor(rows, id))
  {
    if rows != [] {
      var n := |rows| - 1;
      if rows[n].cert.prev.value == id {
        assert certs[n].prev == Some(id);
      } else {
        NextForIs(rows[..n], certs[..n], id);
        LaterNext(certs, id, NextFor(rows, id));
      }
    }
  }

  lemma LaterNext(certs: seq<Certificate>, id: Uuid, next: Uuid)
    requires certs != [] && IsNext(certs[..|certs| - 1], id, next) && certs[|certs| - 1].prev != Some(id)
    ensures IsNext(certs, id, next)
  {
    var n := |certs| - 1;
    var init := certs[..n];
    assert forall k :: 0 <= k < n ==> init[k] == certs[k];
    if !(next == Ones && forall k :: 0 <= k < |init| ==> init[k].prev != Some(id)) {
      var k :| 0 <= k < |init| && init[k].prev == Some(id) && init[k].id == Some(next)
               && forall l :: k < l < |init| ==> init[l].prev != Some(id);
      assert certs[k].prev == Some(id) && certs[k].id == Some(next);
    }
  }

  lemma {:induction false} StoredTransaction(txns: Table, chain: seq<Block>, i: nat, j: nat)
    requires TxnIndex(txns, Rows(chain)) && Holds(chain, i, j)
    ensures chain[i].certs[j].Complete() && chain[i].certs[j].id.value in txns
    ensures CanonizedAs(txns[chain[i].certs[j].id.value], chain, i, j)
  {
    var rows := Rows(chain);
    var r := RowPlace(chain, i, j);
    assert TxnAt(txns, rows, r);
    RowsHistory(chain);
    NextForIs(rows, History(chain), chain[i].certs[j].id.value);
  }

  // ---------- the data service ----------

  /** All five tables, together, hold the queue that `ring` spells out and the chain. */
  ghost predicate Tables(blocks: Blocks, heights: Heights, pq: Table, txns: Table, artifacts: Artifacts,
                         ring: seq<Uuid>, chain: seq<Block>)
  {
    && |ring| >= 2
    && ChainIndex(blocks, heights, chain)
    && Stored(pq, ring, txns, artifacts, View(pq, ring), Rows(chain))
  }

  class DataService {
    var pq: Table
    var blocks: Blocks
    var heights: Heights
    var txns: Table
    var artifacts: Artifacts
    ghost var ring: seq<Uuid>
    ghost var chain: seq<Block>

    ghost predicate Valid()
      reads this
    {
      Tables(blocks, heights, pq, txns, artifacts, ring, chain)
    }

    ghost function Contents(): Store
      reads this
      requires Valid()
    {
      Store(View(pq, ring), chain)
    }

    constructor ()
      ensures Valid() && Contents() == Store([], [])
    {
      pq, blocks, heights, txns, artifacts := map[], map[], map[], map[], map[];
      ring, chain := [Zero, Ones], [];
    }

    /** Whether the next submission breaks the queue: the very first one, under the name of a
        sentinel. */
    predicate Breaks(key: Uuid)
      reads `pq
    {
      pq == map[] && Sentinel(key)
    }

    /** Submission appends, or leaves a queue table that is no list any more. */
    method Submit(key: Uuid, artifact: Uuid, cert: Certificate, state: TxnState) returns (status: Status)
      requires Valid()
      modifies `pq, `ring
      ensures old(Breaks(key)) <==> forall r :: !Represents(pq, r)
      ensures old(Breaks(key)) ==> status == Success && !Valid()
      ensures !old(Breaks(key)) ==>
        && Valid()
        && (status == Success <==> Submittable(old(Contents()).queue, key))
        && Contents() == Store(Ledger.Submit(old(Contents()).queue, key, artifact, cert, state), old(chain))
    {
      ViewMembers(pq, ring, key);
      Initialized(pq, ring);
      var t;
      ghost var r;
      status, t, r := SubmitNode(pq, key, artifact, cert, state, ring);
      pq, ring := t, r;
      assert !old(Breaks(key)) ==> Represents(pq, ring);
    }

    method Promote(key: Uuid) returns (status: Status)
      requires Valid()
      modifies `pq
      ensures Valid()
      ensures status == if key in Keys(old(Contents()).queue) then Success else NotFound
      ensures Contents() == Store(Ledger.Promote(old(Contents()).queue, key), old(chain))
    {
      status, pq := PromoteNode(pq, key, ring);
    }

    method Drop(key: Uuid) returns (status: Status)
      requires Valid()
      modifies `pq, `ring
      ensures Valid()
      ensures status == if key in Keys(old(Contents()).queue) then Success else NotFound
      ensures Contents() == Store(Ledger.Drop(old(Contents()).queue, key), old(chain))
    {
      var t;
      ghost var r;
      status, t, r := DropNode(pq, key, ring);
      pq, ring := t, r;
    }

    method Get(key: Uuid) returns (status: Status, answer: Lookup)
      requires Valid()
      ensures !Sentinel(key) ==>
        match Ledger.Get(Contents().queue, key)
        case Missing => status == NotFound
        case Found(e, _, _) => status == if e.cert.bytes == [] then InvalidStoredNode else Success
      ensures Sentinel(key) ==> status != Success
      ensures answer == if status == Success then Ledger.Get(Contents().queue, key) else Missing
    {
      status, answer := ReadNode(pq, key, ring);
    }

    /** The first of the two reads behind "get first". */
    method FirstKey() returns (status: Status, key: Uuid)
      requires Valid()
      ensures status == if Contents().queue == [] then NotFound else Success
      ensures status == Success ==> key == Contents().queue[0].key
    {
      status, key := ReadFirstKey(pq, ring);
    }

    /** The artifact table answers with the summary of the chain's transactions on an artifact. */
    method GetArtifact(artifact: Uuid) returns (status: Status, record: Option<ArtifactRecord>)
      requires Valid()
      ensures AllComplete(Rows(chain))
      ensures record == if LastRow(Rows(chain), artifact) >= 0 then Some(Summary(Rows(chain), artifact)) else None
      ensures record.Some? <==> exists i, j :: Touches(chain, i, j, artifact)
      ensures record.Some? ==> exists i, j, k, l :: RecordOf(record.value, chain, artifact, i, j, k, l)
      ensures record == if artifact in artifacts then Some(artifacts[artifact]) else None
      ensures status == if record.Some? then Success else NotFound
    {
      assert ArtifactAt(artifacts, Rows(chain), artifact);
      forall i | 0 <= i < |chain| ensures chain[i].height == i + 1 {
        assert BlockAt(blocks, heights, chain, i);
      }
      ArtifactMeans(artifacts, chain, artifact);
      if artifact !in artifacts {
        return NotFound, None;
      }
      return Success, Some(artifacts[artifact]);
    }

    method LatestBlockId() returns (id: Uuid)
      requires Valid()
      ensures id == Latest(chain)
    {
      if Ones !in blocks {
        return Root;
      }
      return blocks[Ones].prev;
    }

    /** Reading a block by id gives the block stored in the chain under that id.  The root block id
        gives the start sentinel, which points at the first block and has no certificate; the
        sentinels themselves are refused. */
    method GetBlock(id: Uuid) returns (status: Status, node: Option<BlockNode>)
      requires Valid()
      ensures status ==
        if id in BlockIds(chain) || (id == Root && chain != []) then Success
        else if Sentinel(id) && chain != [] then InvalidStoredNode
        else NotFound
      ensures node.Some? <==> status == Success
      ensures id == Root && chain != [] ==> node == Some(BlockNode(Zero, Zero, chain[0].id, Zero, 0, None))
      ensures forall i :: 0 <= i < |chain| && chain[i].id == id ==>
        && node.Some? && node.value.cert.Some? && StoredAs(node.value.cert.value, chain[i])
        && node.value.key == id && node.value.height == i + 1
        && node.value.prev == (if i == 0 then Root else chain[i - 1].id)
        && node.value.next == (if i + 1 < |chain| then chain[i + 1].id else Ones)
        && chain[i].certs != [] && node.value.first == CertIds(chain[i].certs)[0]
    {
      ChainKeys(blocks, heights, chain, id);
      var key, skipCert := id, false;
      if id !in blocks && id == Root {
        key, skipCert := Zero, true;
      }
      if key !in blocks {
        return NotFound, None;
      }
      if !skipCert && blocks[key].cert.None? {
        return InvalidStoredNode, None;
      }
      return Success, Some(blocks[key]);
    }

    /** The id of the block at a height. */
    method BlockIdByHeight(height: nat) returns (status: Status, id: Uuid)
      requires Valid()
      ensures status == if 1 <= height <= |chain| then Success else NotFound
      ensures status == Success ==> id == chain[height - 1].id
    {
      if 1 <= height <= |chain| {
        assert BlockAt(blocks, heights, chain, height - 1);
      }
      if height !in heights {
        return NotFound, Zero;
      }
      return Success, heights[height];
    }

    /** A canonized transaction, with its block and its neighbours on the artifact.  It is found
        exactly when the chain holds it; an empty certificate cannot be read back. */
    method GetCanonized(id: Uuid) returns (status: Status, node: Option<Node>)
      requires Valid()
      ensures id !in CertIds(History(chain)) ==> status == NotFound
      ensures node.Some? <==> status == Success
      ensures forall i, j :: Holds(chain, i, j) && chain[i].certs[j].id == Some(id) ==>
        var c := chain[i].certs[j];
        && c.Complete()
        && status == (if c.bytes == [] then InvalidStoredNode else Success)
        && (node.Some? ==>
              && node.value.key == id && node.value.prev == c.prev.value && node.value.artifact == c.artifact.value
              && node.value.block == chain[i].id && node.value.cert == c && node.value.state == Canonized
              && IsNext(History(chain), id, node.value.next))
    {
      TxnKeys(txns, chain);
      assert id in txns <==> id in CertIds(History(chain));
      forall i, j | Holds(chain, i, j) && chain[i].certs[j].id == Some(id)
        ensures id in txns && CanonizedAs(txns[id], chain, i, j)
      {
        StoredTransaction(txns, chain, i, j);
      }
      if id !in txns {
        return NotFound, None;
      }
      if txns[id].cert.bytes == [] {
        return InvalidStoredNode, None;
      }
      return Success, Some(txns[id]);
    }

    /** dataservice_block_make: a block is accepted exactly when Ledger.Accepts says so, and then
        it joins the chain and its transactions leave the queue, all in one transaction. */
    method MakeBlock(id: Uuid, b: BlockCert) returns (status: Status)
      requires Valid()
      modifies this
      ensures Valid()
      ensures status == Success <==> Accepts(old(Contents()), id, b)
      ensures Contents() == Write(old(Contents()), id, b)
    {
      ghost var ring', chain';
      status, blocks, heights, pq, txns, artifacts, ring', chain' :=
        WriteBlock(blocks, heights, pq, txns, artifacts, id, b, ring, chain);
      ring, chain := ring', chain';
    }
  }

  /** One database transaction: the tables to commit, or on any failure the tables as they were. */
  method WriteBlock(blocks: Blocks, heights: Heights, pq: Table, txns: Table, artifacts: Artifacts,
                    id: Uuid, b: BlockCert, ghost ring: seq<Uuid>, ghost chain: seq<Block>)
    returns (status: Status, blocks': Blocks, heights': Heights, pq': Table, txns': Table, artifacts': Artifacts,
             ghost ring': seq<Uuid>, ghost chain': seq<Block>)
    requires Tables(blocks, heights, pq, txns, artifacts, ring, chain)
    ensures Tables(blocks', heights', pq', txns', artifacts', ring', chain')
    ensures status == Success <==> Accepts(Store(View(pq, ring), chain), id, b)
    ensures Store(View(pq', ring'), chain') == Write(Store(View(pq, ring), chain), id, b)
  {
    status, blocks', heights', pq', txns', artifacts', ring' :=
      PrepareBlock(blocks, heights, pq, txns, artifacts, id, b, ring, chain);
    if status == Success {
      RowsAppend(chain, BlockOf(b));
      chain' := chain + [BlockOf(b)];
    } else {
      blocks', heights', pq', txns', artifacts', ring', chain' := blocks, heights, pq, txns, artifacts, ring, chain;
    }
  }

  /** Everything dataservice_block_make does before it commits. */
  method PrepareBlock(blocks: Blocks, heights: Heights, pq: Table, txns: Table, artifacts: Artifacts,
                      id: Uuid, b: BlockCert, ghost ring: seq<Uuid>, ghost chain: seq<Block>)
    returns (status: Status, blocks': Blocks, heights': Heights, pq': Table, txns': Table, artifacts': Artifacts,
             ghost ring': seq<Uuid>)
    requires Tables(blocks, heights, pq, txns, artifacts, ring, chain)
    ensures status == Success <==> Accepts(Store(View(pq, ring), chain), id, b)
    ensures status == Success ==>
      && ChainIndex(blocks', heights', chain + [BlockOf(b)])
      && Stored(pq', ring', txns', artifacts', Without(View(pq, ring), IdSet(b.certs)),
                Rows(chain) + RowsOf(BlockOf(b)))
  {
    blocks', heights', pq', txns', artifacts', ring' := blocks, heights, pq, txns, artifacts, ring;
    status := CheckBlock(blocks, id, b, heights, chain);
    if status != Success { return; }
    status, blocks', heights' := InsertBlock(blocks, heights, id, b, chain);
    if status != Success { return; }
    status, pq', txns', artifacts', ring' := ProcessChildren(pq, txns, artifacts, id, b, ring, chain);
  }

  /** The header constraints, and that there is a first child with an id. */
  method CheckBlock(blocks: Blocks, id: Uuid, b: BlockCert, ghost heights: Heights, ghost chain: seq<Block>)
    returns (status: Status)
    requires ChainIndex(blocks, heights, chain)
    ensures status == Success <==>
      && b.height == Some(|chain| + 1) && b.prev == Some(Latest(chain)) && b.id == Some(id) && SaneBlockId(id)
      && b.certs != [] && b.certs[0].id.Some?
    ensures b.height == Some(|chain| + 1) && b.prev == Some(Latest(chain)) && b.id == Some(id) && SaneBlockId(id) ==>
      && (status == NoChildTransactions <==> b.certs == [])
      && (status == MissingChildId <==> b.certs != [] && b.certs[0].id.None?)
  {
    status := CheckHeader(blocks, id, b, heights, chain);
    if status != Success { return; }
    if b.certs == [] { return NoChildTransactions; }
    if b.certs[0].id.None? { return MissingChildId; }
  }

  /** The height, previous block and block id constraints. */
  method CheckHeader(blocks: Blocks, id: Uuid, b: BlockCert, ghost heights: Heights, ghost chain: seq<Block>)
    returns (status: Status)
    requires ChainIndex(blocks, heights, chain)
    ensures status == Success <==>
      && b.height == Some(|chain| + 1)
      && b.prev == Some(Latest(chain))
      && b.id == Some(id)
      && SaneBlockId(id)
    ensures status == MissingBlockHeight <==> b.height.None?
    ensures status == InvalidBlockHeight <==> b.height.Some? && b.height.value != |chain| + 1
    ensures status == MissingPreviousBlock <==> b.height == Some(|chain| + 1) && b.prev.None?
    ensures status == InvalidPreviousBlock <==>
      b.height == Some(|chain| + 1) && b.prev.Some? && b.prev.value != Latest(chain)
    ensures b.height == Some(|chain| + 1) && b.prev == Some(Latest(chain)) ==>
      && (status == MissingBlockId <==> b.id.None?)
      && (status == InvalidBlockId <==> b.id.Some? && (b.id != Some(id) || !SaneBlockId(id)))
  {
    var end := if Ones in blocks then Some(blocks[Ones]) else None;
    var expectedHeight := if end.Some? then 1 + end.value.height else 1;
    if b.height.None? { return MissingBlockHeight; }
    if b.height.value != expectedHeight { return InvalidBlockHeight; }
    var expectedPrev := if end.Some? then end.value.prev else Root;
    if b.prev.None? { return MissingPreviousBlock; }
    if b.prev.value != expectedPrev { return InvalidPreviousBlock; }
    if b.id.None? { return MissingBlockId; }
    if b.id.value != id || id == Root || id == Zero || id == Ones { return InvalidBlockId; }
    return Success;
  }

  /** The block node, its height index entry, and the links to it. */
  method InsertBlock(blocks: Blocks, heights: Heights, id: Uuid, b: BlockCert, ghost chain: seq<Block>)
    returns (status: Status, blocks': Blocks, heights': Heights)
    requires ChainIndex(blocks, heights, chain)
    requires b.height == Some(|chain| + 1) && b.prev == Some(Latest(chain)) && b.id == Some(id)
    requires SaneBlockId(id) && b.certs != [] && b.certs[0].id.Some?
    ensures status == if id in BlockIds(chain) then PutFailure else Success
    ensures status == Success ==> ChainIndex(blocks', heights', chain + [BlockOf(b)])
  {
    blocks', heights' := blocks, heights;
    ChainIds(blocks, heights, chain, id);
    if id in blocks {
      status := PutFailure;
      return;
    }
    var height := b.height.value;
    blocks' := blocks[id := BlockNode(id, b.prev.value, Ones, b.certs[0].id.value, height, Some(b))];
    heights' := heights[height := id];
    if Ones !in blocks {
      blocks' := blocks'[Zero := BlockNode(Zero, Zero, id, Zero, 0, None)];
      blocks' := blocks'[Ones := BlockNode(Ones, id, Ones, Zero, height, None)];
    } else {
      assert BlockAt(blocks, heights, chain, |chain| - 1);
      var end := blocks[Ones];
      blocks' := blocks'[end.prev := blocks'[end.prev].(next := id)];
      blocks' := blocks'[Ones := end.(prev := id, height := height)];
    }
    ChainAppend(blocks, heights, chain, b, blocks');
    status := Success;
  }

  lemma RowsAppend(chain: seq<Block>, b: Block)
    ensures Rows(chain + [b]) == Rows(chain) + RowsOf(b)
  {
    assert (chain + [b])[..|chain|] == chain;
  }

  lemma QueueDistinct(pq: Table, ring: seq<Uuid>)
    requires Represents(pq, ring)
    ensures Distinct(Keys(View(pq, ring)))
  {
    var q := View(pq, ring);
    assert forall i :: 0 <= i < |q| ==> Keys(q)[i] == ring[i + 1];
  }

  /** The tables after the first `j` transactions of a block, starting from queue `q` and rows `rows`. */
  ghost predicate Moved(q: seq<Entry>, rows: seq<Row>, b: Block, j: nat,
                        pq: Table, ring: seq<Uuid>, txns: Table, artifacts: Artifacts)
    requires j <= |b.certs|
  {
    Stored(pq, ring, txns, artifacts, Without(q, IdSet(b.certs[..j])), rows + RowsOf(b)[..j])
  }

  /** One turn of the loop over the wrapped transactions of a block. */
  method MoveNext(pq: Table, txns: Table, artifacts: Artifacts, b: Block, j: nat,
                  ghost q: seq<Entry>, ghost rows: seq<Row>, ghost done: set<Uuid>, ghost ring: seq<Uuid>)
    returns (status: Status, pq': Table, txns': Table, artifacts': Artifacts, ghost ring': seq<Uuid>)
    requires j < |b.certs| && Distinct(Keys(q))
    requires Moved(q, rows, b, j, pq, ring, txns, artifacts)
    requires txns.Keys == done + IdSet(b.certs[..j])
    requires Processable(KeySet(q), done, b.certs[..j])
    ensures status == Success <==> Processable(KeySet(q), done, b.certs[..j + 1])
    ensures status == Success ==>
      && Moved(q, rows, b, j + 1, pq', ring', txns', artifacts')
      && txns'.Keys == done + IdSet(b.certs[..j + 1])
  {
    var cert := b.certs[j];
    ghost var gone := IdSet(b.certs[..j]);
    WithoutKeys(q, gone);
    ProcessableStep(KeySet(q), done, b.certs, j);
    status, pq', txns', artifacts', ring' :=
      ProcessChild(pq, txns, artifacts, b.height, b.id, cert, ring, Without(q, gone), rows + RowsOf(b)[..j]);
    if status == Success {
      MovedOne(q, rows, b, j);
    }
  }

  lemma MovedOne(q: seq<Entry>, rows: seq<Row>, b: Block, j: nat)
    requires j < |b.certs| && Distinct(Keys(q)) && b.certs[j].id.Some?
    ensures IdSet(b.certs[..j + 1]) == IdSet(b.certs[..j]) + {b.certs[j].id.value}
    ensures Drop(Without(q, IdSet(b.certs[..j])), b.certs[j].id.value) == Without(q, IdSet(b.certs[..j + 1]))
    ensures rows + RowsOf(b)[..j + 1] == rows + RowsOf(b)[..j] + [Row(b.certs[j], b.id, b.height)]
  {
    IdSetPrefix(b.certs, j);
    WithoutDrop(q, IdSet(b.certs[..j]), b.certs[j].id.value);
    NextRow(rows, b, j);
  }

  lemma IdSetPrefix(certs: seq<Certificate>, j: nat)
    requires j < |certs| && certs[j].id.Some?
    ensures IdSet(certs[..j + 1]) == IdSet(certs[..j]) + {certs[j].id.value}
  {
    CertIdsPrefix(certs, j);
  }

  lemma NextRow(rows: seq<Row>, b: Block, j: nat)
    requires j < |b.certs|
    ensures rows + RowsOf(b)[..j + 1] == rows + RowsOf(b)[..j] + [Row(b.certs[j], b.id, b.height)]
  {
    assert RowsOf(b)[..j + 1] == RowsOf(b)[..j] + [Row(b.certs[j], b.id, b.height)];
  }

  /** The loop over the wrapped transactions of a block. */
  method ProcessChildren(pq: Table, txns: Table, artifacts: Artifacts, id: Uuid, b: BlockCert,
                         ghost ring: seq<Uuid>, ghost chain: seq<Block>)
    returns (status: Status, pq': Table, txns': Table, artifacts': Artifacts, ghost ring': seq<Uuid>)
    requires |ring| >= 2 && Stored(pq, ring, txns, artifacts, View(pq, ring), Rows(chain))
    requires b.height.Some? && b.prev.Some? && b.id == Some(id)
    ensures status == Success <==>
      Processable(KeySet(View(pq, ring)), IdSet(History(chain)), b.certs)
    ensures status == Success ==>
      Stored(pq', ring', txns', artifacts', Without(View(pq, ring), IdSet(b.certs)), Rows(chain) + RowsOf(BlockOf(b)))
  {
    pq', txns', artifacts', ring' := pq, txns, artifacts, ring;
    ghost var q, rows, done := View(pq, ring), Rows(chain), IdSet(History(chain));
    var block := BlockOf(b);
    TxnKeys(txns, chain);
    QueueDistinct(pq, ring);
    WithoutNone(q, {});
    assert rows + RowsOf(block)[..0] == rows && IdSet(b.certs[..0]) == {};
    status := Success;
    var j := 0;
    while j < |b.certs|
      invariant 0 <= j <= |b.certs|
      invariant Moved(q, rows, block, j, pq', ring', txns', artifacts')
      invariant txns'.Keys == done + IdSet(b.certs[..j])
      invariant Processable(KeySet(q), done, b.certs[..j])
      invariant status == Success
    {
      status, pq', txns', artifacts', ring' :=
        MoveNext(pq', txns', artifacts', block, j, q, rows, done, ring');
      if status != Success {
        if Processable(KeySet(q), done, b.certs) {
          ProcessablePrefix(KeySet(q), done, b.certs, j + 1);
        }
        return;
      }
      j := j + 1;
    }
    assert b.certs[..j] == b.certs && RowsOf(block)[..j] == RowsOf(block);
  }
}
