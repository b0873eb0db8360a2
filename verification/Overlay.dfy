/** What the attestation service's memory says about an artifact after any sequence of
    promotions, and how that compares with the database once those transactions are canonized. */
module Overlay {
  import opened Ids
  import opened Ledger
  import opened Database
  import opened Attestation

  /** A promoted transaction and the queue predecessor it was read with. */
  datatype Promotion = Promotion(entry: Entry, prev: Uuid)

  /** The memory after a round's promotions; none when one of them failed. */
  function Replay(ps: seq<Promotion>, db: Artifacts): Option<Memory> {
    if ps == [] then Some(NOTHING)
    else
      var n := |ps| - 1;
      match Replay(ps[..n], db)
      case None => None
      case Some(m) => Remembered(m, db, ps[n].entry, ps[n].prev)
  }

  /** The last promotion on an artifact; -1 when there is none. */
  function LastOn(ps: seq<Promotion>, a: Uuid): (l: int)
    ensures -1 <= l < |ps|
    ensures l >= 0 ==> ps[l].entry.artifact == a
    ensures forall i :: l < i < |ps| ==> ps[i].entry.artifact != a
  {
    if ps == [] then -1
    else if ps[|ps| - 1].entry.artifact == a then |ps| - 1
    else LastOn(ps[..|ps| - 1], a)
  }

  /** The first promotion on an artifact; the number of promotions when there is none. */
  function FirstOn(ps: seq<Promotion>, a: Uuid): (f: nat)
    ensures f <= |ps|
    ensures f < |ps| ==> ps[f].entry.artifact == a
    ensures forall i :: 0 <= i < f ==> ps[i].entry.artifact != a
  {
    if ps == [] then 0
    else
      var n := |ps| - 1;
      var f := FirstOn(ps[..n], a);
      if f < n then f else if ps[n].entry.artifact == a then n else n + 1
  }

  /** What a lookup must answer after a round's promotions. */
  predicate AnswersFor(m: Memory, ps: seq<Promotion>, db: Artifacts, a: Uuid) {
    var l, f, r := LastOn(ps, a), FirstOn(ps, a), Known(m, db, a);
    if l < 0 then a !in m.artifacts
    else
      && a in m.artifacts && r.value.key == a
      && r.value.latest == ps[l].entry.key
      && r.value.state == Code(ps[l].entry.state)
      && f < |ps|
      && (ps[f].prev == Zero ==>
            r.value.first == ps[f].entry.key && r.value.heightFirst == 0 && r.value.heightLatest == 0)
      && (ps[f].prev != Zero ==>
            && a in db && r.value.first == db[a].first
            && r.value.heightFirst == db[a].heightFirst && r.value.heightLatest == db[a].heightLatest)
  }

  /** Overlay: after any sequence of promotions a lookup answers with the last promoted
      transaction on the artifact and an unchanging first one, or else with the database record. */
  lemma {:induction false} OverlayLookup(ps: seq<Promotion>, db: Artifacts, a: Uuid)
    requires Replay(ps, db).Some? && Keyed(db)
    ensures Keyed(Replay(ps, db).value.artifacts)
    ensures AnswersFor(Replay(ps, db).value, ps, db, a)
    ensures LastOn(ps, a) < 0 ==> Known(Replay(ps, db).value, db, a) == if a in db then Some(db[a]) else None
    decreases |ps|
  {
    if ps != [] {
      var n := |ps| - 1;
      OverlayLookup(ps[..n], db, a);
      OverlayLookup(ps[..n], db, ps[n].entry.artifact);
      var m := Replay(ps[..n], db).value;
      RememberedKeyed(m, db, ps[n].entry, ps[n].prev);
      if a == ps[n].entry.artifact {
        TouchedAnswer(m, ps, db);
      } else {
        UntouchedAnswer(m, ps, db, a);
      }
    }
  }

  /** The states in a record, as numbers: a round takes its transactions while they are submitted, so
      it remembers 1 for them. */
  lemma RememberedStates(ps: seq<Promotion>, db: Artifacts, a: Uuid)
    requires Replay(ps, db).Some? && Keyed(db) && LastOn(ps, a) >= 0
    ensures a in Replay(ps, db).value.artifacts
    ensures var state, n := ps[LastOn(ps, a)].entry.state, Replay(ps, db).value.artifacts[a].state;
      && (state == Unknown ==> n == 0) && (state == Submitted ==> n == 1)
      && (state == Attested ==> n == 2) && (state == Canonized ==> n == 3)
  {
    OverlayLookup(ps, db, a);
  }

  lemma {:induction false} RememberedKeyed(m: Memory, db: Artifacts, e: Entry, prev: Uuid)
    requires Keyed(m.artifacts) && Keyed(db) && Remembered(m, db, e, prev).Some?
    ensures var t := Remembered(m, db, e, prev).value.artifacts;
      && Keyed(t) && e.artifact in t
      && forall a :: a != e.artifact ==> (a in t <==> a in m.artifacts) && (a in t ==> t[a] == m.artifacts[a])
  {}

  /** The last promotion is on this artifact. */
  lemma {:induction false} TouchedAnswer(m: Memory, ps: seq<Promotion>, db: Artifacts)
    requires ps != [] && Keyed(m.artifacts) && Keyed(db)
    requires AnswersFor(m, ps[..|ps| - 1], db, ps[|ps| - 1].entry.artifact)
    requires Remembered(m, db, ps[|ps| - 1].entry, ps[|ps| - 1].prev).Some?
    ensures AnswersFor(Remembered(m, db, ps[|ps| - 1].entry, ps[|ps| - 1].prev).value, ps, db,
                       ps[|ps| - 1].entry.artifact)
  {}

  /** The last promotion is on another artifact. */
  lemma {:induction false} UntouchedAnswer(m: Memory, ps: seq<Promotion>, db: Artifacts, a: Uuid)
    requires ps != [] && Keyed(m.artifacts) && Keyed(db) && a != ps[|ps| - 1].entry.artifact
    requires AnswersFor(m, ps[..|ps| - 1], db, a)
    requires Remembered(m, db, ps[|ps| - 1].entry, ps[|ps| - 1].prev).Some?
    ensures AnswersFor(Remembered(m, db, ps[|ps| - 1].entry, ps[|ps| - 1].prev).value, ps, db, a)
  {
    RememberedKeyed(m, db, ps[|ps| - 1].entry, ps[|ps| - 1].prev);
  }

  /** Remembering another transaction never changes the first one of an artifact in memory. */
  lemma FirstNeverChanges(m: Memory, db: Artifacts, e: Entry, prev: Uuid, a: Uuid)
    requires a in m.artifacts && Keyed(m.artifacts) && Keyed(db) && Remembered(m, db, e, prev).Some?
    ensures a in Remembered(m, db, e, prev).value.artifacts
    ensures Remembered(m, db, e, prev).value.artifacts[a].first == m.artifacts[a].first
  {}

  function Entries(ps: seq<Promotion>): seq<Entry> {
    seq(|ps|, i requires 0 <= i < |ps| => ps[i].entry)
  }

  /** Only the first promotion of a round is read at the head of the queue. */
  predicate HeadFirst(ps: seq<Promotion>) {
    forall i :: 0 <= i < |ps| ==> (ps[i].prev == Zero <==> i == 0)
  }

  /** The memory a round leaves is that of the transactions it took, the first of which alone was
      read at the head of the queue. */
  lemma {:induction false} RoundMemory(es: seq<Entry>, m: Memory, db: Db, v: Verifiers, ps: seq<Promotion>)
    returns (all: seq<Promotion>)
    requires Replay(ps, db.artifacts) == Some(m) && HeadFirst(ps)
    requires Judged(es, m, db, v, ps == []).ok
    ensures Replay(all, db.artifacts) == Some(Judged(es, m, db, v, ps == []).memory)
    ensures HeadFirst(all) && Entries(all) == Entries(ps) + Judged(es, m, db, v, ps == []).taken
    decreases |es|
  {
    if es == [] {
      all := ps;
      assert Entries(ps) + [] == Entries(ps);
    } else if !v.Accept(m, db, es[0]) {
      all := RoundMemory(es[1..], m, db, v, ps);
    } else {
      var next := Promotion(es[0], if ps == [] then Zero else Ones);
      var m' := Remembered(m, db.artifacts, es[0], next.prev).value;
      Extended(ps, next, db.artifacts);
      all := RoundMemory(es[1..], m', db, v, ps + [next]);
      Grouped(Entries(ps), es[0], Judged(es[1..], m', db, v, false).taken);
    }
  }

  lemma {:induction false} Extended(ps: seq<Promotion>, next: Promotion, db: Artifacts)
    requires HeadFirst(ps) && (next.prev == Zero <==> ps == [])
    ensures Replay(ps, db).Some? ==>
      Replay(ps + [next], db) == Remembered(Replay(ps, db).value, db, next.entry, next.prev)
    ensures HeadFirst(ps + [next]) && Entries(ps + [next]) == Entries(ps) + [next.entry]
  {
    assert (ps + [next])[..|ps|] == ps;
  }

  lemma Grouped(a: seq<Entry>, e: Entry, b: seq<Entry>)
    ensures (a + [e]) + b == a + ([e] + b)
  {}

  // ---------- the same transactions in the database ----------

  /** The rows the promoted transactions become when they are canonized. */
  predicate RowsFor(ps: seq<Promotion>, added: seq<Row>) {
    && |added| == |ps|
    && forall i :: 0 <= i < |ps| ==> RowFor(ps[i].entry, added[i])
  }

  predicate RowFor(e: Entry, row: Row) {
    row.cert == e.cert && e.cert.Complete() && e.cert.id.value == e.key && e.cert.artifact.value == e.artifact
  }

  /** The canonized transactions and, after them, the promoted ones. */
  lemma {:induction false} JoinedRows(rows: seq<Row>, added: seq<Row>, ps: seq<Promotion>)
    requires AllComplete(rows) && RowsFor(ps, added)
    ensures AllComplete(rows + added)
    ensures forall i :: 0 <= i < |ps| ==> (rows + added)[|rows| + i].cert.artifact.value == ps[i].entry.artifact
  {
    var all := rows + added;
    forall i | 0 <= i < |all| ensures all[i].cert.Complete() {
      if i >= |rows| { assert RowFor(ps[i - |rows|].entry, added[i - |rows|]); }
    }
    forall i | 0 <= i < |ps| ensures all[|rows| + i].cert.artifact.value == ps[i].entry.artifact {
      assert RowFor(ps[i].entry, added[i]);
    }
  }

  lemma {:induction false} LastRowIs(rows: seq<Row>, a: Uuid, l: nat)
    requires AllComplete(rows) && l < |rows| && rows[l].cert.artifact.value == a
    requires forall i :: l < i < |rows| ==> rows[i].cert.artifact.value != a
    ensures LastRow(rows, a) == l
  {}

  lemma {:induction false} FirstRowIs(rows: seq<Row>, a: Uuid, f: nat)
    requires AllComplete(rows) && f < |rows| && rows[f].cert.artifact.value == a
    requires forall i :: 0 <= i < f ==> rows[i].cert.artifact.value != a
    ensures FirstRow(rows, a) == f
  {}

  lemma {:induction false} LastRowAppend(rows: seq<Row>, added: seq<Row>, ps: seq<Promotion>, a: Uuid)
    requires AllComplete(rows) && RowsFor(ps, added) && LastOn(ps, a) >= 0
    ensures AllComplete(rows + added)
    ensures LastRow(rows + added, a) == |rows| + LastOn(ps, a)
  {
    var all, l := rows + added, LastOn(ps, a);
    JoinedRows(rows, added, ps);
    forall i | |rows| + l < i < |all| ensures all[i].cert.artifact.value != a {
      assert all[|rows| + (i - |rows|)].cert.artifact.value == ps[i - |rows|].entry.artifact;
    }
    assert all[|rows| + l].cert.artifact.value == ps[l].entry.artifact;
    LastRowIs(all, a, |rows| + l);
  }

  lemma {:induction false} FirstRowAppend(rows: seq<Row>, added: seq<Row>, ps: seq<Promotion>, a: Uuid)
    requires AllComplete(rows) && RowsFor(ps, added) && LastOn(ps, a) >= 0
    ensures AllComplete(rows + added)
    ensures FirstRow(rows + added, a) ==
      if FirstRow(rows, a) < |rows| then FirstRow(rows, a) else |rows| + FirstOn(ps, a)
  {
    var all, f, g := rows + added, FirstOn(ps, a), FirstRow(rows, a);
    JoinedRows(rows, added, ps);
    assert forall i :: 0 <= i < |rows| ==> all[i] == rows[i];
    if g < |rows| {
      FirstRowIs(all, a, g);
    } else {
      forall i | 0 <= i < |rows| + f ensures all[i].cert.artifact.value != a {
        if i >= |rows| {
          assert all[|rows| + (i - |rows|)].cert.artifact.value == ps[i - |rows|].entry.artifact;
        }
      }
      assert f < |ps|;
      assert all[|rows| + f].cert.artifact.value == ps[f].entry.artifact;
      FirstRowIs(all, a, |rows| + f);
    }
  }

  /** Once its promoted transactions are canonized, the database agrees with the memory of the
      round on the latest transaction of every artifact.  It agrees on the first one exactly
      unless an artifact that already existed was taken for a new one because its transaction
      stood at the head of the queue; and on the state exactly when the certificate's artifact
      state happens to be the number of the transaction's own state. */
  lemma {:induction false} OverlayAgreesWithDatabase(ps: seq<Promotion>, rows: seq<Row>, added: seq<Row>,
                                                     db: Artifacts, db': Artifacts, a: Uuid)
    requires ArtifactIndex(db, rows) && ArtifactIndex(db', rows + added) && RowsFor(ps, added)
    requires Replay(ps, db).Some? && LastOn(ps, a) >= 0
    ensures a in db' && a in Replay(ps, db).value.artifacts
    ensures var r, l := Replay(ps, db).value.artifacts[a], LastOn(ps, a);
      && db'[a].latest == r.latest
      && (db'[a].first == r.first <==>
            ps[FirstOn(ps, a)].prev != Zero || a !in db || db[a].first == ps[FirstOn(ps, a)].entry.key)
      && (db'[a].state == r.state <==> ps[l].entry.cert.state == Some(Code(ps[l].entry.state)))
  {
    var f, l := FirstOn(ps, a), LastOn(ps, a);
    KeyedIndex(db, rows);
    OverlayLookup(ps, db, a);
    LastRowAppend(rows, added, ps, a);
    FirstRowAppend(rows, added, ps, a);
    assert ArtifactAt(db, rows, a) && ArtifactAt(db', rows + added, a);
    assert (rows + added)[|rows| + l] == added[l] && RowFor(ps[l].entry, added[l]);
    if FirstRow(rows, a) == |rows| {
      assert (rows + added)[|rows| + f] == added[f] && RowFor(ps[f].entry, added[f]);
      assert a !in db;
    } else {
      assert LastRow(rows, a) >= FirstRow(rows, a);
      assert (rows + added)[FirstRow(rows, a)] == rows[FirstRow(rows, a)];
    }
  }

  lemma {:induction false} KeyedIndex(db: Artifacts, rows: seq<Row>)
    requires ArtifactIndex(db, rows)
    ensures Keyed(db)
  {
    forall k | k in db ensures db[k].key == k {
      assert ArtifactAt(db, rows, k);
    }
  }

  /** The same without the assumption that a certificate names the artifact it was submitted for,
      which nobody checks: the database agrees with the memory on the latest transaction of an
      artifact exactly when the certificate of the last one promoted on it names it and no later
      certificate does. */
  lemma {:induction false} LatestAgreesExactly(ps: seq<Promotion>, rows: seq<Row>, added: seq<Row>,
                                               db: Artifacts, db': Artifacts, a: Uuid)
    requires ArtifactIndex(db, rows) && ArtifactIndex(db', rows + added) && LooseRowsFor(ps, added)
    requires Distinct(RowIds(rows + added))
    requires Replay(ps, db).Some? && LastOn(ps, a) >= 0
    ensures a in Replay(ps, db).value.artifacts
    ensures var r, l := Replay(ps, db).value.artifacts[a], LastOn(ps, a);
      (a in db' && db'[a].latest == r.latest) <==>
        && ps[l].entry.cert.artifact == Some(a)
        && forall i :: l < i < |ps| ==> ps[i].entry.cert.artifact != Some(a)
  {
    var l, all := LastOn(ps, a), rows + added;
    KeyedIndex(db, rows);
    OverlayLookup(ps, db, a);
    assert ArtifactAt(db', all, a);
    assert all[|rows| + l] == added[l] && LooseRowFor(ps[l].entry, added[l]);
    LastRowExactly(all, a, |rows| + l);
    LaterRows(ps, rows, added, a, l);
  }

  predicate LooseRowFor(e: Entry, row: Row) {
    row.cert == e.cert && e.cert.Complete() && e.cert.id.value == e.key
  }

  predicate LooseRowsFor(ps: seq<Promotion>, added: seq<Row>) {
    && |added| == |ps|
    && forall i :: 0 <= i < |ps| ==> LooseRowFor(ps[i].entry, added[i])
  }

  function RowIds(rows: seq<Row>): seq<Uuid> {
    seq(|rows|, i requires 0 <= i < |rows| => if rows[i].cert.id.Some? then rows[i].cert.id.value else Zero)
  }

  /** Row `l` gives the latest transaction of an artifact exactly when it is the last one on it. */
  lemma {:induction false} LastRowExactly(rows: seq<Row>, a: Uuid, l: nat)
    requires AllComplete(rows) && Distinct(RowIds(rows)) && l < |rows|
    ensures LastRow(rows, a) >= 0 && rows[LastRow(rows, a)].cert.id.value == rows[l].cert.id.value <==>
      rows[l].cert.artifact.value == a && forall i :: l < i < |rows| ==> rows[i].cert.artifact.value != a
  {
    var k := LastRow(rows, a);
    if k >= 0 {
      assert RowIds(rows)[k] == rows[k].cert.id.value && RowIds(rows)[l] == rows[l].cert.id.value;
    }
  }

  lemma {:induction false} LaterRows(ps: seq<Promotion>, rows: seq<Row>, added: seq<Row>, a: Uuid, l: nat)
    requires LooseRowsFor(ps, added) && l < |ps|
    ensures (forall i :: l < i < |ps| ==> ps[i].entry.cert.artifact != Some(a)) <==>
      forall i :: |rows| + l < i < |rows + added| ==> (rows + added)[i].cert.artifact != Some(a)
  {
    var all := rows + added;
    forall i | l < i < |ps| ensures all[|rows| + i].cert.artifact == ps[i].entry.cert.artifact {
      assert LooseRowFor(ps[i].entry, added[i]);
    }
    forall i | |rows| + l < i < |all| ensures all[i].cert.artifact == ps[i - |rows|].entry.cert.artifact {
      assert LooseRowFor(ps[i - |rows|].entry, added[i - |rows|]) && all[i] == added[i - |rows|];
    }
  }

  /** An input where the first transaction comes out wrong: an artifact that exists, and its next
      transaction at the head of the queue. */
  lemma ExistingArtifactAtHead(first: Row, e: Entry, row: Row, db: Artifacts, db': Artifacts)
    requires first.cert.Complete() && RowFor(e, row) && first.cert.artifact.value == e.artifact
    requires first.cert.id.value != e.key
    requires ArtifactIndex(db, [first]) && ArtifactIndex(db', [first] + [row])
    ensures var ps := [Promotion(e, Zero)];
      && Replay(ps, db).Some? && e.artifact in Replay(ps, db).value.artifacts && e.artifact in db'
      && Replay(ps, db).value.artifacts[e.artifact].first == e.key
      && db'[e.artifact].first == first.cert.id.value
  {
    var ps, a := [Promotion(e, Zero)], e.artifact;
    assert ps[..0] == [] && Replay(ps, db) == Remembered(NOTHING, db, e, Zero);
    assert LastOn(ps, a) == 0;
    OverlayAgreesWithDatabase(ps, [first], [row], db, db', a);
    assert ArtifactAt(db', [first] + [row], a);
    FirstRowIs([first] + [row], a, 0);
  }
}
