/** Reading back what was written, completing it with defaults, and handing the two block limits
    to the canonization service. */
module ConfigRoundTrip {
  import opened Ids
  import opened ControlPackets
  import opened ConfigStream

  /** What `config_write_block` puts on the stream. */
  function Printed(net: Net, c: Config): seq<Value> {
    [U8(BOM)] + EncodedAll(RecordsOf(net, c)) + [U8(EOM)]
  }

  /** Ports are 16 bits wide. */
  predicate PortsOk(c: Config) {
    forall i :: 0 <= i < |c.listen| ==> c.listen[i].port < 0x1_0000
  }

  /** Every number is in range and every string short enough to be read. */
  predicate Sendable(c: Config) {
    && (forall f :: f in c.texts ==> |c.texts[f]| <= STRING_MAXIMUM)
    && (forall f :: f in c.numbers ==> InRange(f, c.numbers[f]))
    && (c.usergroup.Some? ==> |c.usergroup.value.0| <= STRING_MAXIMUM && |c.usergroup.value.1| <= STRING_MAXIMUM)
    && (forall i :: 0 <= i < |c.publicKeys| ==> |c.publicKeys[i]| <= STRING_MAXIMUM)
  }

  /** A config as the reader gets it: both lists turn around, and the database size and the views
      are not transmitted. */
  function Received(c: Config): Config {
    Config(c.texts, c.numbers, Reversed(c.listen), c.usergroup, Reversed(c.publicKeys), None, [])
  }

  // ---------- folding the written records, one after the other ----------

  /** After these records the reader holds `p`. */
  ghost predicate Holds(net: Net, rs: seq<Record>, p: Config) {
    Fits(net, EMPTY, rs) && Folded(net, EMPTY, rs) == p
  }

  lemma {:induction false} FoldAppend(net: Net, c: Config, rs: seq<Record>, r: Record)
    requires Fits(net, c, rs) && RecordOk(net, r) && Unset(Folded(net, c, rs), r)
    ensures Fits(net, c, rs + [r]) && Folded(net, c, rs + [r]) == Absorbed(net, Folded(net, c, rs), r)
    decreases |rs|
  {
    if rs == [] {
      assert rs + [r] == [r] && [r][1..] == [];
    } else {
      assert (rs + [r])[0] == rs[0] && (rs + [r])[1..] == rs[1..] + [r];
      FoldAppend(net, Absorbed(net, c, rs[0]), rs[1..], r);
    }
  }

  /** The settings written so far. */
  function Part(c: Config, texts: set<TextField>, numbers: set<NumberField>): Config {
    EMPTY.(texts := map f | f in c.texts && f in texts :: c.texts[f],
           numbers := map f | f in c.numbers && f in numbers :: c.numbers[f])
  }

  lemma TextStep(net: Net, c: Config, rs: seq<Record>, f: TextField, p: Config, texts: set<TextField>)
    requires Sendable(c) && Holds(net, rs, p) && f !in texts
    requires p.texts == map g | g in c.texts && g in texts :: c.texts[g]
    ensures Holds(net, rs + TextRecord(c, f), p.(texts := map g | g in c.texts && g in texts + {f} :: c.texts[g]))
  {
    var want := map g | g in c.texts && g in texts + {f} :: c.texts[g];
    if f in c.texts {
      FoldAppend(net, EMPTY, rs, Text(f, c.texts[f]));
      assert p.texts[f := c.texts[f]] == want;
    } else {
      assert rs + [] == rs;
      assert p.texts == want;
    }
  }

  lemma NumberStep(net: Net, c: Config, rs: seq<Record>, f: NumberField, p: Config, numbers: set<NumberField>)
    requires Sendable(c) && Holds(net, rs, p) && f !in numbers
    requires p.numbers == map g | g in c.numbers && g in numbers :: c.numbers[g]
    ensures Holds(net, rs + NumberRecord(c, f),
                  p.(numbers := map g | g in c.numbers && g in numbers + {f} :: c.numbers[g]))
  {
    var want := map g | g in c.numbers && g in numbers + {f} :: c.numbers[g];
    if f in c.numbers {
      FoldAppend(net, EMPTY, rs, Number(f, c.numbers[f]));
      assert p.numbers[f := c.numbers[f]] == want;
    } else {
      assert rs + [] == rs;
      assert p.numbers == want;
    }
  }

  lemma UserStep(net: Net, c: Config, rs: seq<Record>, p: Config)
    requires Sendable(c) && Holds(net, rs, p) && p.usergroup.None?
    ensures Holds(net, rs + UserRecord(c), p.(usergroup := c.usergroup))
  {
    if c.usergroup.Some? {
      FoldAppend(net, EMPTY, rs, UserGroup(c.usergroup.value.0, c.usergroup.value.1));
    } else {
      assert rs + [] == rs;
    }
  }

  lemma {:induction false} ReversedAppend<T>(s: seq<T>, x: T)
    ensures Reversed(s + [x]) == [x] + Reversed(s)
  {
    if s == [] {
      assert s + [x] == [x] && [x][1..] == [];
    } else {
      assert (s + [x])[0] == s[0] && (s + [x])[1..] == s[1..] + [x];
      ReversedAppend(s[1..], x);
    }
  }

  lemma {:induction false} ListenSteps(net: Net, c: Config, rs: seq<Record>, p: Config, n: nat)
    requires Inverse(net) && PortsOk(c) && Holds(net, rs, p) && p.listen == [] && n <= |c.listen|
    ensures Holds(net, rs + ListenRecords(net, c.listen[..n]), p.(listen := Reversed(c.listen[..n])))
  {
    if n == 0 {
      assert rs + ListenRecords(net, c.listen[..0]) == rs;
    } else {
      ListenSteps(net, c, rs, p, n - 1);
      var l, before := c.listen[n - 1], c.listen[..n - 1];
      assert c.listen[..n] == before + [l];
      ReversedAppend(before, l);
      var r := ListenAt(net.ntop(l.address), l.port);
      FoldAppend(net, EMPTY, rs + ListenRecords(net, before), r);
      assert rs + ListenRecords(net, c.listen[..n]) == rs + ListenRecords(net, before) + [r];
      assert net.pton(net.ntop(l.address)) == Some(l.address);
    }
  }

  lemma {:induction false} KeySteps(net: Net, c: Config, rs: seq<Record>, p: Config, n: nat)
    requires Sendable(c) && Holds(net, rs, p) && p.publicKeys == [] && n <= |c.publicKeys|
    ensures Holds(net, rs + KeyRecords(c.publicKeys[..n]), p.(publicKeys := Reversed(c.publicKeys[..n])))
  {
    if n == 0 {
      assert rs + KeyRecords(c.publicKeys[..0]) == rs;
    } else {
      KeySteps(net, c, rs, p, n - 1);
      var k, before := c.publicKeys[n - 1], c.publicKeys[..n - 1];
      assert c.publicKeys[..n] == before + [k];
      ReversedAppend(before, k);
      FoldAppend(net, EMPTY, rs + KeyRecords(before), PublicKey(k));
      assert rs + KeyRecords(c.publicKeys[..n]) == rs + KeyRecords(before) + [PublicKey(k)];
    }
  }

  const HEAD_TEXTS := {Logdir, Secret, Rootblock, Datastore}
  const ALL_NUMBERS := {Loglevel, BlockMaxMilliseconds, BlockMaxTransactions}

  lemma HeadSteps(net: Net, c: Config)
    requires Sendable(c)
    ensures Holds(net, HeadRecords(c), Part(c, HEAD_TEXTS, ALL_NUMBERS))
  {
    var p0 := Part(c, {}, {});
    assert p0 == EMPTY && Holds(net, [], p0);
    TextStep(net, c, [], Logdir, p0, {});
    var r1, p1 := [] + TextRecord(c, Logdir), Part(c, {Logdir}, {});
    NumberStep(net, c, r1, Loglevel, p1, {});
    var r2, p2 := r1 + NumberRecord(c, Loglevel), Part(c, {Logdir}, {Loglevel});
    NumberStep(net, c, r2, BlockMaxMilliseconds, p2, {Loglevel});
    var r3, p3 := r2 + NumberRecord(c, BlockMaxMilliseconds), Part(c, {Logdir}, {Loglevel, BlockMaxMilliseconds});
    NumberStep(net, c, r3, BlockMaxTransactions, p3, {Loglevel, BlockMaxMilliseconds});
    var r4, p4 := r3 + NumberRecord(c, BlockMaxTransactions), Part(c, {Logdir}, ALL_NUMBERS);
    HeadTexts(net, c, r4, p4);
    assert [] + TextRecord(c, Logdir) == TextRecord(c, Logdir);
  }

  lemma HeadTexts(net: Net, c: Config, rs: seq<Record>, p: Config)
    requires Sendable(c) && Holds(net, rs, p) && p == Part(c, {Logdir}, ALL_NUMBERS)
    ensures Holds(net, rs + TextRecord(c, Secret) + TextRecord(c, Rootblock) + TextRecord(c, Datastore),
                  Part(c, HEAD_TEXTS, ALL_NUMBERS))
  {
    TextStep(net, c, rs, Secret, p, {Logdir});
    var r1, p1 := rs + TextRecord(c, Secret), Part(c, {Logdir, Secret}, ALL_NUMBERS);
    TextStep(net, c, r1, Rootblock, p1, {Logdir, Secret});
    var r2, p2 := r1 + TextRecord(c, Rootblock), Part(c, {Logdir, Secret, Rootblock}, ALL_NUMBERS);
    TextStep(net, c, r2, Datastore, p2, {Logdir, Secret, Rootblock});
  }

  lemma TailSteps(net: Net, c: Config, rs: seq<Record>, p: Config)
    requires Sendable(c) && Holds(net, rs, p) && p.usergroup.None?
    requires p.texts == Part(c, HEAD_TEXTS, ALL_NUMBERS).texts
    ensures Holds(net, rs + TailRecords(c), p.(texts := c.texts, usergroup := c.usergroup))
  {
    TextStep(net, c, rs, Chroot, p, HEAD_TEXTS);
    var t1 := HEAD_TEXTS + {Chroot};
    var r1, p1 := rs + TextRecord(c, Chroot), p.(texts := map g | g in c.texts && g in t1 :: c.texts[g]);
    UserStep(net, c, r1, p1);
    var r2, p2 := r1 + UserRecord(c), p1.(usergroup := c.usergroup);
    TextStep(net, c, r2, PrivateKeyFile, p2, t1);
    var t3 := t1 + {PrivateKeyFile};
    var r3, p3 := r2 + TextRecord(c, PrivateKeyFile), p2.(texts := map g | g in c.texts && g in t3 :: c.texts[g]);
    TextStep(net, c, r3, EndorserKeyFile, p3, t3);
    var t4 := t3 + {EndorserKeyFile};
    forall f: TextField ensures f in t4 {
      match f {
        case Logdir => case Secret => case Rootblock => case Datastore =>
        case Chroot => case PrivateKeyFile => case EndorserKeyFile =>
      }
    }
    assert (map g | g in c.texts && g in t4 :: c.texts[g]) == c.texts;
    assert r3 + TextRecord(c, EndorserKeyFile) == rs + TailRecords(c);
  }

  lemma RecordsFold(net: Net, c: Config)
    requires Inverse(net) && PortsOk(c) && Sendable(c)
    ensures Holds(net, RecordsOf(net, c), Received(c))
  {
    HeadSteps(net, c);
    var p1 := Part(c, HEAD_TEXTS, ALL_NUMBERS);
    assert p1.numbers == c.numbers by {
      forall f: NumberField ensures f in ALL_NUMBERS {
        match f { case Loglevel => case BlockMaxMilliseconds => case BlockMaxTransactions => }
      }
    }
    ListenSteps(net, c, HeadRecords(c), p1, |c.listen|);
    assert c.listen[..|c.listen|] == c.listen;
    var r2, p2 := HeadRecords(c) + ListenRecords(net, c.listen), p1.(listen := Reversed(c.listen));
    TailSteps(net, c, r2, p2);
    var r3, p3 := r2 + TailRecords(c), p2.(texts := c.texts, usergroup := c.usergroup);
    KeySteps(net, c, r3, p3, |c.publicKeys|);
    assert c.publicKeys[..|c.publicKeys|] == c.publicKeys;
  }

  // ---------- the round trip ----------

  lemma TextIn(net: Net, c: Config, f: TextField)
    requires f in c.texts
    ensures Text(f, c.texts[f]) in RecordsOf(net, c)
  {
    var r := Text(f, c.texts[f]);
    assert r in TextRecord(c, f);
    if f == Chroot || f == PrivateKeyFile || f == EndorserKeyFile {
      assert r in TailRecords(c);
    } else {
      match f { case Logdir => case Secret => case Rootblock => case Datastore => }
      assert r in HeadRecords(c);
    }
  }

  lemma NumberIn(net: Net, c: Config, f: NumberField)
    requires f in c.numbers
    ensures Number(f, c.numbers[f]) in RecordsOf(net, c)
  {
    var r := Number(f, c.numbers[f]);
    assert r in NumberRecord(c, f);
    match f { case Loglevel => case BlockMaxMilliseconds => case BlockMaxTransactions => }
    assert r in HeadRecords(c);
  }

  /** A written config that was not sendable holds a record the reader refuses. */
  lemma UnsendableRecord(net: Net, c: Config)
    requires WellFormed(net, RecordsOf(net, c))
    ensures Sendable(c)
  {
    var rs := RecordsOf(net, c);
    forall r | r in rs ensures RecordOk(net, r) {
      var i :| 0 <= i < |rs| && rs[i] == r;
    }
    forall f | f in c.texts ensures |c.texts[f]| <= STRING_MAXIMUM {
      TextIn(net, c, f);
    }
    forall f | f in c.numbers ensures InRange(f, c.numbers[f]) {
      NumberIn(net, c, f);
    }
    if c.usergroup.Some? {
      assert UserGroup(c.usergroup.value.0, c.usergroup.value.1) in rs;
    }
    forall i | 0 <= i < |c.publicKeys| ensures |c.publicKeys[i]| <= STRING_MAXIMUM {
      assert KeyRecords(c.publicKeys)[i] == PublicKey(c.publicKeys[i]);
      assert PublicKey(c.publicKeys[i]) in rs;
    }
  }

  /** Round trip: what is written can be read back exactly when the numbers are in range and the
      strings not too long; then every transmitted field is restored, with both lists reversed. */
  lemma RoundTrip(net: Net, c: Config)
    requires Inverse(net) && PortsOk(c)
    ensures Parse(net, Printed(net, c)).Ok? <==> Sendable(c)
    ensures Sendable(c) ==> Parse(net, Printed(net, c)) == Ok(Received(c))
  {
    var rs := RecordsOf(net, c);
    ParseOf(net, rs, []);
    assert [U8(BOM)] + EncodedAll(rs) + [U8(EOM)] + [] == Printed(net, c);
    if Sendable(c) {
      RecordsFold(net, c);
    } else if WellFormed(net, rs) {
      UnsendableRecord(net, c);
    }
  }

  lemma {:induction false} ReversedTwice<T>(s: seq<T>)
    ensures Reversed(Reversed(s)) == s
  {
    if s != [] {
      ReversedAppend(Reversed(s[1..]), s[0]);
      ReversedTwice(s[1..]);
    }
  }

  lemma {:induction false} ReversedMember<T>(s: seq<T>, x: T)
    ensures x in Reversed(s) <==> x in s
  {
    if s != [] {
      ReversedMember(s[1..], x);
    }
  }

  /** Two round trips restore the config, but for the two fields that are not transmitted. */
  lemma TwoRoundTrips(net: Net, c: Config)
    requires Inverse(net) && PortsOk(c) && Sendable(c)
    ensures Parse(net, Printed(net, Received(c))) == Ok(c.(databaseMaxSize := None, views := []))
  {
    var d := Received(c);
    forall i | 0 <= i < |d.listen| ensures d.listen[i].port < 0x1_0000 {
      ReversedMember(c.listen, d.listen[i]);
      var j :| 0 <= j < |c.listen| && c.listen[j] == d.listen[i];
    }
    forall i | 0 <= i < |d.publicKeys| ensures |d.publicKeys[i]| <= STRING_MAXIMUM {
      ReversedMember(c.publicKeys, d.publicKeys[i]);
      var j :| 0 <= j < |c.publicKeys| && c.publicKeys[j] == d.publicKeys[i];
    }
    RoundTrip(net, d);
    ReversedTwice(c.listen);
    ReversedTwice(c.publicKeys);
  }
}
