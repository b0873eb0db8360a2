/** The configuration stream value by value: which numbers stand for what, in which order a whole
    configuration is written, and why a stream is rejected. */
module ConfigWire {
  import opened Ids
  import opened ControlPackets
  import opened ConfigStream

  // ---------- one setting ----------

  function Alone(vs: seq<Value>): seq<Value> {
    [U8(0x00)] + vs + [U8(0x80)]
  }

  /** A stream with one record is the encoding of that record between the marks. */
  lemma AloneIs(net: Net, r: Record)
    ensures Parse(net, Alone(Encoded(r))).Ok? <==> RecordOk(net, r)
    ensures RecordOk(net, r) ==> Parse(net, Alone(Encoded(r))) == Ok(Absorbed(net, EMPTY, r))
  {
    One(r);
    assert Alone(Encoded(r))[1..] == EncodedAll([r]) + [U8(EOM)] + [];
    ReadFromExactly(net, EMPTY, [r], []);
    assert [r][1..] == [];
    assert Fits(net, EMPTY, [r]) <==> RecordOk(net, r);
  }

  /** A text setting is read exactly when it has at most ten megabytes. */
  lemma TextAlone(net: Net, ty: nat, f: TextField, s: string)
    requires (ty, f) in {(0x01, Logdir), (0x03, Secret), (0x04, Rootblock), (0x05, Datastore), (0x07, Chroot),
                         (0x0B, PrivateKeyFile), (0x0D, EndorserKeyFile)}
    ensures Parse(net, [U8(0x00), U8(ty), Str(s), U8(0x80)]).Ok? <==> |s| <= 10485760
    ensures |s| <= 10485760 ==>
      Parse(net, [U8(0x00), U8(ty), Str(s), U8(0x80)]) == Ok(EMPTY.(texts := map[f := s]))
  {
    assert Alone(Encoded(Text(f, s))) == [U8(0x00), U8(ty), Str(s), U8(0x80)];
    AloneIs(net, Text(f, s));
  }

  /** A number setting is read exactly when it is not negative and within its limit. */
  lemma NumberAlone(net: Net, ty: nat, f: NumberField, limit: int, x: int64)
    requires (ty, f, limit) in {(0x02, Loglevel, 9), (0x09, BlockMaxMilliseconds, 43200000),
                                (0x0A, BlockMaxTransactions, 100000)}
    ensures Parse(net, [U8(0x00), U8(ty), I64(x), U8(0x80)]).Ok? <==> 0 <= x <= limit
    ensures 0 <= x <= limit ==>
      Parse(net, [U8(0x00), U8(ty), I64(x), U8(0x80)]) == Ok(EMPTY.(numbers := map[f := x]))
  {
    assert Alone(Encoded(Number(f, x))) == [U8(0x00), U8(ty), I64(x), U8(0x80)];
    AloneIs(net, Number(f, x));
  }

  /** A listen address is read when it can be converted; of its port the low 16 bits count. */
  lemma ListenAlone(net: Net, a: string, port: nat)
    ensures Parse(net, [U8(0x00), U8(0x06), Str(a), U64(port), U8(0x80)]).Ok? <==> |a| <= 10485760 && net.pton(a).Some?
    ensures |a| <= 10485760 && net.pton(a).Some? ==>
      Parse(net, [U8(0x00), U8(0x06), Str(a), U64(port), U8(0x80)])
        == Ok(EMPTY.(listen := [Listen(net.pton(a).value, port % 65536)]))
  {
    assert Alone(Encoded(ListenAt(a, port))) == [U8(0x00), U8(0x06), Str(a), U64(port), U8(0x80)];
    AloneIs(net, ListenAt(a, port));
    if net.pton(a).Some? {
      assert [Listen(net.pton(a).value, port % 65536)] + [] == [Listen(net.pton(a).value, port % 65536)];
    }
  }

  lemma UserAlone(net: Net, user: string, group: string)
    requires |user| <= 10485760 && |group| <= 10485760
    ensures Parse(net, [U8(0x00), U8(0x08), Str(user), Str(group), U8(0x80)])
         == Ok(EMPTY.(usergroup := Some((user, group))))
  {
    assert Alone(Encoded(UserGroup(user, group))) == [U8(0x00), U8(0x08), Str(user), Str(group), U8(0x80)];
    AloneIs(net, UserGroup(user, group));
  }

  lemma KeyAlone(net: Net, s: string)
    requires |s| <= 10485760
    ensures Parse(net, [U8(0x00), U8(0x0C), Str(s), U8(0x80)]) == Ok(EMPTY.(publicKeys := [s]))
  {
    assert Alone(Encoded(PublicKey(s))) == [U8(0x00), U8(0x0C), Str(s), U8(0x80)];
    AloneIs(net, PublicKey(s));
    assert [s] + [] == [s];
  }

  // ---------- a whole configuration ----------

  predicate Full(c: Config, l: Listen, k: string) {
    && (forall f: TextField :: f in c.texts) && (forall f: NumberField :: f in c.numbers)
    && c.usergroup.Some? && c.listen == [l] && c.publicKeys == [k]
  }

  function HeadStream(c: Config): seq<Value>
    requires (forall f: TextField :: f in c.texts) && (forall f: NumberField :: f in c.numbers)
  {
    [U8(0x01), Str(c.texts[Logdir]), U8(0x02), I64(c.numbers[Loglevel]),
     U8(0x09), I64(c.numbers[BlockMaxMilliseconds]), U8(0x0A), I64(c.numbers[BlockMaxTransactions]),
     U8(0x03), Str(c.texts[Secret]), U8(0x04), Str(c.texts[Rootblock]), U8(0x05), Str(c.texts[Datastore])]
  }

  function TailStream(c: Config): seq<Value>
    requires (forall f: TextField :: f in c.texts) && c.usergroup.Some?
  {
    [U8(0x07), Str(c.texts[Chroot]), U8(0x08), Str(c.usergroup.value.0), Str(c.usergroup.value.1),
     U8(0x0B), Str(c.texts[PrivateKeyFile]), U8(0x0D), Str(c.texts[EndorserKeyFile])]
  }

  /** The stream of a configuration that sets everything, with one listen address and one key. */
  lemma WrittenInFull(net: Net, c: Config, l: Listen, k: string)
    requires Full(c, l, k)
    ensures [U8(BOM)] + EncodedAll(RecordsOf(net, c)) + [U8(EOM)]
         == [U8(0x00)] + (HeadStream(c) + [U8(0x06), Str(net.ntop(l.address)), U64(l.port)] + TailStream(c)
                          + [U8(0x0C), Str(k)]) + [U8(0x80)]
  {
    var h, ls, t, ks := HeadRecords(c), ListenRecords(net, c.listen), TailRecords(c), KeyRecords(c.publicKeys);
    HeadIs(c);
    TailIs(c);
    assert ls == [ListenAt(net.ntop(l.address), l.port)] && ks == [PublicKey(k)];
    One(ls[0]);
    One(ks[0]);
    EncodedAppend(h + ls + t, ks);
    EncodedAppend(h + ls, t);
    EncodedAppend(h, ls);
  }

  lemma One(r: Record)
    ensures EncodedAll([r]) == Encoded(r)
  {
    assert [r][1..] == [];
  }

  lemma Two(r: Record, s: Record)
    ensures EncodedAll([r, s]) == Encoded(r) + Encoded(s)
  {
    assert [r, s][1..] == [s];
    One(s);
  }

  lemma HeadIs(c: Config)
    requires (forall f: TextField :: f in c.texts) && (forall f: NumberField :: f in c.numbers)
    ensures EncodedAll(HeadRecords(c)) == HeadStream(c)
  {
    var a, b := Text(Logdir, c.texts[Logdir]), Number(Loglevel, c.numbers[Loglevel]);
    var d := Number(BlockMaxMilliseconds, c.numbers[BlockMaxMilliseconds]);
    var e := Number(BlockMaxTransactions, c.numbers[BlockMaxTransactions]);
    var f, g := Text(Secret, c.texts[Secret]), Text(Rootblock, c.texts[Rootblock]);
    var h := Text(Datastore, c.texts[Datastore]);
    assert HeadRecords(c) == [a] + [b] + [d] + [e] + [f] + [g] + [h];
    Seven(a, b, d, e, f, g, h);
    Pairs(Encoded(a), Encoded(b), Encoded(d), Encoded(e), Encoded(f), Encoded(g), Encoded(h));
  }

  lemma Pairs(a: seq<Value>, b: seq<Value>, c: seq<Value>, d: seq<Value>, e: seq<Value>, f: seq<Value>, g: seq<Value>)
    requires |a| == |b| == |c| == |d| == |e| == |f| == |g| == 2
    ensures a + b + c + d + e + f + g
         == [a[0], a[1], b[0], b[1], c[0], c[1], d[0], d[1], e[0], e[1], f[0], f[1], g[0], g[1]]
  {
    assert a + b == [a[0], a[1], b[0], b[1]];
    assert a + b + c == [a[0], a[1], b[0], b[1], c[0], c[1]];
    assert a + b + c + d == [a[0], a[1], b[0], b[1], c[0], c[1], d[0], d[1]];
    assert e + f == [e[0], e[1], f[0], f[1]];
  }

  lemma Seven(a: Record, b: Record, c: Record, d: Record, e: Record, f: Record, g: Record)
    ensures EncodedAll([a] + [b] + [c] + [d] + [e] + [f] + [g])
         == Encoded(a) + Encoded(b) + Encoded(c) + Encoded(d) + Encoded(e) + Encoded(f) + Encoded(g)
  {
    EncodedOneMore([a] + [b] + [c] + [d] + [e] + [f], g);
    EncodedOneMore([a] + [b] + [c] + [d] + [e], f);
    EncodedOneMore([a] + [b] + [c] + [d], e);
    EncodedOneMore([a] + [b] + [c], d);
    EncodedOneMore([a] + [b], c);
    EncodedOneMore([a], b);
    One(a);
  }

  lemma EncodedOneMore(rs: seq<Record>, r: Record)
    ensures EncodedAll(rs + [r]) == EncodedAll(rs) + Encoded(r)
  {
    EncodedAppend(rs, [r]);
    One(r);
  }

  lemma TailIs(c: Config)
    requires (forall f: TextField :: f in c.texts) && c.usergroup.Some?
    ensures EncodedAll(TailRecords(c)) == TailStream(c)
  {
    var a, b := Text(Chroot, c.texts[Chroot]), UserGroup(c.usergroup.value.0, c.usergroup.value.1);
    var d, e := Text(PrivateKeyFile, c.texts[PrivateKeyFile]), Text(EndorserKeyFile, c.texts[EndorserKeyFile]);
    assert TailRecords(c) == [a, b] + [d, e];
    EncodedAppend([a, b], [d, e]);
    Two(a, b);
    Two(d, e);
  }

  // ---------- why a stream is rejected ----------

  predicate StringAt(vs: seq<Value>, i: nat) {
    i < |vs| && vs[i].Str? && |vs[i].s| <= 10485760
  }

  /** What is wrong with what follows the records read so far, if anything is. */
  function Wrong(net: Net, c: Config, vs: seq<Value>): Option<ReadError> {
    if vs == [] || !vs[0].U8? then Some(InvalidStream)
    else if TextOf(vs[0].n).Some? then
      if TextOf(vs[0].n).value in c.texts then Some(InvalidStream)
      else if !StringAt(vs, 1) then Some(ReadDataFailure) else None
    else if NumberOf(vs[0].n).Some? then
      if NumberOf(vs[0].n).value in c.numbers then Some(InvalidStream)
      else if |vs| < 2 || !vs[1].I64? then Some(ReadDataFailure)
      else if !InRange(NumberOf(vs[0].n).value, vs[1].x) then Some(InvalidStream) else None
    else if vs[0].n == 0x06 then
      if !StringAt(vs, 1) then Some(ReadDataFailure)
      else if net.pton(vs[1].s).None? then Some(PtonFailure)
      else if |vs| < 3 || !vs[2].U64? then Some(ReadDataFailure) else None
    else if vs[0].n == 0x08 then
      if c.usergroup.Some? then Some(InvalidStream)
      else if !StringAt(vs, 1) || !StringAt(vs, 2) then Some(ReadDataFailure) else None
    else if vs[0].n == 0x0C then
      if !StringAt(vs, 1) then Some(ReadDataFailure) else None
    else if vs[0].n == 0x80 then None
    else Some(InvalidStream)
  }

  /** Behind any records that can be absorbed the parser goes on with what follows them, and it gives
      up there exactly for the reason that shows there. */
  lemma {:induction false} RejectedExactly(net: Net, c: Config, rs: seq<Record>, tail: seq<Value>)
    requires Fits(net, c, rs)
    ensures ReadFrom(net, c, EncodedAll(rs) + tail) == ReadFrom(net, Folded(net, c, rs), tail)
    ensures Wrong(net, Folded(net, c, rs), tail).Some? ==>
      ReadFrom(net, c, EncodedAll(rs) + tail) == Err(Wrong(net, Folded(net, c, rs), tail).value)
    decreases |rs|
  {
    if rs == [] {
      assert EncodedAll(rs) + tail == tail;
      WrongIsFound(net, c, tail);
    } else {
      var rest := EncodedAll(rs[1..]) + tail;
      JoinedFront(Encoded(rs[0]), EncodedAll(rs[1..]), tail);
      ReadOneExactly(net, c, rs[0], rest);
      ReadOnward(net, c, rs[0], rest);
      RejectedExactly(net, Absorbed(net, c, rs[0]), rs[1..], tail);
    }
  }

  lemma JoinedFront(a: seq<Value>, b: seq<Value>, c: seq<Value>)
    ensures (a + b) + c == a + (b + c)
  {}

  lemma ReadOnward(net: Net, c: Config, r: Record, rest: seq<Value>)
    requires RecordOk(net, r) && Unset(c, r) && Encoded(r)[0].n != EOM
    requires ReadOne(net, c, Encoded(r) + rest) == Ok((Absorbed(net, c, r), |Encoded(r)|))
    ensures ReadFrom(net, c, Encoded(r) + rest) == ReadFrom(net, Absorbed(net, c, r), rest)
  {
    var vs := Encoded(r) + rest;
    assert vs[|Encoded(r)|..] == rest && vs[0] == Encoded(r)[0];
  }

  lemma WrongIsFound(net: Net, c: Config, vs: seq<Value>)
    ensures Wrong(net, c, vs).Some? ==> ReadFrom(net, c, vs) == Err(Wrong(net, c, vs).value)
  {
    if vs != [] && vs[0].U8? && vs[0].n != EOM && Wrong(net, c, vs).Some? {
      assert ReadOne(net, c, vs) == Err(Wrong(net, c, vs).value);
    }
  }

  /** And a stream without a begin mark is rejected at once. */
  lemma NoBeginMark(net: Net, vs: seq<Value>)
    ensures vs == [] || !vs[0].U8? ==> Parse(net, vs) == Err(ReadDataFailure)
    ensures vs != [] && vs[0].U8? && vs[0].n != 0x00 ==> Parse(net, vs) == Err(InvalidStream)
  {}
}
