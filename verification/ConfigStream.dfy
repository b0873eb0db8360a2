/** The configuration stream: a printer and a parser of typed values.  The parser is characterised
    by the record sequences it accepts, and the two are shown to be inverse up to the order of
    the two lists. */
module ConfigStream {
  import opened Ids
  import opened ControlPackets

  /** One typed value of a stream. */
  datatype Value = U8(n: nat) | I64(x: int64) | U64(n: nat) | Str(s: string)

  /** The settings that hold one string each, and those that hold one number each. */
  datatype TextField = Logdir | Secret | Rootblock | Datastore | Chroot | PrivateKeyFile | EndorserKeyFile
  datatype NumberField = Loglevel | BlockMaxMilliseconds | BlockMaxTransactions

  datatype Listen = Listen(address: nat, port: nat)

  datatype Config = Config(
    texts: map<TextField, string>,
    numbers: map<NumberField, int64>,
    listen: seq<Listen>,
    usergroup: Option<(string, string)>,
    publicKeys: seq<string>,
    databaseMaxSize: Option<int64>,
    views: seq<string>)

  const EMPTY := Config(map[], map[], [], None, [], None, [])

  /** Conversion between addresses and their presentation form. */
  datatype Net = Net(ntop: nat -> string, pton: string -> Option<nat>)

  ghost predicate Inverse(net: Net) {
    forall a: nat :: net.pton(net.ntop(a)) == Some(a) && |net.ntop(a)| <= STRING_MAXIMUM
  }

  const STRING_MAXIMUM := 10 * 1024 * 1024
  const BLOCK_MILLISECONDS_MAXIMUM := 43200000
  const BLOCK_TRANSACTIONS_MAXIMUM := 100000

  const BOM := 0x00
  const LISTEN_ADDR := 0x06
  const USERGROUP := 0x08
  const PUBLIC_KEY := 0x0C
  const EOM := 0x80

  function TextType(f: TextField): nat {
    match f
    case Logdir => 0x01
    case Secret => 0x03
    case Rootblock => 0x04
    case Datastore => 0x05
    case Chroot => 0x07
    case PrivateKeyFile => 0x0B
    case EndorserKeyFile => 0x0D
  }

  function NumberType(f: NumberField): nat {
    match f
    case Loglevel => 0x02
    case BlockMaxMilliseconds => 0x09
    case BlockMaxTransactions => 0x0A
  }

  function TextOf(ty: nat): Option<TextField> {
    if ty == 0x01 then Some(Logdir)
    else if ty == 0x03 then Some(Secret)
    else if ty == 0x04 then Some(Rootblock)
    else if ty == 0x05 then Some(Datastore)
    else if ty == 0x07 then Some(Chroot)
    else if ty == 0x0B then Some(PrivateKeyFile)
    else if ty == 0x0D then Some(EndorserKeyFile)
    else None
  }

  function NumberOf(ty: nat): Option<NumberField> {
    if ty == 0x02 then Some(Loglevel)
    else if ty == 0x09 then Some(BlockMaxMilliseconds)
    else if ty == 0x0A then Some(BlockMaxTransactions)
    else None
  }

  predicate InRange(f: NumberField, x: int64) {
    match f
    case Loglevel => 0 <= x <= 9
    case BlockMaxMilliseconds => 0 <= x <= BLOCK_MILLISECONDS_MAXIMUM
    case BlockMaxTransactions => 0 <= x <= BLOCK_TRANSACTIONS_MAXIMUM
  }

  // ---------- records ----------

  datatype Record =
    | Text(text: TextField, s: string)
    | Number(number: NumberField, x: int64)
    | ListenAt(address: string, port: nat)
    | UserGroup(user: string, group: string)
    | PublicKey(s: string)

  function Encoded(r: Record): seq<Value> {
    match r
    case Text(f, s) => [U8(TextType(f)), Str(s)]
    case Number(f, x) => [U8(NumberType(f)), I64(x)]
    case ListenAt(a, p) => [U8(LISTEN_ADDR), Str(a), U64(p)]
    case UserGroup(u, g) => [U8(USERGROUP), Str(u), Str(g)]
    case PublicKey(s) => [U8(PUBLIC_KEY), Str(s)]
  }

  function EncodedAll(rs: seq<Record>): seq<Value> {
    if rs == [] then [] else Encoded(rs[0]) + EncodedAll(rs[1..])
  }

  /** The record can be read at all. */
  predicate RecordOk(net: Net, r: Record) {
    match r
    case Text(_, s) => |s| <= STRING_MAXIMUM
    case Number(f, x) => InRange(f, x)
    case ListenAt(a, _) => |a| <= STRING_MAXIMUM && net.pton(a).Some?
    case UserGroup(u, g) => |u| <= STRING_MAXIMUM && |g| <= STRING_MAXIMUM
    case PublicKey(s) => |s| <= STRING_MAXIMUM
  }

  /** The record does not set something again. */
  predicate Unset(c: Config, r: Record) {
    match r
    case Text(f, _) => f !in c.texts
    case Number(f, _) => f !in c.numbers
    case UserGroup(_, _) => c.usergroup.None?
    case _ => true
  }

  /** Each list grows at its head; a port keeps its low 16 bits. */
  function Absorbed(net: Net, c: Config, r: Record): Config
    requires RecordOk(net, r)
  {
    match r
    case Text(f, s) => c.(texts := c.texts[f := s])
    case Number(f, x) => c.(numbers := c.numbers[f := x])
    case ListenAt(a, p) => c.(listen := [Listen(net.pton(a).value, p % 0x1_0000)] + c.listen)
    case UserGroup(u, g) => c.(usergroup := Some((u, g)))
    case PublicKey(s) => c.(publicKeys := [s] + c.publicKeys)
  }

  // ---------- the parser ----------

  datatype ReadError = ReadDataFailure | InvalidStream | PtonFailure

  datatype Result<+T> = Ok(value: T) | Err(error: ReadError)

  function ReadString(vs: seq<Value>, i: nat): Result<string> {
    if i < |vs| && vs[i].Str? && |vs[i].s| <= STRING_MAXIMUM then Ok(vs[i].s) else Err(ReadDataFailure)
  }

  /** One record of the given type: the next config and how many values were used. */
  function ReadOne(net: Net, c: Config, vs: seq<Value>): (r: Result<(Config, nat)>)
    requires vs != [] && vs[0].U8?
    ensures r.Ok? ==> 2 <= r.value.1 <= |vs|
  {
    var ty := vs[0].n;
    if TextOf(ty).Some? then
      var f := TextOf(ty).value;
      if f in c.texts then Err(InvalidStream)
      else
        match ReadString(vs, 1)
        case Err(e) => Err(e)
        case Ok(s) => Ok((c.(texts := c.texts[f := s]), 2))
    else if NumberOf(ty).Some? then
      var f := NumberOf(ty).value;
      if f in c.numbers then Err(InvalidStream)
      else if |vs| < 2 || !vs[1].I64? then Err(ReadDataFailure)
      else if !InRange(f, vs[1].x) then Err(InvalidStream)
      else Ok((c.(numbers := c.numbers[f := vs[1].x]), 2))
    else if ty == LISTEN_ADDR then
      match ReadString(vs, 1)
      case Err(e) => Err(e)
      case Ok(a) =>
        if net.pton(a).None? then Err(PtonFailure)
        else if |vs| < 3 || !vs[2].U64? then Err(ReadDataFailure)
        else Ok((c.(listen := [Listen(net.pton(a).value, vs[2].n % 0x1_0000)] + c.listen), 3))
    else if ty == USERGROUP then
      if c.usergroup.Some? then Err(InvalidStream)
      else
        match ReadString(vs, 1)
        case Err(e) => Err(e)
        case Ok(u) =>
          match ReadString(vs, 2)
          case Err(e) => Err(e)
          case Ok(g) => Ok((c.(usergroup := Some((u, g))), 3))
    else if ty == PUBLIC_KEY then
      match ReadString(vs, 1)
      case Err(e) => Err(e)
      case Ok(s) => Ok((c.(publicKeys := [s] + c.publicKeys), 2))
    else Err(InvalidStream)
  }

  /** The loop, from a config filled so far. */
  function ReadFrom(net: Net, c: Config, vs: seq<Value>): Result<Config>
    decreases |vs|
  {
    if vs == [] || !vs[0].U8? then Err(InvalidStream)
    else if vs[0].n == EOM then Ok(c)
    else
      match ReadOne(net, c, vs)
      case Err(e) => Err(e)
      case Ok((c', n)) => ReadFrom(net, c', vs[n..])
  }

  function Parse(net: Net, vs: seq<Value>): Result<Config> {
    if vs == [] || !vs[0].U8? then Err(ReadDataFailure)
    else if vs[0].n != BOM then Err(InvalidStream)
    else ReadFrom(net, EMPTY, vs[1..])
  }

  /** config_read_block. */
  method ReadConfig(net: Net, vs: seq<Value>) returns (r: Result<Config>)
    ensures r == Parse(net, vs)
  {
    if |vs| == 0 || !vs[0].U8? {
      return Err(ReadDataFailure);
    }
    if vs[0].n != BOM {
      return Err(InvalidStream);
    }
    r := ReadRecords(net, vs);
  }

  /** The loop over the records. */
  method ReadRecords(net: Net, vs: seq<Value>) returns (r: Result<Config>)
    requires vs != []
    ensures r == ReadFrom(net, EMPTY, vs[1..])
  {
    var conf := EMPTY;
    ghost var result := ReadFrom(net, conf, vs[1..]);
    var at := 1;
    while at < |vs| && vs[at].U8?
      invariant 1 <= at <= |vs|
      invariant result == ReadFrom(net, conf, vs[at..])
    {
      ReadFromEnd(net, conf, vs, at);
      if vs[at].n == EOM {
        return Ok(conf);
      }
      ReadFromStep(net, conf, vs, at);
      var one := ReadOne(net, conf, vs[at..]);
      if one.Err? {
        return Err(one.error);
      }
      conf := one.value.0;
      at := at + one.value.1;
    }
    ReadFromEnd(net, conf, vs, at);
    return Err(InvalidStream);
  }

  lemma ReadFromEnd(net: Net, c: Config, vs: seq<Value>, at: nat)
    requires at <= |vs|
    ensures at == |vs| || !vs[at].U8? ==> ReadFrom(net, c, vs[at..]) == Err(InvalidStream)
    ensures at < |vs| && vs[at] == U8(EOM) ==> ReadFrom(net, c, vs[at..]) == Ok(c)
  {}

  /** One turn of the loop. */
  lemma ReadFromStep(net: Net, c: Config, vs: seq<Value>, at: nat)
    requires at < |vs| && vs[at].U8? && vs[at].n != EOM
    ensures var one := ReadOne(net, c, vs[at..]);
      && (one.Err? ==> ReadFrom(net, c, vs[at..]) == Err(one.error))
      && (one.Ok? ==>
            && at + one.value.1 <= |vs|
            && ReadFrom(net, c, vs[at..]) == ReadFrom(net, one.value.0, vs[at + one.value.1..]))
  {
    var one := ReadOne(net, c, vs[at..]);
    if one.Ok? {
      assert vs[at..][one.value.1..] == vs[at + one.value.1..];
    }
  }

  // ---------- what the parser accepts ----------

  /** The records can be absorbed one after the other. */
  predicate Fits(net: Net, c: Config, rs: seq<Record>)
    decreases |rs|
  {
    rs == [] ||
    (RecordOk(net, rs[0]) && Unset(c, rs[0]) && Fits(net, Absorbed(net, c, rs[0]), rs[1..]))
  }

  function Folded(net: Net, c: Config, rs: seq<Record>): Config
    requires Fits(net, c, rs)
    decreases |rs|
  {
    if rs == [] then c else Folded(net, Absorbed(net, c, rs[0]), rs[1..])
  }

  lemma ReadOneExactly(net: Net, c: Config, r: Record, rest: seq<Value>)
    ensures Encoded(r)[0].n != EOM
    ensures ReadOne(net, c, Encoded(r) + rest).Ok? <==> RecordOk(net, r) && Unset(c, r)
    ensures RecordOk(net, r) && Unset(c, r) ==>
      ReadOne(net, c, Encoded(r) + rest) == Ok((Absorbed(net, c, r), |Encoded(r)|))
  {}

  lemma ReadOneSound(net: Net, c: Config, vs: seq<Value>) returns (r: Record)
    requires vs != [] && vs[0].U8? && ReadOne(net, c, vs).Ok?
    ensures RecordOk(net, r) && Unset(c, r)
    ensures ReadOne(net, c, vs).value == (Absorbed(net, c, r), |Encoded(r)|)
    ensures vs == Encoded(r) + vs[|Encoded(r)|..]
  {
    var ty := vs[0].n;
    if TextOf(ty).Some? {
      r := Text(TextOf(ty).value, vs[1].s);
    } else if NumberOf(ty).Some? {
      r := Number(NumberOf(ty).value, vs[1].x);
    } else if ty == LISTEN_ADDR {
      r := ListenAt(vs[1].s, vs[2].n);
    } else if ty == USERGROUP {
      r := UserGroup(vs[1].s, vs[2].s);
    } else {
      r := PublicKey(vs[1].s);
    }
  }

  lemma {:induction false} ReadFromExactly(net: Net, c: Config, rs: seq<Record>, tail: seq<Value>)
    ensures ReadFrom(net, c, EncodedAll(rs) + [U8(EOM)] + tail).Ok? <==> Fits(net, c, rs)
    ensures Fits(net, c, rs) ==> ReadFrom(net, c, EncodedAll(rs) + [U8(EOM)] + tail) == Ok(Folded(net, c, rs))
    decreases |rs|
  {
    var vs := EncodedAll(rs) + [U8(EOM)] + tail;
    if rs != [] {
      var rest := EncodedAll(rs[1..]) + [U8(EOM)] + tail;
      assert vs == Encoded(rs[0]) + rest;
      ReadOneExactly(net, c, rs[0], rest);
      if RecordOk(net, rs[0]) && Unset(c, rs[0]) {
        assert vs[|Encoded(rs[0])|..] == rest;
        ReadFromExactly(net, Absorbed(net, c, rs[0]), rs[1..], tail);
      }
    }
  }

  lemma {:induction false} ReadFromSound(net: Net, c: Config, vs: seq<Value>)
    returns (rs: seq<Record>, tail: seq<Value>)
    requires ReadFrom(net, c, vs).Ok?
    ensures Fits(net, c, rs) && ReadFrom(net, c, vs) == Ok(Folded(net, c, rs))
    ensures vs == EncodedAll(rs) + [U8(EOM)] + tail
    decreases |vs|
  {
    if vs[0].n == EOM {
      rs, tail := [], vs[1..];
    } else {
      var r := ReadOneSound(net, c, vs);
      var n := |Encoded(r)|;
      rs, tail := ReadFromSound(net, Absorbed(net, c, r), vs[n..]);
      OneMoreRecord(net, c, r, rs, tail);
      rs := [r] + rs;
    }
  }

  lemma {:induction false} OneMoreRecord(net: Net, c: Config, r: Record, rs: seq<Record>, tail: seq<Value>)
    requires RecordOk(net, r) && Unset(c, r) && Fits(net, Absorbed(net, c, r), rs)
    ensures Fits(net, c, [r] + rs) && Folded(net, c, [r] + rs) == Folded(net, Absorbed(net, c, r), rs)
    ensures Encoded(r) + (EncodedAll(rs) + [U8(EOM)] + tail) == EncodedAll([r] + rs) + [U8(EOM)] + tail
  {
    assert ([r] + rs)[1..] == rs;
    var e := EncodedAll(rs);
    assert Encoded(r) + (e + [U8(EOM)] + tail) == (Encoded(r) + e) + [U8(EOM)] + tail;
  }

  // ---------- the same, without reading order ----------

  /** Two records that set the same setting. */
  predicate Clash(r: Record, t: Record) {
    || (r.Text? && t.Text? && r.text == t.text)
    || (r.Number? && t.Number? && r.number == t.number)
    || (r.UserGroup? && t.UserGroup?)
  }

  /** All records are readable and no setting is given twice. */
  predicate WellFormed(net: Net, rs: seq<Record>) {
    && (forall i :: 0 <= i < |rs| ==> RecordOk(net, rs[i]))
    && (forall i, j :: 0 <= i < j < |rs| ==> !Clash(rs[i], rs[j]))
  }

  lemma UnsetAfter(net: Net, c: Config, r: Record, t: Record)
    requires RecordOk(net, r)
    ensures Unset(Absorbed(net, c, r), t) <==> Unset(c, t) && !Clash(r, t)
  {}

  lemma {:induction false} FitsExactly(net: Net, c: Config, rs: seq<Record>)
    ensures Fits(net, c, rs) <==> WellFormed(net, rs) && forall i :: 0 <= i < |rs| ==> Unset(c, rs[i])
    decreases |rs|
  {
    if rs != [] {
      var rest := rs[1..];
      assert forall i :: 1 <= i < |rs| ==> rs[i] == rest[i - 1];
      if RecordOk(net, rs[0]) {
        var d := Absorbed(net, c, rs[0]);
        FitsExactly(net, d, rest);
        forall i | 0 <= i < |rest| ensures Unset(d, rest[i]) <==> Unset(c, rest[i]) && !Clash(rs[0], rest[i]) {
          UnsetAfter(net, c, rs[0], rest[i]);
        }
        SplitFirst(net, rs);
      }
    }
  }

  lemma {:induction false} SplitFirst(net: Net, rs: seq<Record>)
    requires rs != [] && RecordOk(net, rs[0])
    ensures WellFormed(net, rs) <==>
      WellFormed(net, rs[1..]) && forall i :: 0 <= i < |rs[1..]| ==> !Clash(rs[0], rs[1..][i])
  {
    var rest := rs[1..];
    assert forall i :: 0 <= i < |rest| ==> rest[i] == rs[i + 1];
    if WellFormed(net, rest) && forall i :: 0 <= i < |rest| ==> !Clash(rs[0], rest[i]) {
      forall i, j | 0 <= i < j < |rs| ensures !Clash(rs[i], rs[j]) {
        assert rs[j] == rest[j - 1];
        if i > 0 { assert rs[i] == rest[i - 1]; }
      }
    }
  }

  /** Acceptance: a stream is accepted exactly when it is a begin mark, records that are readable
      and set nothing twice, and an end mark; what follows is not looked at. */
  lemma AcceptedExactly(net: Net, vs: seq<Value>)
    ensures Parse(net, vs).Ok? <==> exists rs, tail ::
      WellFormed(net, rs) && vs == [U8(BOM)] + EncodedAll(rs) + [U8(EOM)] + tail
  {
    if Parse(net, vs).Ok? {
      var rs, tail := ReadFromSound(net, EMPTY, vs[1..]);
      FitsExactly(net, EMPTY, rs);
      assert vs == [U8(BOM)] + EncodedAll(rs) + [U8(EOM)] + tail;
    }
    if rs, tail :| WellFormed(net, rs) && vs == [U8(BOM)] + EncodedAll(rs) + [U8(EOM)] + tail {
      ParseOf(net, rs, tail);
    }
  }

  /** Reading the encoding of a record sequence: it fails, or folds the records. */
  lemma ParseOf(net: Net, rs: seq<Record>, tail: seq<Value>)
    ensures Fits(net, EMPTY, rs) <==> WellFormed(net, rs)
    ensures Parse(net, [U8(BOM)] + EncodedAll(rs) + [U8(EOM)] + tail).Ok? <==> WellFormed(net, rs)
    ensures WellFormed(net, rs) ==>
      Parse(net, [U8(BOM)] + EncodedAll(rs) + [U8(EOM)] + tail) == Ok(Folded(net, EMPTY, rs))
  {
    FitsExactly(net, EMPTY, rs);
    ReadFromExactly(net, EMPTY, rs, tail);
    var body := EncodedAll(rs) + [U8(EOM)] + tail;
    assert [U8(BOM)] + EncodedAll(rs) + [U8(EOM)] + tail == [U8(BOM)] + body;
    ParseCons(net, body);
  }

  lemma ParseCons(net: Net, body: seq<Value>)
    ensures Parse(net, [U8(BOM)] + body) == ReadFrom(net, EMPTY, body)
  {
    assert ([U8(BOM)] + body)[1..] == body;
  }

  function ListensOf(net: Net, rs: seq<Record>): seq<Listen> {
    if rs == [] then []
    else if rs[0].ListenAt? && net.pton(rs[0].address).Some?
    then [Listen(net.pton(rs[0].address).value, rs[0].port % 0x1_0000)] + ListensOf(net, rs[1..])
    else ListensOf(net, rs[1..])
  }

  function KeysOf(rs: seq<Record>): seq<string> {
    if rs == [] then []
    else if rs[0].PublicKey? then [rs[0].s] + KeysOf(rs[1..])
    else KeysOf(rs[1..])
  }

  function Reversed<T>(s: seq<T>): (r: seq<T>)
    ensures |r| == |s|
  {
    if s == [] then [] else Reversed(s[1..]) + [s[0]]
  }

  lemma {:induction false} FoldedText(net: Net, c: Config, rs: seq<Record>, f: TextField, s: string)
    requires Fits(net, c, rs)
    ensures Maps(Folded(net, c, rs).texts, f, s) <==> Maps(c.texts, f, s) || Text(f, s) in rs
    decreases |rs|
  {
    if rs != [] {
      FoldedText(net, Absorbed(net, c, rs[0]), rs[1..], f, s);
      FitsExactly(net, c, rs);
    }
  }

  lemma {:induction false} FoldedNumber(net: Net, c: Config, rs: seq<Record>, f: NumberField, x: int64)
    requires Fits(net, c, rs)
    ensures Maps(Folded(net, c, rs).numbers, f, x) <==> Maps(c.numbers, f, x) || Number(f, x) in rs
    decreases |rs|
  {
    if rs != [] {
      FoldedNumber(net, Absorbed(net, c, rs[0]), rs[1..], f, x);
      FitsExactly(net, c, rs);
    }
  }

  lemma {:induction false} FoldedUser(net: Net, c: Config, rs: seq<Record>, u: string, g: string)
    requires Fits(net, c, rs)
    ensures Folded(net, c, rs).usergroup == Some((u, g)) <==> c.usergroup == Some((u, g)) || UserGroup(u, g) in rs
    decreases |rs|
  {
    if rs != [] {
      FoldedUser(net, Absorbed(net, c, rs[0]), rs[1..], u, g);
      FitsExactly(net, c, rs);
    }
  }

  lemma {:induction false} FoldedLists(net: Net, c: Config, rs: seq<Record>)
    requires Fits(net, c, rs)
    ensures Folded(net, c, rs).listen == Reversed(ListensOf(net, rs)) + c.listen
    ensures Folded(net, c, rs).publicKeys == Reversed(KeysOf(rs)) + c.publicKeys
    ensures Folded(net, c, rs).databaseMaxSize == c.databaseMaxSize && Folded(net, c, rs).views == c.views
    decreases |rs|
  {
    if rs != [] {
      FoldedLists(net, Absorbed(net, c, rs[0]), rs[1..]);
    }
  }

  /** Order: two accepted record sequences with the same records, the same listen addresses in
      the same order and the same public keys in the same order give the same config. */
  lemma OrderOnlyMattersWithinLists(net: Net, rs: seq<Record>, ts: seq<Record>)
    requires WellFormed(net, rs) && WellFormed(net, ts)
    requires forall r: Record :: !r.ListenAt? && !r.PublicKey? ==> (r in rs <==> r in ts)
    requires ListensOf(net, rs) == ListensOf(net, ts) && KeysOf(rs) == KeysOf(ts)
    ensures Parse(net, [U8(BOM)] + EncodedAll(rs) + [U8(EOM)]) == Parse(net, [U8(BOM)] + EncodedAll(ts) + [U8(EOM)])
  {
    ParseOf(net, rs, []);
    ParseOf(net, ts, []);
    assert [U8(BOM)] + EncodedAll(rs) + [U8(EOM)] + [] == [U8(BOM)] + EncodedAll(rs) + [U8(EOM)];
    assert [U8(BOM)] + EncodedAll(ts) + [U8(EOM)] + [] == [U8(BOM)] + EncodedAll(ts) + [U8(EOM)];
    SameFold(net, rs, ts);
  }

  lemma SameFold(net: Net, rs: seq<Record>, ts: seq<Record>)
    requires Fits(net, EMPTY, rs) && Fits(net, EMPTY, ts)
    requires forall r: Record :: !r.ListenAt? && !r.PublicKey? ==> (r in rs <==> r in ts)
    requires ListensOf(net, rs) == ListensOf(net, ts) && KeysOf(rs) == KeysOf(ts)
    ensures Folded(net, EMPTY, rs) == Folded(net, EMPTY, ts)
  {
    var a, b := Folded(net, EMPTY, rs), Folded(net, EMPTY, ts);
    FoldedLists(net, EMPTY, rs);
    FoldedLists(net, EMPTY, ts);
    forall f, s ensures Maps(a.texts, f, s) <==> Maps(b.texts, f, s) {
      FoldedText(net, EMPTY, rs, f, s);
      FoldedText(net, EMPTY, ts, f, s);
    }
    SameMap(a.texts, b.texts);
    forall f, x ensures Maps(a.numbers, f, x) <==> Maps(b.numbers, f, x) {
      FoldedNumber(net, EMPTY, rs, f, x);
      FoldedNumber(net, EMPTY, ts, f, x);
    }
    SameMap(a.numbers, b.numbers);
    forall u, g ensures a.usergroup == Some((u, g)) <==> b.usergroup == Some((u, g)) {
      FoldedUser(net, EMPTY, rs, u, g);
      FoldedUser(net, EMPTY, ts, u, g);
    }
    if a.usergroup.Some? { assert a.usergroup == Some((a.usergroup.value.0, a.usergroup.value.1)); }
    if b.usergroup.Some? { assert b.usergroup == Some((b.usergroup.value.0, b.usergroup.value.1)); }
  }

  predicate Maps<K, V(==)>(m: map<K, V>, k: K, v: V) {
    k in m && m[k] == v
  }

  lemma SameMap<K, V>(a: map<K, V>, b: map<K, V>)
    requires forall k, v :: Maps(a, k, v) <==> Maps(b, k, v)
    ensures a == b
  {
    forall k | k in a ensures k in b && b[k] == a[k] {
      assert Maps(a, k, a[k]);
    }
    forall k | k in b ensures k in a {
      assert Maps(b, k, b[k]);
    }
  }

  // ---------- the printer ----------

  function TextRecord(c: Config, f: TextField): seq<Record> {
    if f in c.texts then [Text(f, c.texts[f])] else []
  }

  function NumberRecord(c: Config, f: NumberField): seq<Record> {
    if f in c.numbers then [Number(f, c.numbers[f])] else []
  }

  function ListenRecords(net: Net, ls: seq<Listen>): seq<Record> {
    seq(|ls|, i requires 0 <= i < |ls| => ListenAt(net.ntop(ls[i].address), ls[i].port))
  }

  function UserRecord(c: Config): seq<Record> {
    if c.usergroup.Some? then [UserGroup(c.usergroup.value.0, c.usergroup.value.1)] else []
  }

  function KeyRecords(ks: seq<string>): seq<Record> {
    seq(|ks|, i requires 0 <= i < |ks| => PublicKey(ks[i]))
  }

  function HeadRecords(c: Config): seq<Record> {
    TextRecord(c, Logdir)
      + NumberRecord(c, Loglevel)
      + NumberRecord(c, BlockMaxMilliseconds)
      + NumberRecord(c, BlockMaxTransactions)
      + TextRecord(c, Secret)
      + TextRecord(c, Rootblock)
      + TextRecord(c, Datastore)
  }

  function TailRecords(c: Config): seq<Record> {
    TextRecord(c, Chroot) + UserRecord(c) + TextRecord(c, PrivateKeyFile) + TextRecord(c, EndorserKeyFile)
  }

  /** The records of a config, in the order they are written. */
  function RecordsOf(net: Net, c: Config): seq<Record> {
    HeadRecords(c) + ListenRecords(net, c.listen) + TailRecords(c) + KeyRecords(c.publicKeys)
  }

  lemma {:induction false} EncodedAppend(a: seq<Record>, b: seq<Record>)
    ensures EncodedAll(a + b) == EncodedAll(a) + EncodedAll(b)
    decreases |a|
  {
    if a == [] {
      assert a + b == b;
    } else {
      assert (a + b)[1..] == a[1..] + b;
      EncodedAppend(a[1..], b);
    }
  }

  method WriteText(c: Config, f: TextField, out: seq<Value>, ghost done: seq<Record>) returns (out': seq<Value>)
    requires out == [U8(BOM)] + EncodedAll(done)
    ensures out' == [U8(BOM)] + EncodedAll(done + TextRecord(c, f))
  {
    EncodedAppend(done, TextRecord(c, f));
    out' := out;
    if f in c.texts {
      out' := out' + [U8(TextType(f))];
      out' := out' + [Str(c.texts[f])];
    }
  }

  method WriteNumber(c: Config, f: NumberField, out: seq<Value>, ghost done: seq<Record>) returns (out': seq<Value>)
    requires out == [U8(BOM)] + EncodedAll(done)
    ensures out' == [U8(BOM)] + EncodedAll(done + NumberRecord(c, f))
  {
    EncodedAppend(done, NumberRecord(c, f));
    out' := out;
    if f in c.numbers {
      out' := out' + [U8(NumberType(f))];
      out' := out' + [I64(c.numbers[f])];
    }
  }

  lemma EncodedNext(rs: seq<Record>, i: nat, out: seq<Value>)
    requires i < |rs|
    ensures (out + EncodedAll(rs[..i])) + Encoded(rs[i]) == out + EncodedAll(rs[..i + 1])
  {
    assert rs[..i + 1] == rs[..i] + [rs[i]];
    EncodedAppend(rs[..i], [rs[i]]);
    assert EncodedAll([rs[i]]) == Encoded(rs[i]) + EncodedAll([]);
  }

  lemma WrittenAll(done: seq<Record>, rs: seq<Record>, out: seq<Value>)
    requires out == [U8(BOM)] + EncodedAll(done)
    ensures out + EncodedAll(rs[..|rs|]) == [U8(BOM)] + EncodedAll(done + rs)
  {
    assert rs[..|rs|] == rs;
    EncodedAppend(done, rs);
    AppendAssociates([U8(BOM)], EncodedAll(done), EncodedAll(rs));
  }

  lemma AppendAssociates(a: seq<Value>, b: seq<Value>, c: seq<Value>)
    ensures (a + b) + c == a + (b + c)
  {}

  method WriteListen(net: Net, c: Config, out: seq<Value>, ghost done: seq<Record>) returns (out': seq<Value>)
    requires out == [U8(BOM)] + EncodedAll(done)
    ensures out' == [U8(BOM)] + EncodedAll(done + ListenRecords(net, c.listen))
  {
    out' := out;
    ghost var rs := ListenRecords(net, c.listen);
    var i := 0;
    while i < |c.listen|
      invariant 0 <= i <= |c.listen|
      invariant out' == out + EncodedAll(rs[..i])
    {
      EncodedNext(rs, i, out);
      out' := out' + [U8(LISTEN_ADDR), Str(net.ntop(c.listen[i].address)), U64(c.listen[i].port)];
      i := i + 1;
    }
    WrittenAll(done, rs, out);
  }

  method WriteUser(c: Config, out: seq<Value>, ghost done: seq<Record>) returns (out': seq<Value>)
    requires out == [U8(BOM)] + EncodedAll(done)
    ensures out' == [U8(BOM)] + EncodedAll(done + UserRecord(c))
  {
    EncodedAppend(done, UserRecord(c));
    out' := out;
    if c.usergroup.Some? {
      out' := out' + [U8(USERGROUP)];
      out' := out' + [Str(c.usergroup.value.0)];
      out' := out' + [Str(c.usergroup.value.1)];
    }
  }

  method WriteKeys(c: Config, out: seq<Value>, ghost done: seq<Record>) returns (out': seq<Value>)
    requires out == [U8(BOM)] + EncodedAll(done)
    ensures out' == [U8(BOM)] + EncodedAll(done + KeyRecords(c.publicKeys))
  {
    out' := out;
    ghost var rs := KeyRecords(c.publicKeys);
    var i := 0;
    while i < |c.publicKeys|
      invariant 0 <= i <= |c.publicKeys|
      invariant out' == out + EncodedAll(rs[..i])
    {
      EncodedNext(rs, i, out);
      out' := out' + [U8(PUBLIC_KEY), Str(c.publicKeys[i])];
      i := i + 1;
    }
    WrittenAll(done, rs, out);
  }

  method WriteHead(c: Config) returns (out: seq<Value>)
    ensures out == [U8(BOM)] + EncodedAll(HeadRecords(c))
  {
    out := [U8(BOM)];
    ghost var d0 := TextRecord(c, Logdir);
    out := WriteText(c, Logdir, out, []);
    assert [] + d0 == d0;
    ghost var d1 := d0 + NumberRecord(c, Loglevel);
    out := WriteNumber(c, Loglevel, out, d0);
    ghost var d2 := d1 + NumberRecord(c, BlockMaxMilliseconds);
    out := WriteNumber(c, BlockMaxMilliseconds, out, d1);
    ghost var d3 := d2 + NumberRecord(c, BlockMaxTransactions);
    out := WriteNumber(c, BlockMaxTransactions, out, d2);
    ghost var d4 := d3 + TextRecord(c, Secret);
    out := WriteText(c, Secret, out, d3);
    ghost var d5 := d4 + TextRecord(c, Rootblock);
    out := WriteText(c, Rootblock, out, d4);
    out := WriteText(c, Datastore, out, d5);
  }

  method WriteTail(c: Config, out: seq<Value>, ghost done: seq<Record>) returns (out': seq<Value>)
    requires out == [U8(BOM)] + EncodedAll(done)
    ensures out' == [U8(BOM)] + EncodedAll(done + TailRecords(c))
  {
    ghost var d0 := done + TextRecord(c, Chroot);
    out' := WriteText(c, Chroot, out, done);
    ghost var d1 := d0 + UserRecord(c);
    out' := WriteUser(c, out', d0);
    ghost var d2 := d1 + TextRecord(c, PrivateKeyFile);
    out' := WriteText(c, PrivateKeyFile, out', d1);
    out' := WriteText(c, EndorserKeyFile, out', d2);
    TailGrouped(done, TextRecord(c, Chroot), UserRecord(c), TextRecord(c, PrivateKeyFile),
                TextRecord(c, EndorserKeyFile));
  }

  lemma TailGrouped(done: seq<Record>, a: seq<Record>, b: seq<Record>, c: seq<Record>, d: seq<Record>)
    ensures done + a + b + c + d == done + (a + b + c + d)
  {}

  /** config_write_block. */
  method WriteConfig(net: Net, c: Config) returns (out: seq<Value>)
    ensures out == [U8(BOM)] + EncodedAll(RecordsOf(net, c)) + [U8(EOM)]
  {
    out := WriteHead(c);
    ghost var d1 := HeadRecords(c);
    out := WriteListen(net, c, out, d1);
    ghost var d2 := d1 + ListenRecords(net, c.listen);
    out := WriteTail(c, out, d2);
    ghost var d3 := d2 + TailRecords(c);
    out := WriteKeys(c, out, d3);
    out := out + [U8(EOM)];
  }
}
