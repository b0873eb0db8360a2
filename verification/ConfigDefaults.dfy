/** Completion of a configuration with defaults, and the way of the two block limits from the
    configuration into the canonization service. */
module ConfigDefaults {
  import opened Ids
  import opened ControlPackets
  import opened ConfigStream

  const DATABASE_DEFAULT: int64 := 16 * 1024 * 1024 * 1024 * 1024

  function DefaultNumber(f: NumberField): (x: int64)
    ensures InRange(f, x)
  {
    match f
    case Loglevel => 4
    case BlockMaxMilliseconds => 5000
    case BlockMaxTransactions => 500
  }

  type Texts = map<TextField, string>
  type Numbers = map<NumberField, int64>

  function OrText(m: Texts, f: TextField, s: string): (r: Texts)
    ensures r.Keys == m.Keys + {f}
    ensures forall g :: g in m ==> r[g] == m[g]
    ensures f !in m ==> r[f] == s
  {
    if f in m then m else m[f := s]
  }

  /** A number that is set and in range. */
  predicate Good(m: Numbers, f: NumberField) {
    f in m && InRange(f, m[f])
  }

  function OrNumber(m: Numbers, f: NumberField): (r: Numbers)
    ensures Good(r, f) && r[f] == (if Good(m, f) then m[f] else DefaultNumber(f))
    ensures forall g :: g != f ==> (g in r <==> g in m) && (g in m ==> r[g] == m[g])
  {
    if Good(m, f) then m else m[f := DefaultNumber(f)]
  }

  function AllNumbers(m: Numbers): Numbers {
    OrNumber(OrNumber(OrNumber(m, Loglevel), BlockMaxMilliseconds), BlockMaxTransactions)
  }

  function AllTexts(m: Texts, prefix: string): Texts {
    var m1 := OrText(m, Logdir, "log");
    var m2 := OrText(m1, Secret, "root/secret.cert");
    var m3 := OrText(m2, Rootblock, "root/root.cert");
    var m4 := OrText(m3, Datastore, "data");
    OrText(m4, Chroot, prefix)
  }

  function Completed(c: Config, prefix: string): Config {
    Config(
      AllTexts(c.texts, prefix),
      AllNumbers(c.numbers),
      if c.listen == [] then [Listen(0, 4891)] else c.listen,
      if c.usergroup.None? then Some(("veloagent", "veloagent")) else c.usergroup,
      c.publicKeys,
      if c.databaseMaxSize.None? then Some(DATABASE_DEFAULT) else c.databaseMaxSize,
      c.views)
  }

  /** Nothing that was set, and in range, is lost. */
  ghost predicate Preserves(c: Config, d: Config) {
    && (forall f :: f in c.texts ==> f in d.texts && d.texts[f] == c.texts[f])
    && (forall f :: Good(c.numbers, f) ==> f in d.numbers && d.numbers[f] == c.numbers[f])
  }

  /** Completion keeps what was set and in range, and leaves nothing the services need unset or
      out of range. */
  lemma CompletionIsComplete(c: Config, prefix: string)
    ensures Preserves(c, Completed(c, prefix))
    ensures forall f: NumberField :: Good(Completed(c, prefix).numbers, f)
    ensures Completed(c, prefix).texts.Keys == c.texts.Keys + {Logdir, Secret, Rootblock, Datastore, Chroot}
    ensures Completed(c, prefix).listen != [] && Completed(c, prefix).usergroup.Some?
    ensures Completed(c, prefix).databaseMaxSize.Some?
  {
    TextsComplete(c.texts, prefix);
    NumbersComplete(c.numbers);
  }

  lemma TextsComplete(m: Texts, prefix: string)
    ensures AllTexts(m, prefix).Keys == m.Keys + {Logdir, Secret, Rootblock, Datastore, Chroot}
    ensures forall f :: f in m ==> f in AllTexts(m, prefix) && AllTexts(m, prefix)[f] == m[f]
  {}

  lemma NumbersComplete(m: Numbers)
    ensures forall f: NumberField :: Good(AllNumbers(m), f)
    ensures forall f :: Good(m, f) ==> AllNumbers(m)[f] == m[f]
  {
    forall f: NumberField ensures Good(AllNumbers(m), f) && (Good(m, f) ==> AllNumbers(m)[f] == m[f]) {
      match f { case Loglevel => case BlockMaxMilliseconds => case BlockMaxTransactions => }
    }
  }

  /** The default of every setting, and when it is used. */
  lemma DefaultsAre(c: Config, prefix: string)
    ensures var d, n, t := Completed(c, prefix), c.numbers, c.texts;
      && d.numbers[Loglevel] == (if Loglevel in n && 0 <= n[Loglevel] <= 9 then n[Loglevel] else 4)
      && d.numbers[BlockMaxMilliseconds] ==
           (if BlockMaxMilliseconds in n && 0 <= n[BlockMaxMilliseconds] <= 43200000
            then n[BlockMaxMilliseconds] else 5000)
      && d.numbers[BlockMaxTransactions] ==
           (if BlockMaxTransactions in n && 0 <= n[BlockMaxTransactions] <= 100000
            then n[BlockMaxTransactions] else 500)
      && d.texts[Logdir] == (if Logdir in t then t[Logdir] else "log")
      && d.texts[Secret] == (if Secret in t then t[Secret] else "root/secret.cert")
      && d.texts[Rootblock] == (if Rootblock in t then t[Rootblock] else "root/root.cert")
      && d.texts[Datastore] == (if Datastore in t then t[Datastore] else "data")
      && d.texts[Chroot] == (if Chroot in t then t[Chroot] else prefix)
      && d.listen == (if c.listen == [] then [Listen(0, 4891)] else c.listen)
      && d.usergroup == (if c.usergroup.Some? then c.usergroup else Some(("veloagent", "veloagent")))
      && d.databaseMaxSize == (if c.databaseMaxSize.Some? then c.databaseMaxSize else Some(17592186044416))
      && d.publicKeys == c.publicKeys && d.views == c.views
  {
    NumberDefaults(c.numbers);
    TextDefaults(c.texts, prefix);
  }

  lemma NumberDefaults(n: Numbers)
    ensures var d := AllNumbers(n);
      && d[Loglevel] == (if Loglevel in n && 0 <= n[Loglevel] <= 9 then n[Loglevel] else 4)
      && d[BlockMaxMilliseconds] ==
           (if BlockMaxMilliseconds in n && 0 <= n[BlockMaxMilliseconds] <= 43200000
            then n[BlockMaxMilliseconds] else 5000)
      && d[BlockMaxTransactions] ==
           (if BlockMaxTransactions in n && 0 <= n[BlockMaxTransactions] <= 100000
            then n[BlockMaxTransactions] else 500)
  {}

  lemma TextDefaults(t: Texts, prefix: string)
    ensures var d := AllTexts(t, prefix);
      && d[Logdir] == (if Logdir in t then t[Logdir] else "log")
      && d[Secret] == (if Secret in t then t[Secret] else "root/secret.cert")
      && d[Rootblock] == (if Rootblock in t then t[Rootblock] else "root/root.cert")
      && d[Datastore] == (if Datastore in t then t[Datastore] else "data")
      && d[Chroot] == (if Chroot in t then t[Chroot] else prefix)
  {}

  /** Whether completion makes the allocation that returns this code when it fails; the codes are in
      the order of the allocations. */
  predicate Allocates(c: Config, code: nat) {
    || (code == 1 && Logdir !in c.texts) || (code == 2 && Secret !in c.texts)
    || (code == 3 && Rootblock !in c.texts) || (code == 4 && Datastore !in c.texts)
    || (5 <= code <= 7 && c.listen == []) || (code == 8 && Chroot !in c.texts)
    || (9 <= code <= 11 && c.usergroup.None?)
  }

  /** The code of the first allocation that fails, from one of them to another, or zero. */
  predicate FirstFailure(code: nat, c: Config, fails: set<nat>, from: nat, to: nat) {
    && (code != 0 ==> from <= code <= to && Allocates(c, code) && code in fails)
    && forall k :: from <= k < (if code == 0 then to + 1 else code) && Allocates(c, k) ==> k !in fails
  }

  /** config_set_defaults.  `fails` names the error codes whose allocation fails this time; on
      failure the configuration is left partly completed. */
  method SetDefaults(conf: Config, prefix: string, fails: set<nat>) returns (code: nat, d: Config)
    ensures code == 0 ==> d == Completed(conf, prefix)
    ensures FirstFailure(code, conf, fails, 1, 11)
    ensures Preserves(conf, d)
  {
    code, d := SetLogAndLimits(conf, fails);
    if code != 0 { return; }
    ghost var d1 := d;
    code, d := SetPathsAndUser(d, prefix, fails);
    PreservesTrans(conf, d1, d);
    FailureLater(code, conf, d1, fails, 2, {Logdir});
  }

  method SetPathsAndUser(conf: Config, prefix: string, fails: set<nat>) returns (code: nat, d: Config)
    ensures code == 0 ==> d == conf.(
      texts := OrText(Paths(conf.texts), Chroot, prefix),
      listen := if conf.listen == [] then [Listen(0, 4891)] else conf.listen,
      usergroup := if conf.usergroup.None? then Some(("veloagent", "veloagent")) else conf.usergroup)
    ensures FirstFailure(code, conf, fails, 2, 11)
    ensures Preserves(conf, d)
  {
    code, d := SetPaths(conf, fails);
    if code != 0 { return; }
    ghost var d1 := d;
    code, d := SetListenAndUser(d, prefix, fails);
    PreservesTrans(conf, d1, d);
    FailureLater(code, conf, d1, fails, 5, {Secret, Rootblock, Datastore});
  }

  function Paths(m: Texts): Texts {
    OrText(OrText(OrText(m, Secret, "root/secret.cert"), Rootblock, "root/root.cert"), Datastore, "data")
  }

  /** The settings before an allocation do not decide whether it is made. */
  lemma FailureLater(code: nat, c: Config, d: Config, fails: set<nat>, from: nat, more: set<TextField>)
    requires d.listen == c.listen && d.usergroup == c.usergroup && d.texts.Keys == c.texts.Keys + more
    requires (from == 2 && more == {Logdir}) || (from == 5 && more == {Secret, Rootblock, Datastore})
    requires FirstFailure(0, c, fails, if from == 2 then 1 else 2, from - 1) && FirstFailure(code, d, fails, from, 11)
    ensures FirstFailure(code, c, fails, if from == 2 then 1 else 2, 11)
  {
    forall k | from <= k <= 11 ensures Allocates(c, k) <==> Allocates(d, k) {}
  }

  /** The first settings: the log, the size of the database, and the limits. */
  method SetLogAndLimits(conf: Config, fails: set<nat>) returns (code: nat, d: Config)
    ensures code == 0 ==> d == conf.(
      texts := OrText(conf.texts, Logdir, "log"),
      numbers := AllNumbers(conf.numbers),
      databaseMaxSize := if conf.databaseMaxSize.None? then Some(DATABASE_DEFAULT) else conf.databaseMaxSize)
    ensures FirstFailure(code, conf, fails, 1, 1)
    ensures Preserves(conf, d)
  {
    d := conf;
    if Logdir !in d.texts && 1 in fails { return 1, d; }
    d := d.(texts := OrText(d.texts, Logdir, "log"));
    d := d.(numbers := OrNumber(d.numbers, Loglevel));
    if d.databaseMaxSize.None? {
      d := d.(databaseMaxSize := Some(DATABASE_DEFAULT));
    }
    d := d.(numbers := OrNumber(d.numbers, BlockMaxMilliseconds));
    d := d.(numbers := OrNumber(d.numbers, BlockMaxTransactions));
    NumbersComplete(conf.numbers);
    return 0, d;
  }

  lemma PreservesTrans(a: Config, b: Config, c: Config)
    requires Preserves(a, b) && Preserves(b, c)
    ensures Preserves(a, c)
  {
    assert forall f :: Good(a.numbers, f) ==> Good(b.numbers, f);
  }

  method SetPaths(conf: Config, fails: set<nat>) returns (code: nat, d: Config)
    ensures code == 0 ==> d == conf.(texts := Paths(conf.texts))
    ensures FirstFailure(code, conf, fails, 2, 4)
    ensures Preserves(conf, d)
  {
    d := conf;
    if Secret !in d.texts && 2 in fails { return 2, d; }
    d := d.(texts := OrText(d.texts, Secret, "root/secret.cert"));
    if Rootblock !in d.texts && 3 in fails { return 3, d; }
    d := d.(texts := OrText(d.texts, Rootblock, "root/root.cert"));
    if Datastore !in d.texts && 4 in fails { return 4, d; }
    d := d.(texts := OrText(d.texts, Datastore, "data"));
    return 0, d;
  }

  /** The last three settings. */
  method SetListenAndUser(conf: Config, prefix: string, fails: set<nat>) returns (code: nat, d: Config)
    ensures code == 0 ==> d == conf.(
      texts := OrText(conf.texts, Chroot, prefix),
      listen := if conf.listen == [] then [Listen(0, 4891)] else conf.listen,
      usergroup := if conf.usergroup.None? then Some(("veloagent", "veloagent")) else conf.usergroup)
    ensures FirstFailure(code, conf, fails, 5, 11)
    ensures Preserves(conf, d)
  {
    d := conf;
    if d.listen == [] {
      if 5 in fails { return 5, d; }
      if 6 in fails { return 6, d; }
      if 7 in fails { return 7, d; }
      d := d.(listen := [Listen(0, 4891)]);
    }
    if Chroot !in d.texts && 8 in fails { return 8, d; }
    d := d.(texts := OrText(d.texts, Chroot, prefix));
    if d.usergroup.None? {
      if 9 in fails { return 9, d; }
      if 10 in fails { return 10, d; }
      if 11 in fails { return 11, d; }
      d := d.(usergroup := Some(("veloagent", "veloagent")));
    }
    return 0, d;
  }

  /** Completing a completed configuration changes nothing. */
  lemma CompletionIsIdempotent(c: Config, prefix: string, prefix': string)
    ensures Completed(Completed(c, prefix), prefix') == Completed(c, prefix)
  {
    CompletionIsComplete(c, prefix);
    var d := Completed(c, prefix);
    assert AllTexts(d.texts, prefix') == d.texts;
    assert AllNumbers(d.numbers) == d.numbers by {
      assert Good(d.numbers, Loglevel) && Good(d.numbers, BlockMaxMilliseconds)
          && Good(d.numbers, BlockMaxTransactions);
    }
  }

  // ---------- from the stream to the instance ----------

  lemma {:induction false} FoldedInRange(net: Net, c: Config, rs: seq<Record>)
    requires Fits(net, c, rs) && forall f :: f in c.numbers ==> InRange(f, c.numbers[f])
    ensures forall f :: f in Folded(net, c, rs).numbers ==> InRange(f, Folded(net, c, rs).numbers[f])
    decreases |rs|
  {
    if rs != [] {
      FoldedInRange(net, Absorbed(net, c, rs[0]), rs[1..]);
    }
  }

  /** Whatever stream was read: the completed limits are in range and equal what the stream set;
      an instance that gets a packet with them holds exactly them, and no later command changes
      them. */
  lemma LimitsReachInstance(net: Net, vs: seq<Value>, prefix: string, packet: seq<byte>,
                            suite: Suite, f: ControlFaults, later: seq<seq<byte>>, faults: seq<ControlFaults>)
    requires Parse(net, vs).Ok? && |faults| == |later|
    requires |packet| >= 4 && FromNetwork(packet[..4]) == CONFIGURE
    requires var d := Completed(Parse(net, vs).value, prefix);
      DecodeConfigure(packet[4..])
          == Some(Limits(Value(d, BlockMaxMilliseconds), Unsigned(Value(d, BlockMaxTransactions))))
    ensures var c, d := Parse(net, vs).value, Completed(Parse(net, vs).value, prefix);
      && 0 <= Value(d, BlockMaxMilliseconds) <= BLOCK_MILLISECONDS_MAXIMUM
      && 0 <= Value(d, BlockMaxTransactions) <= BLOCK_TRANSACTIONS_MAXIMUM
      && (forall n :: n in c.numbers ==> Value(d, n) == c.numbers[n])
      && RunControl(FRESH, suite, [packet] + later, [f] + faults).limits
           == Limits(Value(d, BlockMaxMilliseconds), Value(d, BlockMaxTransactions))
  {
    var c, d := Parse(net, vs).value, Completed(Parse(net, vs).value, prefix);
    CompletedInRange(net, vs, prefix);
    FirstPacket(packet, Value(d, BlockMaxMilliseconds), Value(d, BlockMaxTransactions), suite, f, later, faults);
  }

  lemma CompletedInRange(net: Net, vs: seq<Value>, prefix: string)
    requires Parse(net, vs).Ok?
    ensures var c, d := Parse(net, vs).value, Completed(Parse(net, vs).value, prefix);
      && Good(d.numbers, BlockMaxMilliseconds) && Good(d.numbers, BlockMaxTransactions)
      && (forall n :: n in c.numbers ==> Value(d, n) == c.numbers[n])
  {
    var c, d := Parse(net, vs).value, Completed(Parse(net, vs).value, prefix);
    var rs, tail := ReadFromSound(net, EMPTY, vs[1..]);
    FoldedInRange(net, EMPTY, rs);
    CompletionIsComplete(c, prefix);
    assert forall n :: n in c.numbers ==> Good(c.numbers, n);
  }

  /** From the stream to the packet: read, complete, encode.  A stream that is read and completed
      always gives a packet, and the instance that receives it keeps the completed limits through
      whatever commands follow. */
  method ConfigureFrom(net: Net, vs: seq<Value>, prefix: string, fails: set<nat>,
                       ghost suite: Suite, ghost f: ControlFaults, ghost later: seq<seq<byte>>,
                       ghost faults: seq<ControlFaults>)
    returns (packet: Option<seq<byte>>)
    requires |faults| == |later|
    ensures packet.Some? ==>
      && Parse(net, vs).Ok?
      && var d := Completed(Parse(net, vs).value, prefix);
         RunControl(FRESH, suite, [packet.value] + later, [f] + faults).limits
           == Limits(Value(d, BlockMaxMilliseconds), Value(d, BlockMaxTransactions))
    ensures packet.Some? <==> Parse(net, vs).Ok? && FirstFailure(0, Parse(net, vs).value, fails, 1, 11)
  {
    var read := ReadConfig(net, vs);
    if read.Err? {
      return None;
    }
    var code, d := SetDefaults(read.value, prefix, fails);
    if code != 0 {
      return None;
    }
    CompletedInRange(net, vs, prefix);
    packet := EncodeConfigure(Some(d.numbers[BlockMaxMilliseconds]), Some(d.numbers[BlockMaxTransactions]));
    LimitsReachInstance(net, vs, prefix, packet.value, suite, f, later, faults);
  }

  /** The value of a number setting, zero while it is unset. */
  function Value(c: Config, f: NumberField): int64 {
    if f in c.numbers then c.numbers[f] else 0
  }

  lemma FirstPacket(packet: seq<byte>, milliseconds: int64, transactions: int64,
                    suite: Suite, f: ControlFaults, later: seq<seq<byte>>, faults: seq<ControlFaults>)
    requires |packet| >= 4 && FromNetwork(packet[..4]) == CONFIGURE && transactions >= 0 && |faults| == |later|
    requires DecodeConfigure(packet[4..]) == Some(Limits(milliseconds, Unsigned(transactions)))
    ensures RunControl(FRESH, suite, [packet] + later, [f] + faults).limits == Limits(milliseconds, transactions)
  {
    var o := OnControl(FRESH, suite, packet, f);
    assert ([packet] + later)[1..] == later && ([f] + faults)[1..] == faults;
    ControlIsOneTime(o.next, suite, later, faults);
  }
}
