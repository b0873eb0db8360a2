/** The control packets that configure, key and start the canonization service, and the values
    that reach the instance through them. */
module ControlPackets {
  import opened Ids

  // ---------- network byte order ----------

  function Power256(w: nat): (p: nat)
    ensures p > 0
  {
    if w == 0 then 1 else 256 * Power256(w - 1)
  }

  function ToNetwork(n: nat, w: nat): (bs: seq<byte>)
    ensures |bs| == w
  {
    if w == 0 then [] else ToNetwork(n / 256, w - 1) + [n % 256]
  }

  function FromNetwork(bs: seq<byte>): nat {
    if bs == [] then 0 else 256 * FromNetwork(bs[..|bs| - 1]) + bs[|bs| - 1]
  }

  /** Encoding then decoding keeps a number modulo the width. */
  lemma {:induction false} NetworkRoundTrip(n: nat, w: nat)
    ensures FromNetwork(ToNetwork(n, w)) == n % Power256(w)
  {
    if w > 0 {
      var bs := ToNetwork(n, w);
      assert bs[..w - 1] == ToNetwork(n / 256, w - 1);
      NetworkRoundTrip(n / 256, w - 1);
      ModStep(n, Power256(w - 1));
    }
  }

  lemma ModStep(n: nat, p: nat)
    requires p > 0
    ensures 256 * ((n / 256) % p) + n % 256 == n % (256 * p)
  {
    var q := n / 256;
    var a, r := q / p, q % p;
    assert n == 256 * (p * a + r) + n % 256;
    assert 256 * (p * a + r) == (256 * p) * a + 256 * r by {
      assert 256 * (p * a) == (256 * p) * a;
    }
    ModUnique(n, 256 * p, a, 256 * r + n % 256);
  }

  lemma ModUnique(n: nat, m: nat, a: nat, r: nat)
    requires r < m && n == m * a + r
    ensures n % m == r && n / m == a
  {
    var b := n / m;
    if a < b {
      MulMonotonic(m, a + 1, b);
    } else if b < a {
      MulMonotonic(m, b + 1, a);
    }
  }

  lemma MulMonotonic(m: nat, a: nat, b: nat)
    requires a <= b
    ensures m * a <= m * b
  {
    var d := b - a;
    assert m * b == m * a + m * d;
  }

  const TWO_TO_63: nat := 0x8000_0000_0000_0000
  const TWO_TO_64: nat := 0x1_0000_0000_0000_0000

  type int64 = x: int | -0x8000_0000_0000_0000 <= x < 0x8000_0000_0000_0000

  /** A signed value on the wire, and back. */
  function Unsigned(x: int64): (n: nat)
    ensures n < TWO_TO_64
  {
    if x >= 0 then x else x + TWO_TO_64
  }

  function Signed(n: nat): int64
    requires n < TWO_TO_64
  {
    if n < TWO_TO_63 then n else n - TWO_TO_64
  }

  lemma Power256Values()
    ensures Power256(4) == 0x1_0000_0000 && Power256(8) == TWO_TO_64
  {
    assert Power256(1) == 256 && Power256(2) == 0x1_0000 && Power256(3) == 0x100_0000;
    assert Power256(4) == 0x1_0000_0000;
    assert Power256(5) == 0x100_0000_0000 && Power256(6) == 0x1_0000_0000_0000 && Power256(7) == 0x100_0000_0000_0000;
  }

  lemma {:induction false} FromNetworkBound(bs: seq<byte>)
    ensures FromNetwork(bs) < Power256(|bs|)
  {
    if bs != [] {
      FromNetworkBound(bs[..|bs| - 1]);
    }
  }

  // ---------- the packets ----------

  const CONFIGURE := 0
  const PRIVATE_KEY_SET := 1
  const START := 2

  datatype Limits = Limits(milliseconds: int64, transactions: nat)

  datatype PrivateKey = PrivateKey(
    id: seq<byte>,
    encPub: seq<byte>,
    encPriv: seq<byte>,
    signPub: seq<byte>,
    signPriv: seq<byte>)

  /** The key sizes of a crypto suite. */
  datatype Suite = Suite(encPub: nat, encPriv: nat, signPub: nat, signPriv: nat)

  /** The key fits the suite, and the suite's sizes fit the packet's size fields. */
  predicate KeyFits(k: PrivateKey, s: Suite) {
    && |k.id| == 16
    && |k.encPub| == s.encPub < 0x1_0000_0000
    && |k.encPriv| == s.encPriv < 0x1_0000_0000
    && |k.signPub| == s.signPub < 0x1_0000_0000
    && |k.signPriv| == s.signPriv < 0x1_0000_0000
  }

  /** Decoding of a configure payload. */
  function DecodeConfigure(payload: seq<byte>): Option<Limits> {
    if |payload| != 16 then None
    else
      FromNetworkBound(payload[..8]);
      Power256Values();
      Some(Limits(Signed(FromNetwork(payload[..8])), FromNetwork(payload[8..])))
  }

  function SizeField(payload: seq<byte>, i: nat): nat
    requires 4 * i + 4 <= |payload|
  {
    FromNetwork(payload[4 * i..4 * i + 4])
  }

  /** The header of a key payload announces exactly the suite's sizes. */
  predicate SizesMatch(s: Suite, payload: seq<byte>) {
    && |payload| >= 20
    && SizeField(payload, 1) == s.encPub
    && SizeField(payload, 2) == s.encPriv
    && SizeField(payload, 3) == s.signPub
    && SizeField(payload, 4) == s.signPriv
  }

  /** Decoding of a key payload; bytes after the last key are ignored. */
  function DecodeKey(s: Suite, payload: seq<byte>): (k: Option<PrivateKey>)
    ensures k.Some? <==> SizesMatch(s, payload) && |payload| >= 36 + s.encPub + s.encPriv + s.signPub + s.signPriv
  {
    if !SizesMatch(s, payload) || |payload| < 36 + s.encPub + s.encPriv + s.signPub + s.signPriv then None
    else
      var a := 36;
      var b := a + s.encPub;
      var c := b + s.encPriv;
      var d := c + s.signPub;
      var e := d + s.signPriv;
      Some(PrivateKey(payload[20..36], payload[a..b], payload[b..c], payload[c..d], payload[d..e]))
  }

  // ---------- the encoders ----------

  /** Copies bytes into a buffer at an offset. */
  method Copy(buf: array<byte>, at: nat, bs: seq<byte>)
    requires at + |bs| <= buf.Length
    modifies buf
    ensures buf[..] == old(buf[..at]) + bs + old(buf[at + |bs|..])
  {
    for i := 0 to |bs|
      invariant buf[..at] == old(buf[..at])
      invariant buf[at..at + i] == bs[..i]
      invariant buf[at + i..] == old(buf[at + i..])
    {
      ghost var before := buf[at + i + 1..];
      buf[at + i] := bs[i];
      assert buf[at + i + 1..] == before;
      assert buf[at..at + i + 1] == buf[at..at + i] + [bs[i]];
    }
    assert buf[..] == buf[..at] + buf[at..at + |bs|] + buf[at + |bs|..];
  }

  /** A configure request can only be made from a configuration that sets both limits. */
  method EncodeConfigure(milliseconds: Option<int64>, transactions: Option<int64>) returns (packet: Option<seq<byte>>)
    ensures packet.Some? <==> milliseconds.Some? && transactions.Some?
    ensures packet.Some? ==>
      && |packet.value| == 20
      && FromNetwork(packet.value[..4]) == CONFIGURE
      && DecodeConfigure(packet.value[4..]) == Some(Limits(milliseconds.value, Unsigned(transactions.value)))
  {
    if milliseconds.None? || transactions.None? {
      return None;
    }
    var buf := new byte[20];
    Copy(buf, 0, ToNetwork(CONFIGURE, 4));
    Copy(buf, 4, ToNetwork(Unsigned(milliseconds.value), 8));
    Copy(buf, 12, ToNetwork(Unsigned(transactions.value), 8));
    packet := Some(buf[..]);
    ConfigurePacket(packet.value, milliseconds.value, transactions.value);
  }

  lemma ConfigurePacket(p: seq<byte>, milliseconds: int64, transactions: int64)
    requires p == ToNetwork(CONFIGURE, 4) + ToNetwork(Unsigned(milliseconds), 8) + ToNetwork(Unsigned(transactions), 8)
    ensures FromNetwork(p[..4]) == CONFIGURE
    ensures DecodeConfigure(p[4..]) == Some(Limits(milliseconds, Unsigned(transactions)))
  {
    var h, m, t := ToNetwork(CONFIGURE, 4), ToNetwork(Unsigned(milliseconds), 8), ToNetwork(Unsigned(transactions), 8);
    Power256Values();
    Decoded(h, CONFIGURE, 4);
    Decoded(m, Unsigned(milliseconds), 8);
    Decoded(t, Unsigned(transactions), 8);
    Sliced(p, h, m, t);
  }

  lemma Decoded(bs: seq<byte>, n: nat, w: nat)
    requires bs == ToNetwork(n, w) && n < Power256(w)
    ensures FromNetwork(bs) == n
  {
    NetworkRoundTrip(n, w);
  }

  lemma Sliced(p: seq<byte>, h: seq<byte>, m: seq<byte>, t: seq<byte>)
    requires p == h + m + t && |h| == 4 && |m| == 8 && |t| == 8
    ensures p[..4] == h && p[4..][..8] == m && p[4..][8..] == t
  {}

  function KeyHeader(k: PrivateKey): (h: seq<byte>)
    ensures |h| == 24
  {
    ToNetwork(PRIVATE_KEY_SET, 4) + ToNetwork(0, 4)
      + ToNetwork(|k.encPub|, 4) + ToNetwork(|k.encPriv|, 4) + ToNetwork(|k.signPub|, 4) + ToNetwork(|k.signPriv|, 4)
  }

  /** The packet of a key that fits the suite decodes to that key. */
  method EncodeKey(k: PrivateKey, ghost s: Suite) returns (packet: seq<byte>)
    requires |k.id| == 16
    ensures |packet| == 40 + |k.encPub| + |k.encPriv| + |k.signPub| + |k.signPriv|
    ensures FromNetwork(packet[..4]) == PRIVATE_KEY_SET && FromNetwork(packet[4..8]) == 0
    ensures KeyFits(k, s) ==> DecodeKey(s, packet[4..]) == Some(k)
  {
    var size := 24 + 16 + |k.encPub| + |k.encPriv| + |k.signPub| + |k.signPriv|;
    var buf := new byte[size];
    var at := CopyHeader(buf, k);
    CopyKeys(buf, at, k);
    packet := buf[..];
    KeyPacketMethod(packet, k);
    if KeyFits(k, s) {
      KeyPacket(packet, k, s);
    }
  }

  method CopyHeader(buf: array<byte>, k: PrivateKey) returns (at: nat)
    requires buf.Length >= 24
    modifies buf
    ensures at == 24 && buf[..24] == KeyHeader(k)
  {
    at := 0;
    Copy(buf, at, ToNetwork(PRIVATE_KEY_SET, 4));
    at := at + 4;
    Copy(buf, at, ToNetwork(0, 4));
    at := at + 4;
    Copy(buf, at, ToNetwork(|k.encPub|, 4));
    at := at + 4;
    Copy(buf, at, ToNetwork(|k.encPriv|, 4));
    at := at + 4;
    Copy(buf, at, ToNetwork(|k.signPub|, 4));
    at := at + 4;
    Copy(buf, at, ToNetwork(|k.signPriv|, 4));
    at := at + 4;
  }

  method CopyKeys(buf: array<byte>, from: nat, k: PrivateKey)
    requires buf.Length == from + |k.id| + |k.encPub| + |k.encPriv| + |k.signPub| + |k.signPriv|
    modifies buf
    ensures buf[..] == old(buf[..from]) + k.id + k.encPub + k.encPriv + k.signPub + k.signPriv
  {
    var at := from;
    Copy(buf, at, k.id);
    at := at + |k.id|;
    Copy(buf, at, k.encPub);
    at := at + |k.encPub|;
    Copy(buf, at, k.encPriv);
    at := at + |k.encPriv|;
    Copy(buf, at, k.signPub);
    at := at + |k.signPub|;
    Copy(buf, at, k.signPriv);
  }

  lemma KeyPacketMethod(p: seq<byte>, k: PrivateKey)
    requires |p| >= 24 && p[..24] == KeyHeader(k)
    ensures FromNetwork(p[..4]) == PRIVATE_KEY_SET && FromNetwork(p[4..8]) == 0
  {
    assert p[..4] == p[..24][..4] == ToNetwork(PRIVATE_KEY_SET, 4);
    assert p[4..8] == p[..24][4..8] == ToNetwork(0, 4);
    Power256Values();
    NetworkRoundTrip(PRIVATE_KEY_SET, 4);
    NetworkRoundTrip(0, 4);
  }

  lemma KeyPacket(p: seq<byte>, k: PrivateKey, s: Suite)
    requires KeyFits(k, s)
    requires p == KeyHeader(k) + k.id + k.encPub + k.encPriv + k.signPub + k.signPriv
    ensures DecodeKey(s, p[4..]) == Some(k)
  {
    KeySizes(p, k, s);
    var h := KeyHeader(k);
    KeySlices(p, h, k.id, k.encPub, k.encPriv, k.signPub, k.signPriv);
  }

  /** The parts of a packet, found behind the method id. */
  lemma KeySlices(p: seq<byte>, h: seq<byte>, i: seq<byte>, a: seq<byte>, b: seq<byte>, c: seq<byte>, d: seq<byte>)
    requires p == h + i + a + b + c + d && |h| == 24 && |i| == 16
    ensures var q := p[4..]; var n1 := 36 + |a|; var n2 := n1 + |b|; var n3 := n2 + |c|;
      q[20..36] == i && q[36..n1] == a && q[n1..n2] == b && q[n2..n3] == c && q[n3..n3 + |d|] == d
  {
    var x := h + i + a + b;
    Chopped(p, x + c, d, []);
    Chopped(p, x, c, d);
    Regroup(x, c, d);
    Chopped(p, h + i + a, b, c + d);
    Regroup(h + i + a, b, c + d);
    Chopped(p, h + i, a, b + (c + d));
    Regroup(h + i, a, b + (c + d));
    Chopped(p, h, i, a + (b + (c + d)));
  }

  lemma Regroup(x: seq<byte>, y: seq<byte>, z: seq<byte>)
    ensures x + y + z == x + (y + z)
  {}

  lemma Chopped(p: seq<byte>, before: seq<byte>, part: seq<byte>, after: seq<byte>)
    ensures p == before + part + after && |before| >= 4 ==>
      |before| - 4 + |part| <= |p[4..]| && p[4..][|before| - 4..|before| - 4 + |part|] == part
  {}

  lemma KeySizes(p: seq<byte>, k: PrivateKey, s: Suite)
    requires KeyFits(k, s) && |p| >= 24 && p[..24] == KeyHeader(k)
    ensures SizesMatch(s, p[4..])
  {
    SizeAt(p, k, 1, |k.encPub|);
    SizeAt(p, k, 2, |k.encPriv|);
    SizeAt(p, k, 3, |k.signPub|);
    SizeAt(p, k, 4, |k.signPriv|);
  }

  lemma SizeAt(p: seq<byte>, k: PrivateKey, i: nat, n: nat)
    requires |p| >= 24 && p[..24] == KeyHeader(k) && 1 <= i <= 4 && n < 0x1_0000_0000
    requires n == [|k.encPub|, |k.encPriv|, |k.signPub|, |k.signPriv|][i - 1]
    ensures SizeField(p[4..], i) == n
  {
    HeaderField(k, i, n);
    Shifted(p, KeyHeader(k), 4 * i);
    Power256Values();
    Decoded(ToNetwork(n, 4), n, 4);
  }

  lemma HeaderField(k: PrivateKey, i: nat, n: nat)
    requires 1 <= i <= 4 && n == [|k.encPub|, |k.encPriv|, |k.signPub|, |k.signPriv|][i - 1]
    ensures KeyHeader(k)[4 * i + 4..4 * i + 8] == ToNetwork(n, 4)
  {}

  lemma Shifted(p: seq<byte>, h: seq<byte>, at: nat)
    requires |p| >= 24 && p[..24] == h && at + 8 <= 24
    ensures p[4..][at..at + 4] == h[at + 4..at + 8]
  {
    assert forall j :: 0 <= j < 24 ==> p[j] == h[j];
  }

  // ---------- the control state ----------

  datatype Control = Control(configured: bool, running: bool, limits: Limits, key: Option<PrivateKey>)

  datatype ControlStatus =
    | Done
    | AlreadyConfigured
    | PacketInvalidSize
    | PacketBad
    | StartBeforeConfigure
    | StartBeforePrivateKeySet
    | AlreadyRunning
    | PrivateKeyAlreadySet
    | OutOfMemory

  /** Which of the calls a control command makes fail this time. */
  datatype ControlFaults = ControlFaults(memory: bool, timer: bool, write: bool)

  /** The next control state, the status written back if one is, whether the service must shut down,
      and whether the first timer is set. */
  datatype ControlOut = ControlOut(next: Control, reply: Option<ControlStatus>, fatal: bool, started: bool)

  function OnConfigure(c: Control, payload: seq<byte>): ControlOut {
    if c.configured then ControlOut(c, Some(AlreadyConfigured), false, false)
    else
      match DecodeConfigure(payload)
      case None => ControlOut(c, Some(PacketInvalidSize), true, false)
      case Some(limits) => ControlOut(c.(configured := true, limits := limits), Some(Done), false, false)
  }

  function OnKeySet(c: Control, s: Suite, payload: seq<byte>, f: ControlFaults): ControlOut {
    match DecodeKey(s, payload)
    case None => ControlOut(c, Some(PacketInvalidSize), true, false)
    case Some(key) =>
      if c.key.Some? then ControlOut(c, Some(PrivateKeyAlreadySet), true, false)
      else if f.memory then ControlOut(c, Some(OutOfMemory), true, false)
      else ControlOut(c.(key := Some(key)), Some(Done), false, false)
  }

  function OnStart(c: Control, f: ControlFaults): ControlOut {
    if !c.configured then ControlOut(c, Some(StartBeforeConfigure), f.write, false)
    else if c.key.None? then ControlOut(c, Some(StartBeforePrivateKeySet), f.write, false)
    else if c.running then ControlOut(c, Some(AlreadyRunning), f.write, false)
    else if f.timer then ControlOut(c.(running := true), None, true, false)
    else ControlOut(c.(running := true), Some(Done), f.write, true)
  }

  function OnControl(c: Control, s: Suite, packet: seq<byte>, f: ControlFaults): ControlOut {
    if |packet| < 4 then ControlOut(c, None, true, false)
    else
      var method_ := FromNetwork(packet[..4]);
      if method_ == CONFIGURE then OnConfigure(c, packet[4..])
      else if method_ == PRIVATE_KEY_SET then OnKeySet(c, s, packet[4..], f)
      else if method_ == START then OnStart(c, f)
      else ControlOut(c, Some(PacketBad), true, false)
  }

  // ---------- the commands, told from the bytes of the packet ----------

  /** The number in four bytes of a packet. */
  function Word(packet: seq<byte>, at: nat): nat
    requires at + 4 <= |packet|
  {
    var a: nat, b: nat, c: nat, d: nat := packet[at], packet[at + 1], packet[at + 2], packet[at + 3];
    0x100_0000 * a + 0x1_0000 * b + 0x100 * c + d
  }

  /** A key packet announces the suite's four sizes and is long enough for them. */
  predicate KeyPacketOk(s: Suite, packet: seq<byte>) {
    && |packet| >= 40 + s.encPub + s.encPriv + s.signPub + s.signPriv
    && Word(packet, 8) == s.encPub && Word(packet, 12) == s.encPriv
    && Word(packet, 16) == s.signPub && Word(packet, 20) == s.signPriv
  }

  lemma WordIs(packet: seq<byte>, at: nat)
    requires at + 4 <= |packet|
    ensures FromNetwork(packet[at..at + 4]) == Word(packet, at)
  {
    var w := packet[at..at + 4];
    assert w[..3][..2] == w[..2] && w[..2][..1] == w[..1] && w[..1][..0] == [];
    assert FromNetwork(w[..1]) == w[0];
    assert FromNetwork(w[..2]) == 256 * FromNetwork(w[..1]) + w[1];
    assert FromNetwork(w[..3]) == 256 * FromNetwork(w[..2]) + w[2];
  }

  /** The most significant byte comes first. */
  lemma {:induction false} NetworkAppend(a: seq<byte>, b: seq<byte>)
    ensures FromNetwork(a + b) == FromNetwork(a) * Power256(|b|) + FromNetwork(b)
    decreases |b|
  {
    if b == [] {
      assert a + b == a;
    } else {
      var n := |b| - 1;
      assert (a + b)[..|a| + n] == a + b[..n] && (a + b)[|a| + n] == b[n];
      NetworkAppend(a, b[..n]);
      Scaled(FromNetwork(a), Power256(n), FromNetwork(b[..n]));
    }
  }

  lemma Scaled(x: nat, p: nat, y: nat)
    ensures 256 * (x * p + y) == x * (256 * p) + 256 * y
  {
    assert 256 * (x * p) == x * (256 * p);
  }

  /** The number in eight bytes of a packet. */
  function Long(packet: seq<byte>, at: nat): nat
    requires at + 8 <= |packet|
  {
    0x1_0000_0000 * Word(packet, at) + Word(packet, at + 4)
  }

  lemma LongIs(packet: seq<byte>, at: nat)
    requires at + 8 <= |packet|
    ensures FromNetwork(packet[at..at + 8]) == Long(packet, at) < TWO_TO_64
  {
    assert packet[at..at + 8] == packet[at..at + 4] + packet[at + 4..at + 8];
    NetworkAppend(packet[at..at + 4], packet[at + 4..at + 8]);
    WordIs(packet, at);
    WordIs(packet, at + 4);
    Power256Values();
    FromNetworkBound(packet[at..at + 8]);
  }

  /** The limits in a configure packet, and the key in a key packet, by their places. */
  lemma ConfigureExactly(packet: seq<byte>)
    requires |packet| == 20
    ensures Long(packet, 4) < TWO_TO_64
    ensures DecodeConfigure(packet[4..]) == Some(Limits(Signed(Long(packet, 4)), Long(packet, 12)))
  {
    var p := packet[4..];
    assert p[..8] == packet[4..12] && p[8..] == packet[12..20];
    LongIs(packet, 4);
    LongIs(packet, 12);
  }

  function KeyIn(s: Suite, packet: seq<byte>): PrivateKey
    requires KeyPacketOk(s, packet)
  {
    var a := 40 + s.encPub;
    var b := a + s.encPriv;
    var c := b + s.signPub;
    PrivateKey(packet[24..40], packet[40..a], packet[a..b], packet[b..c], packet[c..c + s.signPriv])
  }

  lemma KeyExactly(s: Suite, packet: seq<byte>)
    requires KeyPacketOk(s, packet)
    ensures DecodeKey(s, packet[4..]) == Some(KeyIn(s, packet))
  {
    KeyPacketExactly(s, packet);
    KeyPlaces(packet, 36 + s.encPub, 36 + s.encPub + s.encPriv, 36 + s.encPub + s.encPriv + s.signPub,
              36 + s.encPub + s.encPriv + s.signPub + s.signPriv);
  }

  lemma KeyPlaces(packet: seq<byte>, a: nat, b: nat, c: nat, d: nat)
    requires 36 <= a <= b <= c <= d <= |packet| - 4
    ensures var p := packet[4..];
      && p[20..36] == packet[24..40] && p[36..a] == packet[40..a + 4] && p[a..b] == packet[a + 4..b + 4]
      && p[b..c] == packet[b + 4..c + 4] && p[c..d] == packet[c + 4..d + 4]
  {
    SliceBehind(packet, 20, 36);
    SliceBehind(packet, 36, a);
    SliceBehind(packet, a, b);
    SliceBehind(packet, b, c);
    SliceBehind(packet, c, d);
  }

  lemma SliceBehind(packet: seq<byte>, i: nat, j: nat)
    requires 4 <= |packet| && i <= j <= |packet| - 4
    ensures packet[4..][i..j] == packet[i + 4..j + 4]
  {}

  lemma KeyPacketExactly(s: Suite, packet: seq<byte>)
    requires |packet| >= 4
    ensures DecodeKey(s, packet[4..]).Some? <==> KeyPacketOk(s, packet)
  {
    if |packet| >= 24 {
      var p := packet[4..];
      assert p[4..8] == packet[8..12] && p[8..12] == packet[12..16];
      assert p[12..16] == packet[16..20] && p[16..20] == packet[20..24];
      WordIs(packet, 8);
      WordIs(packet, 12);
      WordIs(packet, 16);
      WordIs(packet, 20);
    }
  }

  /** Exactly when a command shuts the service down. */
  predicate Shuts(c: Control, s: Suite, packet: seq<byte>, f: ControlFaults) {
    || |packet| < 4
    || (Word(packet, 0) == 0 && !c.configured && |packet| != 20)
    || (Word(packet, 0) == 1 && (!KeyPacketOk(s, packet) || c.key.Some? || f.memory))
    || (Word(packet, 0) == 2 && (f.write || (c.configured && c.key.Some? && !c.running && f.timer)))
    || Word(packet, 0) > 2
  }

  /** Which status it writes, and when it writes none. */
  function Writes(c: Control, s: Suite, packet: seq<byte>, f: ControlFaults): Option<ControlStatus> {
    if |packet| < 4 then None
    else if Word(packet, 0) == 0 then
      Some(if c.configured then AlreadyConfigured else if |packet| != 20 then PacketInvalidSize else Done)
    else if Word(packet, 0) == 1 then
      Some(if !KeyPacketOk(s, packet) then PacketInvalidSize
           else if c.key.Some? then PrivateKeyAlreadySet
           else if f.memory then OutOfMemory else Done)
    else if Word(packet, 0) == 2 then
      if !c.configured then Some(StartBeforeConfigure)
      else if c.key.None? then Some(StartBeforePrivateKeySet)
      else if c.running then Some(AlreadyRunning)
      else if f.timer then None else Some(Done)
    else Some(PacketBad)
  }

  /** What it changes: the first configure packet sets the limits, the first key packet the key, and
      the first start command after both starts the service. */
  lemma CommandExactly(c: Control, s: Suite, packet: seq<byte>, f: ControlFaults)
    ensures var o := OnControl(c, s, packet, f);
      && o.fatal == Shuts(c, s, packet, f)
      && o.reply == Writes(c, s, packet, f)
      && (o.next.configured <==> c.configured || (|packet| == 20 && Word(packet, 0) == 0))
      && (o.next.key.Some? <==>
        c.key.Some? || (|packet| >= 4 && Word(packet, 0) == 1 && KeyPacketOk(s, packet) && !f.memory))
      && (o.next.running <==> c.running || (|packet| >= 4 && Word(packet, 0) == 2 && c.configured && c.key.Some?))
      && (o.started <==> o.next.running && !c.running && !f.timer)
    ensures var o := OnControl(c, s, packet, f);
      && (c.configured ==> o.next.limits == c.limits)
      && (!c.configured && o.next.configured ==>
            Long(packet, 4) < TWO_TO_64 && o.next.limits == Limits(Signed(Long(packet, 4)), Long(packet, 12)))
      && (c.key.Some? ==> o.next.key == c.key)
      && (c.key.None? && o.next.key.Some? ==> KeyPacketOk(s, packet) && o.next.key == Some(KeyIn(s, packet)))
  {
    if |packet| >= 4 {
      WordIs(packet, 0);
      KeyPacketExactly(s, packet);
      if KeyPacketOk(s, packet) {
        KeyExactly(s, packet);
      }
      if |packet| == 20 {
        ConfigureExactly(packet);
      }
    }
  }

  const FRESH := Control(false, false, Limits(0, 0), None)

  /** The control state after a run of packets; a fatal one ends it. */
  function RunControl(c: Control, s: Suite, packets: seq<seq<byte>>, faults: seq<ControlFaults>): Control
    requires |faults| == |packets|
    decreases |packets|
  {
    if packets == [] then c
    else
      var o := OnControl(c, s, packets[0], faults[0]);
      if o.fatal then o.next else RunControl(o.next, s, packets[1..], faults[1..])
  }

  /** A command that shuts the service down is the last one that counts. */
  lemma FatalEndsTheRun(c: Control, s: Suite, packets: seq<seq<byte>>, faults: seq<ControlFaults>)
    requires |faults| == |packets| && packets != [] && Shuts(c, s, packets[0], faults[0])
    ensures RunControl(c, s, packets, faults) == RunControl(c, s, packets[..1], faults[..1])
  {
    CommandExactly(c, s, packets[0], faults[0]);
  }

  /** Once set, the limits and the key never change; and the service only runs with both. */
  lemma {:induction false} ControlIsOneTime(c: Control, s: Suite, packets: seq<seq<byte>>, faults: seq<ControlFaults>)
    requires |faults| == |packets|
    requires c.running ==> c.configured && c.key.Some?
    ensures var d := RunControl(c, s, packets, faults);
      && (c.configured ==> d.configured && d.limits == c.limits)
      && (c.key.Some? ==> d.key == c.key)
      && (c.running ==> d.running)
      && (d.running ==> d.configured && d.key.Some?)
    decreases |packets|
  {
    if packets != [] {
      var o := OnControl(c, s, packets[0], faults[0]);
      if !o.fatal {
        ControlIsOneTime(o.next, s, packets[1..], faults[1..]);
      }
    }
  }

  /** A started service holds the limits of the first configure packet and a key whose sizes are
      the suite's. */
  lemma {:induction false} StartedFrom(s: Suite, packets: seq<seq<byte>>, faults: seq<ControlFaults>)
    requires |faults| == |packets|
    ensures var d := RunControl(FRESH, s, packets, faults);
      && (d.configured ==> exists i :: 0 <= i < |packets| && FirstConfigure(packets, i, d.limits))
      && (d.key.Some? ==> exists i :: 0 <= i < |packets| && KeyFrom(s, packets[i], d.key.value))
  {
    LimitsFrom(FRESH, s, packets, faults);
    KeyCameFrom(FRESH, s, packets, faults);
  }

  predicate IsConfigure(packet: seq<byte>) {
    |packet| >= 4 && FromNetwork(packet[..4]) == CONFIGURE
  }

  /** The first configure packet of a run, and the limits it carries. */
  predicate FirstConfigure(packets: seq<seq<byte>>, i: nat, limits: Limits)
    requires i < |packets|
  {
    && IsConfigure(packets[i])
    && DecodeConfigure(packets[i][4..]) == Some(limits)
    && forall j :: 0 <= j < i ==> !IsConfigure(packets[j])
  }

  predicate KeyFrom(s: Suite, packet: seq<byte>, k: PrivateKey) {
    |packet| >= 4 && FromNetwork(packet[..4]) == PRIVATE_KEY_SET && DecodeKey(s, packet[4..]) == Some(k)
  }

  lemma {:induction false} LimitsFrom(c: Control, s: Suite, packets: seq<seq<byte>>, faults: seq<ControlFaults>)
    requires |faults| == |packets|
    requires !c.configured && !c.running
    ensures var d := RunControl(c, s, packets, faults);
      d.configured ==> exists i :: 0 <= i < |packets| && FirstConfigure(packets, i, d.limits)
    decreases |packets|
  {
    if packets != [] {
      var o := OnControl(c, s, packets[0], faults[0]);
      var d := RunControl(c, s, packets, faults);
      if IsConfigure(packets[0]) {
        if !o.fatal {
          ControlIsOneTime(o.next, s, packets[1..], faults[1..]);
          assert FirstConfigure(packets, 0, d.limits);
        }
      } else if !o.fatal {
        LimitsFrom(o.next, s, packets[1..], faults[1..]);
        if d.configured {
          var i :| 0 <= i < |packets[1..]| && FirstConfigure(packets[1..], i, d.limits);
          assert packets[i + 1] == packets[1..][i];
          assert forall j :: 1 <= j < i + 1 ==> packets[j] == packets[1..][j - 1];
          assert FirstConfigure(packets, i + 1, d.limits);
        }
      }
    }
  }

  lemma {:induction false} KeyCameFrom(c: Control, s: Suite, packets: seq<seq<byte>>, faults: seq<ControlFaults>)
    requires |faults| == |packets|
    requires c.running ==> c.configured && c.key.Some?
    ensures var d := RunControl(c, s, packets, faults);
      d.key.Some? ==> d.key == c.key || exists i :: 0 <= i < |packets| && KeyFrom(s, packets[i], d.key.value)
    decreases |packets|
  {
    if packets != [] {
      var o := OnControl(c, s, packets[0], faults[0]);
      var d := RunControl(c, s, packets, faults);
      if o.fatal {
        assert d == o.next;
      } else {
        KeyCameFrom(o.next, s, packets[1..], faults[1..]);
        if d.key.Some? && d.key != o.next.key {
          var i :| 0 <= i < |packets[1..]| && KeyFrom(s, packets[1..][i], d.key.value);
          assert packets[i + 1] == packets[1..][i];
        }
        if d.key.Some? && d.key == o.next.key != c.key {
          assert KeyFrom(s, packets[0], d.key.value);
        }
      }
    }
  }
}
