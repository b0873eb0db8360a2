/** The public entity stream: the reader process that turns entity certificates into replies, and
    the parent that reads those replies back. */
module PublicEntities {
  import opened Ids

  /** A value on the control socket. */
  datatype Item = Mark(n: nat) | Data(bytes: seq<byte>) | Count(n: nat)

  const BOM := 0x00
  const EOM := 0x80

  datatype Endorser = Endorser(id: seq<byte>, encKey: seq<byte>, signKey: seq<byte>)

  /** A certificate file: whether it attests under a given endorser, and the fields found in it. */
  datatype File =
    | Unreadable
    | Entity(attests: Endorser -> bool,
             id: Option<seq<byte>>,
             encKey: Option<seq<byte>>,
             signKey: Option<seq<byte>>,
             endorsements: seq<seq<byte>>)

  datatype KeySizes = KeySizes(enc: nat, sign: nat)

  /** The three mandatory fields are there and have the right size. */
  predicate FieldsOk(f: File, sizes: KeySizes) {
    && f.Entity?
    && f.id.Some? && |f.id.value| == 16
    && f.encKey.Some? && |f.encKey.value| == sizes.enc
    && f.signKey.Some? && |f.signKey.value| == sizes.sign
  }

  // ---------- what a reply looks like ----------

  /** One capability: the first 48 bytes of an endorsement, framed. */
  function Framed(e: seq<byte>): (items: seq<Item>)
    requires |e| >= 48
    ensures |items| == 5
  {
    [Mark(BOM), Data(e[..16]), Data(e[16..32]), Data(e[32..48]), Mark(EOM)]
  }

  function FramedAll(es: seq<seq<byte>>): seq<Item>
    requires forall i :: 0 <= i < |es| ==> |es[i]| >= 48
  {
    if es == [] then [] else FramedAll(es[..|es| - 1]) + Framed(es[|es| - 1])
  }

  /** How many endorsements come before the first one that is too short. */
  function LongPrefix(es: seq<seq<byte>>): (n: nat)
    ensures n <= |es|
    ensures forall i :: 0 <= i < n ==> |es[i]| >= 48
    ensures n < |es| ==> |es[n]| < 48
  {
    if es == [] || |es[0]| < 48 then 0
    else
      var m := LongPrefix(es[1..]);
      assert forall i :: 1 <= i < m + 1 ==> es[i] == es[1..][i - 1];
      m + 1
  }

  /** The capabilities section: the announced count, then the records; it breaks off before the
      first endorsement that is too short. */
  function Section(es: seq<seq<byte>>): seq<Item> {
    [Count(|es|)] + FramedAll(es[..LongPrefix(es)])
  }

  function Head(f: File): seq<Item>
    requires f.Entity? && f.id.Some? && f.encKey.Some? && f.signKey.Some?
  {
    [Mark(BOM), Data(f.id.value), Data(f.encKey.value), Data(f.signKey.value)]
  }

  datatype Reply = Reply(ok: bool, items: seq<Item>, endorser: Option<Endorser>)

  /** The reply to one file name, given the endorser known so far. */
  function ReplyTo(f: File, sizes: KeySizes, known: Option<Endorser>, isEndorser: bool): Reply {
    if f.Unreadable? || (known.Some? && !f.attests(known.value)) || !FieldsOk(f, sizes) then Reply(false, [], known)
    else
      var now := if isEndorser then Some(Endorser(f.id.value, f.encKey.value, f.signKey.value)) else known;
      if isEndorser || known.None? then Reply(true, Head(f) + [Mark(EOM)], now)
      else if LongPrefix(f.endorsements) < |f.endorsements| then Reply(false, Head(f) + Section(f.endorsements), now)
      else Reply(true, Head(f) + Section(f.endorsements) + [Mark(EOM)], now)
  }

  /** The replies to a list of file names; the first failure ends the session. */
  function Session(files: seq<File>, sizes: KeySizes, known: Option<Endorser>, isEndorser: bool): seq<seq<Item>> {
    if files == [] then []
    else
      var r := ReplyTo(files[0], sizes, known, isEndorser);
      [r.items] + if r.ok then Session(files[1..], sizes, r.endorser, false) else []
  }

  // ---------- the reader process ----------

  class Reader {
    const sizes: KeySizes
    var endorser: Option<Endorser>

    constructor (s: KeySizes)
      ensures sizes == s && endorser.None?
    {
      sizes := s;
      endorser := None;
    }

    /** entity_get_capabilities_count. */
    method CapabilitiesCount(es: seq<seq<byte>>) returns (count: nat)
      ensures count == |es|
    {
      count := 0;
      if es == [] {
        return;
      }
      count := 1;
      while count < |es|
        invariant 1 <= count <= |es|
      {
        count := count + 1;
      }
    }

    /** The capabilities section, record by record. */
    method EmitCapabilities(es: seq<seq<byte>>) returns (ok: bool, out: seq<Item>)
      ensures out == Section(es)
      ensures ok <==> LongPrefix(es) == |es|
    {
      var count := CapabilitiesCount(es);
      out := [Count(count)];
      var at := 0;
      if es == [] {
        return count == 0, out;
      }
      if |es[at]| < 48 {
        return false, out;
      }
      while count > 0
        invariant at + count == |es|
        invariant forall i :: 0 <= i < at ==> |es[i]| >= 48
        invariant out == [Count(|es|)] + FramedAll(es[..at])
        invariant count > 0 ==> |es[at]| >= 48
        decreases count
      {
        count := count - 1;
        out := out + [Mark(BOM)] + [Data(es[at][..16])] + [Data(es[at][16..32])] + [Data(es[at][32..48])] + [Mark(EOM)];
        assert es[..at + 1][..at] == es[..at];
        at := at + 1;
        if at == |es| {
          ok := count == 0;
          assert LongPrefix(es) == at;
          return;
        }
        if |es[at]| < 48 {
          assert LongPrefix(es) == at;
          return false, out;
        }
      }
      ok := true;
    }

    /** read_public_entity. */
    method ReadPublicEntity(f: File, isEndorser: bool) returns (ok: bool, out: seq<Item>)
      modifies this
      ensures var r := ReplyTo(f, sizes, old(endorser), isEndorser);
        ok == r.ok && out == r.items && endorser == r.endorser
    {
      out := [];
      if f.Unreadable? {
        return false, out;
      }
      if endorser.Some? && !f.attests(endorser.value) {
        return false, out;
      }
      if f.id.None? || |f.id.value| != 16 {
        return false, out;
      }
      if f.encKey.None? || |f.encKey.value| != sizes.enc {
        return false, out;
      }
      if f.signKey.None? || |f.signKey.value| != sizes.sign {
        return false, out;
      }
      if isEndorser {
        endorser := Some(Endorser(f.id.value, f.encKey.value, f.signKey.value));
      }
      out := out + [Mark(BOM), Data(f.id.value), Data(f.encKey.value), Data(f.signKey.value)];
      if endorser.Some? && !isEndorser {
        var done, section := EmitCapabilities(f.endorsements);
        out := out + section;
        if !done {
          return false, out;
        }
      }
      out := out + [Mark(EOM)];
      return true, out;
    }

    /** read_public_entities: only the first file can be the endorser's. */
    method ReadPublicEntities(files: seq<File>, flag: bool) returns (replies: seq<seq<Item>>)
      modifies this
      ensures replies == Session(files, sizes, old(endorser), flag)
    {
      replies := [];
      var isEndorser := flag;
      var i := 0;
      var streamOkay := true;
      while streamOkay && i < |files|
        invariant 0 <= i <= |files|
        invariant replies + (if streamOkay then Session(files[i..], sizes, endorser, isEndorser) else [])
          == Session(files, sizes, old(endorser), flag)
      {
        assert files[i..][1..] == files[i + 1..];
        var ok, out := ReadPublicEntity(files[i], isEndorser);
        replies := replies + [out];
        streamOkay := ok;
        isEndorser := false;
        i := i + 1;
      }
    }
  }

  // ---------- what a session promises ----------

  /** A successful reply under an endorser announces as many capabilities as it then frames, the
      k-th being the first 48 bytes of the k-th endorsement. */
  lemma CountMatchesRecords(f: File, sizes: KeySizes, known: Endorser, k: nat)
    requires ReplyTo(f, sizes, Some(known), false).ok
    ensures f.Entity? && k < |f.endorsements| ==> |f.endorsements[k]| >= 48
    ensures var items := ReplyTo(f, sizes, Some(known), false).items;
      && |items| == 4 + 1 + 5 * |f.endorsements| + 1
      && items[4] == Count(|f.endorsements|)
      && (k < |f.endorsements| ==>
            var e := f.endorsements[k];
            items[5 + 5 * k..10 + 5 * k] == [Mark(0x00), Data(e[..16]), Data(e[16..32]), Data(e[32..48]), Mark(0x80)])
      && items[..4] == [Mark(0x00), Data(f.id.value), Data(f.encKey.value), Data(f.signKey.value)]
      && items[|items| - 1] == Mark(0x80)
  {
    var es := f.endorsements;
    assert es[..|es|] == es;
    FramedSize(es);
    if k < |es| {
      FramedAt(es, k);
      var items := ReplyTo(f, sizes, Some(known), false).items;
      assert items == Head(f) + [Count(|es|)] + FramedAll(es) + [Mark(EOM)];
      assert items[5 + 5 * k..10 + 5 * k] == FramedAll(es)[5 * k..5 * k + 5];
    }
  }

  /** A reply that breaks off announces all endorsements and frames those before the first one that
      is too short. */
  lemma BrokenOffReply(f: File, sizes: KeySizes, known: Endorser, k: nat)
    requires Answerable(f, sizes, Some(known)) && !Fine(f, sizes, Some(known), false)
    ensures var n := LongPrefix(f.endorsements);
      n < |f.endorsements| && |f.endorsements[n]| < 48 && forall j :: 0 <= j < n ==> |f.endorsements[j]| >= 48
    ensures var n, items := LongPrefix(f.endorsements), ReplyTo(f, sizes, Some(known), false).items;
      && |items| == 4 + 1 + 5 * n
      && items[..4] == [Mark(0x00), Data(f.id.value), Data(f.encKey.value), Data(f.signKey.value)]
      && items[4] == Count(|f.endorsements|)
      && (k < n ==>
            var e := f.endorsements[k];
            items[5 + 5 * k..10 + 5 * k] == [Mark(0x00), Data(e[..16]), Data(e[16..32]), Data(e[32..48]), Mark(0x80)])
  {
    var n := LongPrefix(f.endorsements);
    var es := f.endorsements[..n];
    var items := ReplyTo(f, sizes, Some(known), false).items;
    FramedSize(es);
    assert items == Head(f) + [Count(|f.endorsements|)] + FramedAll(es);
    if k < n {
      FramedAt(es, k);
      assert items[5 + 5 * k..10 + 5 * k] == FramedAll(es)[5 * k..5 * k + 5];
    }
  }

  lemma {:induction false} FramedSize(es: seq<seq<byte>>)
    requires forall i :: 0 <= i < |es| ==> |es[i]| >= 48
    ensures |FramedAll(es)| == 5 * |es|
  {
    if es != [] {
      FramedSize(es[..|es| - 1]);
    }
  }

  lemma {:induction false} FramedAt(es: seq<seq<byte>>, k: nat)
    requires k < |es| && forall i :: 0 <= i < |es| ==> |es[i]| >= 48
    ensures |FramedAll(es)| == 5 * |es| && FramedAll(es)[5 * k..5 * k + 5] == Framed(es[k])
  {
    var n := |es| - 1;
    FramedSize(es);
    FramedSize(es[..n]);
    if k < n {
      FramedAt(es[..n], k);
    }
    SliceOfJoin(FramedAll(es[..n]), Framed(es[n]), 5 * k);
  }

  lemma SliceOfJoin(a: seq<Item>, b: seq<Item>, i: nat)
    requires |b| == 5 && i <= |a|
    ensures i == |a| ==> (a + b)[i..i + 5] == b
    ensures i + 5 <= |a| ==> (a + b)[i..i + 5] == a[i..i + 5]
  {}

  /** The endorser under which the `i`-th file of a session has to attest: the one known before, or
      the entity of the first file when that is the endorser's. */
  function InForce(files: seq<File>, known: Option<Endorser>, flag: bool, i: nat): Option<Endorser>
    requires i < |files|
  {
    if !flag || i == 0 then known
    else if files[0].Entity? && files[0].id.Some? && files[0].encKey.Some? && files[0].signKey.Some? then
      Some(Endorser(files[0].id.value, files[0].encKey.value, files[0].signKey.value))
    else None
  }

  /** A file that is answered at all: it can be read, attests under the endorser if there is one, and
      has the three fields in their sizes. */
  predicate Answerable(f: File, sizes: KeySizes, known: Option<Endorser>) {
    && f.Entity? && (known.Some? ==> f.attests(known.value))
    && f.id.Some? && |f.id.value| == 16
    && f.encKey.Some? && |f.encKey.value| == sizes.enc
    && f.signKey.Some? && |f.signKey.value| == sizes.sign
  }

  /** A file that is answered in full: also, its endorsements are long enough, if they are sent. */
  predicate Fine(f: File, sizes: KeySizes, known: Option<Endorser>, isEndorser: bool) {
    && Answerable(f, sizes, known)
    && (known.Some? && !isEndorser ==> forall j :: 0 <= j < |f.endorsements| ==> |f.endorsements[j]| >= 48)
  }

  predicate FineAt(files: seq<File>, sizes: KeySizes, known: Option<Endorser>, flag: bool, i: nat)
    requires i < |files|
  {
    Fine(files[i], sizes, InForce(files, known, flag, i), flag && i == 0)
  }

  lemma ReplyExactly(f: File, sizes: KeySizes, known: Option<Endorser>, isEndorser: bool)
    ensures var r := ReplyTo(f, sizes, known, isEndorser);
      && (r.ok <==> Fine(f, sizes, known, isEndorser))
      && (r.items != [] <==> Answerable(f, sizes, known))
      && (r.ok && isEndorser ==> r.endorser == Some(Endorser(f.id.value, f.encKey.value, f.signKey.value)))
      && (!isEndorser ==> r.endorser == known)
  {}

  /** How long a session lasts, from the files alone: there is a reply for every file up to and
      including the first that is not answered in full, and a reply holds something exactly when its
      file is answered at all. */
  lemma {:induction false} RepliesExactly(files: seq<File>, sizes: KeySizes, known: Option<Endorser>, flag: bool)
    ensures var n := |Session(files, sizes, known, flag)|;
      && n <= |files| && (files != [] ==> n >= 1)
      && (forall i :: 0 <= i < n - 1 ==> FineAt(files, sizes, known, flag, i))
      && (n < |files| ==> !FineAt(files, sizes, known, flag, n - 1))
      && (forall i :: 0 <= i < n ==>
            (Session(files, sizes, known, flag)[i] != [] <==>
              Answerable(files[i], sizes, InForce(files, known, flag, i))))
    decreases |files|
  {
    if files != [] {
      var r, s := ReplyTo(files[0], sizes, known, flag), Session(files, sizes, known, flag);
      ReplyExactly(files[0], sizes, known, flag);
      if r.ok {
        var rest := Session(files[1..], sizes, r.endorser, false);
        RepliesExactly(files[1..], sizes, r.endorser, false);
        assert s == [r.items] + rest;
        forall i | 1 <= i < |files|
          ensures InForce(files, known, flag, i) == InForce(files[1..], r.endorser, false, i - 1)
          ensures FineAt(files, sizes, known, flag, i) <==> FineAt(files[1..], sizes, r.endorser, false, i - 1)
        {
          assert files[i] == files[1..][i - 1];
        }
      }
    }
  }

  /** Once there is an endorser it never changes, and no byte of a reply is written for a file
      that does not attest under it. */
  lemma {:induction false} AttestedBeforeAnyByte(files: seq<File>, sizes: KeySizes, known: Endorser, i: nat)
    requires i < |Session(files, sizes, Some(known), false)| && Session(files, sizes, Some(known), false)[i] != []
    ensures i < |files| && files[i].Entity? && files[i].attests(known)
    decreases |files|
  {
    var r := ReplyTo(files[0], sizes, Some(known), false);
    if i > 0 {
      assert Session(files, sizes, Some(known), false)[i] == Session(files[1..], sizes, Some(known), false)[i - 1];
      AttestedBeforeAnyByte(files[1..], sizes, known, i - 1);
    }
  }

  /** The same for a session that starts with the endorser's own file. */
  lemma EndorsedSession(files: seq<File>, sizes: KeySizes, i: nat)
    requires 1 <= i < |Session(files, sizes, None, true)| && Session(files, sizes, None, true)[i] != []
    ensures i < |files| && FieldsOk(files[0], sizes) && files[i].Entity?
    ensures files[i].attests(Endorser(files[0].id.value, files[0].encKey.value, files[0].signKey.value))
  {
    var known := Endorser(files[0].id.value, files[0].encKey.value, files[0].signKey.value);
    assert Session(files, sizes, None, true)[i] == Session(files[1..], sizes, Some(known), false)[i - 1];
    AttestedBeforeAnyByte(files[1..], sizes, known, i - 1);
  }

  // ---------- the parent ----------

  datatype Capability = Capability(subject: seq<byte>, verb: seq<byte>, obj: seq<byte>)

  datatype Node = Node(id: seq<byte>, encKey: seq<byte>, signKey: seq<byte>, caps: seq<Capability>)

  datatype Taken<+T> = Got(value: T, rest: seq<Item>) | Broken

  function CapabilityOf(e: seq<byte>): Capability
    requires |e| >= 48
  {
    Capability(e[..16], e[16..32], e[32..48])
  }

  /** config_entity_read_capabilities, after the count.  A field of the wrong size ends the list
      without an error. */
  function ReadCaps(count: nat, vs: seq<Item>, caps: seq<Capability>): Taken<seq<Capability>>
    decreases count
  {
    if count == 0 then Got(caps, vs)
    else if |vs| < 2 || vs[0] != Mark(BOM) || !vs[1].Data? then Broken
    else if |vs[1].bytes| != 16 then Got(caps, vs[2..])
    else if |vs| < 3 || !vs[2].Data? then Broken
    else if |vs[2].bytes| != 16 then Got(caps, vs[3..])
    else if |vs| < 4 || !vs[3].Data? then Broken
    else if |vs[3].bytes| != 16 then Got(caps, vs[4..])
    else if |vs| < 5 || vs[4] != Mark(EOM) then Broken
    else ReadCaps(count - 1, vs[5..], [Capability(vs[1].bytes, vs[2].bytes, vs[3].bytes)] + caps)
  }

  /** config_entity_read. */
  function ReadEntity(vs: seq<Item>, withCaps: bool): Taken<Node> {
    if |vs| < 4 || vs[0] != Mark(BOM) || !vs[1].Data? || !vs[2].Data? || !vs[3].Data? then Broken
    else
      var caps :=
        if !withCaps then Got([], vs[4..])
        else if |vs| < 5 || !vs[4].Count? then Broken
        else ReadCaps(vs[4].n, vs[5..], []);
      if caps.Broken? || caps.rest == [] || caps.rest[0] != Mark(EOM) || |vs[1].bytes| != 16 then Broken
      else Got(Node(vs[1].bytes, vs[2].bytes, vs[3].bytes, caps.value), caps.rest[1..])
  }

  /** The capabilities of an entity, last endorsement first. */
  function CapsOf(es: seq<seq<byte>>): seq<Capability>
    requires forall i :: 0 <= i < |es| ==> |es[i]| >= 48
  {
    if es == [] then [] else [CapabilityOf(es[|es| - 1])] + CapsOf(es[..|es| - 1])
  }

  lemma {:induction false} FramedFirst(es: seq<seq<byte>>)
    requires es != [] && forall i :: 0 <= i < |es| ==> |es[i]| >= 48
    ensures FramedAll(es) == Framed(es[0]) + FramedAll(es[1..])
  {
    var n := |es| - 1;
    if n == 0 {
      assert es[..n] == [] && es[1..] == [];
    } else {
      var init, rest := es[..n], es[1..];
      FramedFirst(init);
      assert init[1..] == rest[..n - 1] && rest[n - 1] == es[n] && init[0] == es[0];
      JoinAssociates(Framed(es[0]), FramedAll(rest[..n - 1]), Framed(es[n]));
    }
  }

  lemma {:induction false} CapsFirst(es: seq<seq<byte>>)
    requires es != [] && forall i :: 0 <= i < |es| ==> |es[i]| >= 48
    ensures CapsOf(es) == CapsOf(es[1..]) + [CapabilityOf(es[0])]
  {
    var n := |es| - 1;
    if n == 0 {
      assert es[..n] == [] && es[1..] == [];
    } else {
      var init, rest := es[..n], es[1..];
      CapsFirst(init);
      assert init[1..] == rest[..n - 1] && rest[n - 1] == es[n] && init[0] == es[0];
      JoinAssociates([CapabilityOf(es[n])], CapsOf(rest[..n - 1]), [CapabilityOf(es[0])]);
    }
  }

  lemma JoinAssociates<T>(a: seq<T>, b: seq<T>, c: seq<T>)
    ensures (a + b) + c == a + (b + c)
  {}

  lemma {:induction false} ReadFramed(es: seq<seq<byte>>, rest: seq<Item>, caps: seq<Capability>)
    requires forall i :: 0 <= i < |es| ==> |es[i]| >= 48
    ensures ReadCaps(|es|, FramedAll(es) + rest, caps) == Got(CapsOf(es) + caps, rest)
    decreases |es|
  {
    if es == [] {
      assert FramedAll(es) + rest == rest && CapsOf(es) + caps == caps;
    } else {
      FramedFirst(es);
      CapsFirst(es);
      var tail := FramedAll(es[1..]) + rest;
      assert FramedAll(es) + rest == Framed(es[0]) + tail;
      ReadFramedOne(|es|, es[0], tail, caps);
      var more := [CapabilityOf(es[0])] + caps;
      ReadFramed(es[1..], rest, more);
      assert CapsOf(es[1..]) + more == CapsOf(es) + caps;
    }
  }

  lemma ReadFramedOne(count: nat, e: seq<byte>, tail: seq<Item>, caps: seq<Capability>)
    requires count > 0 && |e| >= 48
    ensures ReadCaps(count, Framed(e) + tail, caps) == ReadCaps(count - 1, tail, [CapabilityOf(e)] + caps)
  {
    assert (Framed(e) + tail)[5..] == tail;
  }

  /** Round trip: the parent reads from a successful reply exactly the entity's id, keys and
      capabilities, and nothing of what follows. */
  lemma ReplyRoundTrip(f: File, sizes: KeySizes, known: Option<Endorser>, isEndorser: bool, rest: seq<Item>)
    requires ReplyTo(f, sizes, known, isEndorser).ok
    ensures forall i :: known.Some? && !isEndorser && 0 <= i < |f.endorsements| ==> |f.endorsements[i]| >= 48
    ensures ReadEntity(ReplyTo(f, sizes, known, isEndorser).items + rest, known.Some? && !isEndorser) ==
      Got(Node(f.id.value, f.encKey.value, f.signKey.value,
               if known.Some? && !isEndorser then CapsOf(f.endorsements) else []), rest)
  {
    if known.Some? && !isEndorser {
      ReadWithCaps(f, rest);
      assert f.endorsements[..|f.endorsements|] == f.endorsements;
      assert ReplyTo(f, sizes, known, isEndorser).items ==
        Head(f) + ([Count(|f.endorsements|)] + FramedAll(f.endorsements)) + [Mark(EOM)];
    } else {
      ReadWithoutCaps(f, rest);
    }
  }

  lemma ReadWithoutCaps(f: File, rest: seq<Item>)
    requires f.Entity? && f.id.Some? && |f.id.value| == 16 && f.encKey.Some? && f.signKey.Some?
    ensures ReadEntity(Head(f) + [Mark(EOM)] + rest, false)
        == Got(Node(f.id.value, f.encKey.value, f.signKey.value, []), rest)
  {
    var vs := Head(f) + [Mark(EOM)] + rest;
    assert vs[4..] == [Mark(EOM)] + rest && ([Mark(EOM)] + rest)[1..] == rest;
  }

  lemma HeadThen(head: seq<Item>, count: Item, body: seq<Item>, tail: seq<Item>)
    ensures var vs := head + ([count] + body) + tail;
      vs[..|head|] == head && vs[|head|] == count && vs[|head| + 1..] == body + tail
  {}

  lemma ReadWithCaps(f: File, rest: seq<Item>)
    requires f.Entity? && f.id.Some? && |f.id.value| == 16 && f.encKey.Some? && f.signKey.Some?
    requires forall i :: 0 <= i < |f.endorsements| ==> |f.endorsements[i]| >= 48
    ensures ReadEntity(Head(f) + ([Count(|f.endorsements|)] + FramedAll(f.endorsements)) + [Mark(EOM)] + rest, true) ==
      Got(Node(f.id.value, f.encKey.value, f.signKey.value, CapsOf(f.endorsements)), rest)
  {
    var es := f.endorsements;
    var vs := Head(f) + ([Count(|es|)] + FramedAll(es)) + [Mark(EOM)] + rest;
    var tail := [Mark(EOM)] + rest;
    ReadFramed(es, tail, []);
    JoinAssociates(Head(f) + ([Count(|es|)] + FramedAll(es)), [Mark(EOM)], rest);
    HeadThen(Head(f), Count(|es|), FramedAll(es), tail);
    assert CapsOf(es) + [] == CapsOf(es) && tail[1..] == rest;
  }

  predicate Sixteen(v: Item) {
    v.Data? && |v.bytes| == 16
  }

  /** A capability record that starts at `at`. */
  predicate RecordAt(vs: seq<Item>, at: nat) {
    && at + 5 <= |vs| && vs[at] == Mark(0x00)
    && Sixteen(vs[at + 1]) && Sixteen(vs[at + 2]) && Sixteen(vs[at + 3])
    && vs[at + 4] == Mark(0x80)
  }

  function CapabilityAt(vs: seq<Item>, at: nat): Capability
    requires RecordAt(vs, at)
  {
    Capability(vs[at + 1].bytes, vs[at + 2].bytes, vs[at + 3].bytes)
  }

  /** A record that starts at `at` and breaks off at its `m`-th field, which has a wrong size. */
  predicate CutAt(vs: seq<Item>, at: nat, m: nat) {
    && 1 <= m < 4 && at + m < |vs| && vs[at] == Mark(0x00)
    && (m > 1 ==> Sixteen(vs[at + 1])) && (m > 2 ==> Sixteen(vs[at + 2]))
    && vs[at + m].Data? && |vs[at + m].bytes| != 16
  }

  /** Where reading `count` capabilities ends: behind `count` records, or at a field of a wrong size
      behind fewer. */
  predicate EndsAt(count: nat, vs: seq<Item>, k: nat, m: nat) {
    && k <= count && 5 * k <= |vs| && (forall j :: 0 <= j < k ==> RecordAt(vs, 5 * j))
    && if k == count then m == 0 else CutAt(vs, 5 * k, m)
  }

  /** What has been read by then: the capabilities of the records, last first, in front of those there
      were, and what follows. */
  predicate Ended(count: nat, vs: seq<Item>, caps: seq<Capability>, k: nat, m: nat)
    requires EndsAt(count, vs, k, m)
  {
    && ReadCaps(count, vs, caps).Got?
    && var r := ReadCaps(count, vs, caps);
       && |r.value| == k + |caps| && r.value[k..] == caps
       && (forall j :: 0 <= j < k ==> RecordAt(vs, 5 * j) && r.value[k - 1 - j] == CapabilityAt(vs, 5 * j))
       && r.rest == if k == count then vs[5 * k..] else vs[5 * k + m + 1..]
  }

  /** Capabilities are read exactly when they end somewhere. */
  lemma {:induction false} CapabilitiesReadExactly(count: nat, vs: seq<Item>, caps: seq<Capability>)
    ensures ReadCaps(count, vs, caps).Got? <==> exists k: nat, m: nat :: EndsAt(count, vs, k, m)
    ensures forall k: nat, m: nat :: EndsAt(count, vs, k, m) ==> Ended(count, vs, caps, k, m)
  {
    forall k: nat, m: nat | EndsAt(count, vs, k, m) ensures Ended(count, vs, caps, k, m) {
      EndIsRead(count, vs, caps, k, m);
    }
    if ReadCaps(count, vs, caps).Got? {
      var k, m := ReadHasEnd(count, vs, caps);
    }
  }

  lemma ShiftedRecord(vs: seq<Item>, at: nat, m: nat)
    requires at >= 5 && |vs| >= 5
    ensures RecordAt(vs, at) <==> RecordAt(vs[5..], at - 5)
    ensures RecordAt(vs, at) ==> CapabilityAt(vs, at) == CapabilityAt(vs[5..], at - 5)
    ensures CutAt(vs, at, m) <==> CutAt(vs[5..], at - 5, m)
  {}

  lemma NextRecords(count: nat, vs: seq<Item>, k: nat, m: nat)
    requires count > 0 && k > 0 && RecordAt(vs, 0)
    ensures EndsAt(count, vs, k, m) <==> EndsAt(count - 1, vs[5..], k - 1, m)
  {
    var ws := vs[5..];
    ShiftedRecord(vs, 5 * k, m);
    if EndsAt(count, vs, k, m) {
      forall j | 0 <= j < k - 1 ensures RecordAt(ws, 5 * j) {
        assert RecordAt(vs, 5 * (j + 1));
        ShiftedRecord(vs, 5 * (j + 1), m);
      }
    }
    if EndsAt(count - 1, ws, k - 1, m) {
      forall j | 0 <= j < k ensures RecordAt(vs, 5 * j) {
        if j > 0 {
          assert RecordAt(ws, 5 * (j - 1));
          ShiftedRecord(vs, 5 * j, m);
        }
      }
    }
  }

  lemma {:induction false} EndIsRead(count: nat, vs: seq<Item>, caps: seq<Capability>, k: nat, m: nat)
    requires EndsAt(count, vs, k, m)
    ensures Ended(count, vs, caps, k, m)
    decreases count
  {
    if k > 0 {
      assert RecordAt(vs, 5 * 0);
      NextRecords(count, vs, k, m);
      EndIsRead(count - 1, vs[5..], [CapabilityAt(vs, 0)] + caps, k - 1, m);
      EndShifted(count, vs, caps, k, m);
    }
  }

  lemma EndShifted(count: nat, vs: seq<Item>, caps: seq<Capability>, k: nat, m: nat)
    requires EndsAt(count, vs, k, m) && k > 0 && RecordAt(vs, 0) && EndsAt(count - 1, vs[5..], k - 1, m)
    requires Ended(count - 1, vs[5..], [CapabilityAt(vs, 0)] + caps, k - 1, m)
    ensures Ended(count, vs, caps, k, m)
  {
    var r := ReadCaps(count - 1, vs[5..], [CapabilityAt(vs, 0)] + caps);
    assert ReadCaps(count, vs, caps) == r;
    assert r.value[k - 1..][0] == CapabilityAt(vs, 0) && r.value[k - 1..][1..] == caps;
    forall j | 0 <= j < k ensures r.value[k - 1 - j] == CapabilityAt(vs, 5 * j) {
      if j > 0 {
        var i := j - 1;
        assert r.value[(k - 1) - 1 - i] == CapabilityAt(vs[5..], 5 * i);
        ShiftedRecord(vs, 5 * j, m);
      }
    }
  }

  lemma {:induction false} ReadHasEnd(count: nat, vs: seq<Item>, caps: seq<Capability>) returns (k: nat, m: nat)
    requires ReadCaps(count, vs, caps).Got?
    ensures EndsAt(count, vs, k, m)
    decreases count
  {
    if count == 0 {
      k, m := 0, 0;
    } else if |vs[1].bytes| != 16 {
      k, m := 0, 1;
    } else if |vs[2].bytes| != 16 {
      k, m := 0, 2;
    } else if |vs[3].bytes| != 16 {
      k, m := 0, 3;
    } else {
      assert RecordAt(vs, 0);
      k, m := ReadHasEnd(count - 1, vs[5..], [CapabilityAt(vs, 0)] + caps);
      k := k + 1;
      NextRecords(count, vs, k, m);
    }
  }

  /** And an entity is read exactly when its four leading values are there, its capabilities if it
      has any can be read, its end mark follows and its id has 16 bytes. */
  lemma EntityReadExactly(vs: seq<Item>, withCaps: bool)
    ensures ReadEntity(vs, withCaps).Got? <==>
      && |vs| >= 5 && vs[0] == Mark(0x00) && vs[1].Data? && vs[2].Data? && vs[3].Data? && |vs[1].bytes| == 16
      && (!withCaps ==> vs[4] == Mark(0x80))
      && (withCaps ==>
            && vs[4].Count? && ReadCaps(vs[4].n, vs[5..], []).Got?
            && ReadCaps(vs[4].n, vs[5..], []).rest != [] && ReadCaps(vs[4].n, vs[5..], []).rest[0] == Mark(0x80))
  {}

  /** What the parent accepts beyond that: the count and the capabilities it keeps agree exactly
      when no field on the way has a wrong size. */
  lemma {:induction false} KeptCapabilities(count: nat, vs: seq<Item>, caps: seq<Capability>)
    requires ReadCaps(count, vs, caps).Got?
    ensures |ReadCaps(count, vs, caps).value| == |caps| + count <==> AllSized(count, vs)
    ensures |caps| <= |ReadCaps(count, vs, caps).value| <= |caps| + count
    decreases count
  {
    if count > 0 && Sized(vs) {
      KeptCapabilities(count - 1, vs[5..], [Capability(vs[1].bytes, vs[2].bytes, vs[3].bytes)] + caps);
    }
  }

  /** The next record has three 16-byte fields. */
  predicate Sized(vs: seq<Item>) {
    |vs| >= 5 && forall i :: 1 <= i < 4 ==> vs[i].Data? && |vs[i].bytes| == 16
  }

  predicate AllSized(count: nat, vs: seq<Item>) {
    count == 0 || (Sized(vs) && AllSized(count - 1, vs[5..]))
  }
}
