/** The block certificate builder: the size computed ahead of time, the fields that are added,
    and what a parser finds in them. */
module BlockBuilder {
  import opened Ids
  import opened Ledger

  datatype Tag =
    | CertificateVersion
    | ValidFrom
    | CryptoSuite
    | CertificateType
    | BlockUuid
    | PreviousBlockUuid
    | PreviousBlockHash
    | BlockHeight
    | WrappedTransaction
    | SignerId
    | Signature

  datatype Value =
    | U16(n: nat)
    | U32(n: nat)
    | U64(n: nat)
    | Uid(id: Uuid)
    | Raw(bytes: seq<byte>)
    | Wrapped(cert: Certificate)

  datatype Field = Field(tag: Tag, value: Value)

  const FIELD_TYPE_SIZE := 2
  const FIELD_SIZE_SIZE := 2

  function Width(v: Value): nat {
    match v
    case U16(_) => 2
    case U32(_) => 4
    case U64(_) => 8
    case Uid(_) => 16
    case Raw(bytes) => |bytes|
    case Wrapped(cert) => |cert.bytes|
  }

  function FieldSize(f: Field): nat {
    FIELD_TYPE_SIZE + FIELD_SIZE_SIZE + Width(f.value)
  }

  /** The bytes a list of fields takes. */
  function TotalSize(fields: seq<Field>): nat {
    if fields == [] then 0 else TotalSize(fields[..|fields| - 1]) + FieldSize(fields[|fields| - 1])
  }

  /** The bytes the certificates of a block take. */
  function CertBytes(certs: seq<Certificate>): nat {
    if certs == [] then 0
    else CertBytes(certs[..|certs| - 1]) + FIELD_TYPE_SIZE + FIELD_SIZE_SIZE + |certs[|certs| - 1].bytes|
  }

  lemma CertBytesNext(certs: seq<Certificate>, i: nat)
    requires i < |certs|
    ensures CertBytes(certs[..i + 1]) == CertBytes(certs[..i]) + FIELD_TYPE_SIZE + FIELD_SIZE_SIZE + |certs[i].bytes|
  {
    assert certs[..i + 1][..i] == certs[..i];
  }

  // ---------- parsing ----------

  /** The first field with a tag. */
  function Find(fields: seq<Field>, tag: Tag): Option<Value> {
    if fields == [] then None
    else if fields[0].tag == tag then Some(fields[0].value)
    else Find(fields[1..], tag)
  }

  function WrappedCerts(fields: seq<Field>): seq<Certificate> {
    if fields == [] then []
    else
      (if fields[0].tag == WrappedTransaction && fields[0].value.Wrapped? then [fields[0].value.cert] else [])
        + WrappedCerts(fields[1..])
  }

  function AsUuid(v: Option<Value>): Option<Uuid> {
    if v.Some? && v.value.Uid? then Some(v.value.id) else None
  }

  function AsNumber(v: Option<Value>): Option<nat> {
    if v.Some? && v.value.U64? then Some(v.value.n) else None
  }

  function AsBytes(v: Option<Value>): Option<seq<byte>> {
    if v.Some? && v.value.Raw? then Some(v.value.bytes) else None
  }

  /** The block certificate a parser reads from a list of fields. */
  function Parsed(fields: seq<Field>): BlockCert {
    var prevSig := AsBytes(Find(fields, PreviousBlockHash));
    BlockCert(
      AsUuid(Find(fields, BlockUuid)),
      AsUuid(Find(fields, PreviousBlockUuid)),
      AsNumber(Find(fields, BlockHeight)),
      if prevSig.Some? then prevSig.value else [],
      WrappedCerts(fields),
      AsBytes(Find(fields, Signature)),
      AsBytes(Find(fields, SignerId)),
      AsNumber(Find(fields, ValidFrom)))
  }

  lemma {:induction false} FindAt(fields: seq<Field>, k: nat, tag: Tag)
    requires k < |fields| && fields[k].tag == tag
    requires forall i :: 0 <= i < k ==> fields[i].tag != tag
    ensures Find(fields, tag) == Some(fields[k].value)
  {
    if k > 0 {
      FindAt(fields[1..], k - 1, tag);
    }
  }

  /** Certificates are read back from a run of wrapped transactions, and from nothing else. */
  lemma {:induction false} WrappedRange(fields: seq<Field>, from: nat, certs: seq<Certificate>)
    requires from + |certs| <= |fields|
    requires forall i :: 0 <= i < |certs| ==> fields[from + i] == Field(WrappedTransaction, Wrapped(certs[i]))
    requires forall i :: 0 <= i < |fields| && !(from <= i < from + |certs|) ==> fields[i].tag != WrappedTransaction
    ensures WrappedCerts(fields) == certs
  {
    if fields != [] {
      if from > 0 {
        WrappedRange(fields[1..], from - 1, certs);
      } else if certs != [] {
        assert fields[0 + 0] == Field(WrappedTransaction, Wrapped(certs[0]));
        assert forall i :: 0 <= i < |certs| - 1 ==>
          fields[1..][0 + i] == fields[0 + (i + 1)] && certs[1..][i] == certs[i + 1];
        WrappedRange(fields[1..], 0, certs[1..]);
      } else {
        WrappedRange(fields[1..], 0, []);
      }
    }
  }

  // ---------- building ----------

  /** A builder holds the fields added so far in a buffer of fixed size. */
  datatype Builder = Builder(capacity: nat, used: nat, fields: seq<Field>)
  {
    ghost predicate Valid() {
      used == TotalSize(fields) && used <= capacity
    }
  }

  /** Adding a field fails when the buffer has no room left for it. */
  method Add(b: Builder, f: Field) returns (r: Option<Builder>)
    requires b.Valid()
    ensures r.Some? <==> b.used + FieldSize(f) <= b.capacity
    ensures r.Some? ==> r.value.Valid() && r.value == Builder(b.capacity, b.used + FieldSize(f), b.fields + [f])
  {
    if b.used + FieldSize(f) > b.capacity {
      return None;
    }
    assert (b.fields + [f])[..|b.fields|] == b.fields;
    return Some(Builder(b.capacity, b.used + FieldSize(f), b.fields + [f]));
  }

  /** The size of everything but the wrapped transactions. */
  function HeaderSize(signatureSize: nat): nat {
    10 * (FIELD_TYPE_SIZE + FIELD_SIZE_SIZE) + 4 + 8 + 2 + 16 + 16 + 16 + signatureSize + 8 + 16 + signatureSize
  }

  /** The size loop of block make. */
  method BlockSize(certs: seq<Certificate>, signatureSize: nat) returns (size: nat)
    ensures size == HeaderSize(signatureSize) + CertBytes(certs)
  {
    size := (FIELD_TYPE_SIZE + FIELD_SIZE_SIZE + 4)
          + (FIELD_TYPE_SIZE + FIELD_SIZE_SIZE + 8)
          + (FIELD_TYPE_SIZE + FIELD_SIZE_SIZE + 2)
          + (FIELD_TYPE_SIZE + FIELD_SIZE_SIZE + 16)
          + (FIELD_TYPE_SIZE + FIELD_SIZE_SIZE + 16)
          + (FIELD_TYPE_SIZE + FIELD_SIZE_SIZE + 16)
          + (FIELD_TYPE_SIZE + FIELD_SIZE_SIZE + signatureSize)
          + (FIELD_TYPE_SIZE + FIELD_SIZE_SIZE + 8)
          + (FIELD_TYPE_SIZE + FIELD_SIZE_SIZE + 16)
          + (FIELD_TYPE_SIZE + FIELD_SIZE_SIZE + signatureSize);
    var i := 0;
    while i < |certs|
      invariant 0 <= i <= |certs|
      invariant size == HeaderSize(signatureSize) + CertBytes(certs[..i])
    {
      CertBytesNext(certs, i);
      size := size + FIELD_TYPE_SIZE + FIELD_SIZE_SIZE + |certs[i].bytes|;
      i := i + 1;
    }
    assert certs[..i] == certs;
  }

  const BLOCK_CERTIFICATE := Id(0)

  function Header(timestamp: nat, id: Uuid, prev: Uuid, prevSig: seq<byte>, height: nat): seq<Field> {
    [Field(CertificateVersion, U32(0x0001_0000)),
     Field(ValidFrom, U64(timestamp)),
     Field(CryptoSuite, U16(0x0001)),
     Field(CertificateType, Uid(BLOCK_CERTIFICATE)),
     Field(BlockUuid, Uid(id)),
     Field(PreviousBlockUuid, Uid(prev)),
     Field(PreviousBlockHash, Raw(prevSig)),
     Field(BlockHeight, U64(height))]
  }

  /** The header fields fit in any buffer of at least the precomputed size. */
  method AddHeader(capacity: nat, timestamp: nat, id: Uuid, prev: Uuid, prevSig: seq<byte>, height: nat)
    returns (b: Option<Builder>)
    requires capacity >= HeaderSize(|prevSig|)
    ensures b.Some? && b.value.Valid() && b.value.capacity == capacity
    ensures b.value.used + 24 + |prevSig| == HeaderSize(|prevSig|)
    ensures b.value.fields == Header(timestamp, id, prev, prevSig, height)
  {
    b := Add(Builder(capacity, 0, []), Field(CertificateVersion, U32(0x0001_0000)));
    b := Add(b.value, Field(ValidFrom, U64(timestamp)));
    b := Add(b.value, Field(CryptoSuite, U16(0x0001)));
    b := Add(b.value, Field(CertificateType, Uid(BLOCK_CERTIFICATE)));
    b := Add(b.value, Field(BlockUuid, Uid(id)));
    b := Add(b.value, Field(PreviousBlockUuid, Uid(prev)));
    b := Add(b.value, Field(PreviousBlockHash, Raw(prevSig)));
    b := Add(b.value, Field(BlockHeight, U64(height)));
  }

  /** The header, then one wrapped transaction per certificate. */
  ghost predicate Body(fields: seq<Field>, header: seq<Field>, certs: seq<Certificate>) {
    && |fields| == |header| + |certs|
    && fields[..|header|] == header
    && forall i :: 0 <= i < |certs| ==> fields[|header| + i] == Field(WrappedTransaction, Wrapped(certs[i]))
  }

  /** The loop over the certificates; there is room for them. */
  method AddCertificates(header: Builder, certs: seq<Certificate>) returns (b: Option<Builder>)
    requires header.Valid() && header.used + CertBytes(certs) <= header.capacity
    ensures b.Some? && b.value.Valid() && b.value.capacity == header.capacity
    ensures b.value.used == header.used + CertBytes(certs)
    ensures Body(b.value.fields, header.fields, certs)
  {
    b := Some(header);
    var i := 0;
    while i < |certs|
      invariant 0 <= i <= |certs|
      invariant b.Some? && b.value.Valid() && b.value.capacity == header.capacity
      invariant b.value.used == header.used + CertBytes(certs[..i])
      invariant Body(b.value.fields, header.fields, certs[..i])
    {
      CertBytesNext(certs, i);
      CertBytesMonotonic(certs, i + 1);
      b := Add(b.value, Field(WrappedTransaction, Wrapped(certs[i])));
      i := i + 1;
    }
    assert certs[..i] == certs;
  }

  /** Building a block never runs out of the space reserved for it, fills that space exactly, and
      a parser reads back the id, the two links, the height, the certificates in order, the signer,
      the time and the signature, which comes last, as well as version, suite and type.  The
      signature suite's size and the stored previous signature must agree. */
  method Build(certs: seq<Certificate>, timestamp: nat, id: Uuid, prev: Uuid, prevSig: seq<byte>, height: nat,
               signer: seq<byte>, sig: seq<byte>)
    returns (b: Option<Builder>)
    requires |sig| == |prevSig| && |signer| == 16
    ensures b.Some?
    ensures TotalSize(b.value.fields) == b.value.capacity == HeaderSize(|sig|) + CertBytes(certs)
    ensures Parsed(b.value.fields)
         == BlockCert(Some(id), Some(prev), Some(height), prevSig, certs, Some(sig), Some(signer), Some(timestamp))
    ensures Find(b.value.fields, CertificateVersion) == Some(U32(0x0001_0000))
    ensures Find(b.value.fields, ValidFrom) == Some(U64(timestamp))
    ensures Find(b.value.fields, CryptoSuite) == Some(U16(0x0001))
    ensures Find(b.value.fields, CertificateType) == Some(Uid(BLOCK_CERTIFICATE))
    ensures Find(b.value.fields, SignerId) == Some(Raw(signer))
    ensures |b.value.fields| == 10 + |certs| && b.value.fields[9 + |certs|] == Field(Signature, Raw(sig))
  {
    var size := BlockSize(certs, |sig|);
    b := AddHeader(size, timestamp, id, prev, prevSig, height);
    b := AddCertificates(b.value, certs);
    ghost var body := b.value.fields;
    b := Add(b.value, Field(SignerId, Raw(signer)));
    b := Add(b.value, Field(Signature, Raw(sig)));
    assert b.value.fields == body + [Field(SignerId, Raw(signer)), Field(Signature, Raw(sig))];
    ParsedBlock(body, certs, timestamp, id, prev, prevSig, height, signer, sig);
  }

  lemma ParsedBlock(body: seq<Field>, certs: seq<Certificate>, timestamp: nat, id: Uuid, prev: Uuid,
                    prevSig: seq<byte>, height: nat, signer: seq<byte>, sig: seq<byte>)
    requires Body(body, Header(timestamp, id, prev, prevSig, height), certs)
    ensures var fields := body + [Field(SignerId, Raw(signer)), Field(Signature, Raw(sig))];
      && Parsed(fields)
           == BlockCert(Some(id), Some(prev), Some(height), prevSig, certs, Some(sig), Some(signer), Some(timestamp))
      && Find(fields, CertificateVersion) == Some(U32(0x0001_0000))
      && Find(fields, ValidFrom) == Some(U64(timestamp))
      && Find(fields, CryptoSuite) == Some(U16(0x0001))
      && Find(fields, CertificateType) == Some(Uid(BLOCK_CERTIFICATE))
      && Find(fields, SignerId) == Some(Raw(signer))
  {
    var fields := body + [Field(SignerId, Raw(signer)), Field(Signature, Raw(sig))];
    var header := Header(timestamp, id, prev, prevSig, height);
    BlockFields(body, certs, header, fields);
    LeadingFound(fields, timestamp, id, prev, prevSig, height);
    LinksFound(fields, timestamp, id, prev, prevSig, height);
    TailFound(fields, header, certs, signer, sig);
  }

  lemma LeadingFound(fields: seq<Field>, timestamp: nat, id: Uuid, prev: Uuid, prevSig: seq<byte>, height: nat)
    requires |fields| >= 8 && fields[..8] == Header(timestamp, id, prev, prevSig, height)
    ensures Find(fields, CertificateVersion) == Some(U32(0x0001_0000))
    ensures Find(fields, ValidFrom) == Some(U64(timestamp))
    ensures Find(fields, CryptoSuite) == Some(U16(0x0001))
    ensures Find(fields, CertificateType) == Some(Uid(BLOCK_CERTIFICATE))
  {
    var header := Header(timestamp, id, prev, prevSig, height);
    HeaderFound(fields, header, 0, CertificateVersion);
    HeaderFound(fields, header, 1, ValidFrom);
    HeaderFound(fields, header, 2, CryptoSuite);
    HeaderFound(fields, header, 3, CertificateType);
  }

  lemma LinksFound(fields: seq<Field>, timestamp: nat, id: Uuid, prev: Uuid, prevSig: seq<byte>, height: nat)
    requires |fields| >= 8 && fields[..8] == Header(timestamp, id, prev, prevSig, height)
    ensures Find(fields, BlockUuid) == Some(Uid(id)) && Find(fields, PreviousBlockUuid) == Some(Uid(prev))
    ensures Find(fields, PreviousBlockHash) == Some(Raw(prevSig)) && Find(fields, BlockHeight) == Some(U64(height))
  {
    var header := Header(timestamp, id, prev, prevSig, height);
    HeaderFound(fields, header, 4, BlockUuid);
    HeaderFound(fields, header, 5, PreviousBlockUuid);
    HeaderFound(fields, header, 6, PreviousBlockHash);
    HeaderFound(fields, header, 7, BlockHeight);
  }

  lemma HeaderFound(fields: seq<Field>, header: seq<Field>, k: nat, tag: Tag)
    requires k < 8 == |header| <= |fields| && fields[..8] == header && header[k].tag == tag
    requires forall i :: 0 <= i < k ==> header[i].tag != tag
    ensures Find(fields, tag) == Some(header[k].value)
  {
    assert forall i :: 0 <= i < 8 ==> fields[i] == header[i];
    FindAt(fields, k, tag);
  }

  lemma TailFound(fields: seq<Field>, header: seq<Field>, certs: seq<Certificate>, signer: seq<byte>, sig: seq<byte>)
    requires |header| == 8 && |fields| == 10 + |certs| && fields[..8] == header
    requires forall i :: 0 <= i < 8 ==>
      header[i].tag != SignerId && header[i].tag != Signature && header[i].tag != WrappedTransaction
    requires forall i :: 0 <= i < |certs| ==> fields[8 + i] == Field(WrappedTransaction, Wrapped(certs[i]))
    requires fields[8 + |certs|] == Field(SignerId, Raw(signer)) && fields[9 + |certs|] == Field(Signature, Raw(sig))
    ensures Find(fields, SignerId) == Some(Raw(signer)) && Find(fields, Signature) == Some(Raw(sig))
    ensures WrappedCerts(fields) == certs
  {
    assert forall i :: 0 <= i < 8 ==> fields[i] == header[i];
    forall i | 8 <= i < 8 + |certs| ensures fields[i].tag == WrappedTransaction {
      var j := i - 8;
      assert fields[8 + j] == Field(WrappedTransaction, Wrapped(certs[j]));
    }
    FindAt(fields, 8 + |certs|, SignerId);
    FindAt(fields, 9 + |certs|, Signature);
    WrappedRange(fields, 8, certs);
  }

  lemma BlockFields(body: seq<Field>, certs: seq<Certificate>, header: seq<Field>, fields: seq<Field>)
    requires |header| == 8 && Body(body, header, certs)
    requires |fields| == |body| + 2 && fields[..|body|] == body
    ensures fields[..8] == header
    ensures forall i :: 0 <= i < |certs| ==> fields[8 + i] == Field(WrappedTransaction, Wrapped(certs[i]))
  {
    assert fields[..8] == body[..8];
    forall i | 0 <= i < |certs| ensures fields[8 + i] == Field(WrappedTransaction, Wrapped(certs[i])) {
      assert fields[8 + i] == body[|header| + i];
    }
  }

  lemma {:induction false} CertBytesMonotonic(certs: seq<Certificate>, i: nat)
    requires i <= |certs|
    ensures CertBytes(certs[..i]) <= CertBytes(certs)
    decreases |certs| - i
  {
    if i == |certs| {
      assert certs[..i] == certs;
    } else {
      CertBytesNext(certs, i);
      CertBytesMonotonic(certs, i + 1);
    }
  }
}
