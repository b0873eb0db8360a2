/** Identifiers, certificates and status codes shared by every service model. */
module Ids {

  datatype Option<+T> = None | Some(value: T)

  type byte = x: int | 0 <= x < 256

  /** A 16-byte UUID.  Only four things about it matter to the services: whether it is all
      zeroes, all 0xFF, the well-known root block id, or some other value. */
  datatype Uuid = Zero | Ones | Root | Id(n: nat)

  /** The two sentinel references of a database-backed list. */
  predicate Sentinel(u: Uuid) {
    u == Zero || u == Ones
  }

  /** The test of dataservice_api_node_ref_is_end. */
  predicate IsEnd(u: Uuid) {
    u == Ones
  }

  datatype TxnState = Unknown | Submitted | Attested | Canonized

  /** A transaction certificate: its bytes, and each field the parser finds in them. */
  datatype Certificate = Certificate(
    bytes: seq<byte>,
    id: Option<Uuid>,
    prev: Option<Uuid>,
    artifact: Option<Uuid>,
    state: Option<nat>)
  {
    predicate Complete() {
      id.Some? && prev.Some? && artifact.Some? && state.Some?
    }
  }

  const NO_CERTIFICATE := Certificate([], None, None, None, None)

  /** A block certificate as the data service parses it. */
  datatype BlockCert = BlockCert(
    id: Option<Uuid>,
    prev: Option<Uuid>,
    height: Option<nat>,
    prevSig: seq<byte>,
    certs: seq<Certificate>,
    sig: Option<seq<byte>>,
    signer: Option<seq<byte>>,
    validFrom: Option<nat>)

  datatype Status =
    | Success
    | NotFound
    | InvalidStoredNode
    | GetFailure
    | PutFailure
    | MissingBlockHeight
    | InvalidBlockHeight
    | MissingPreviousBlock
    | InvalidPreviousBlock
    | MissingBlockId
    | InvalidBlockId
    | NoChildTransactions
    | MissingChildId
    | MissingChildPrevious
    | MissingChildArtifact
    | MissingChildState
}
