/** Values shared by every stage of the benchmark: endpoint roles, timestamps, slot
    stages, and the typed events that travel from the receivers to the matchers. */
module Types {

  const U64_SIZE: int := 0x1_0000_0000_0000_0000
  const I64_MAX: int := 0x7FFF_FFFF_FFFF_FFFF

  type U64 = x: nat | x < U64_SIZE

  /** 32-byte pubkey, owner or blockhash. Only its identity matters here. */
  datatype Pubkey32 = Pubkey32(bytes: seq<bv8>)

  /** 64-byte transaction signature. */
  datatype Signature64 = Signature64(bytes: seq<bv8>)

  datatype Option<+T> = None | Some(value: T)

  datatype EndpointRole = One | Two {
    function Other(): (r: EndpointRole)
      ensures r != this
    {
      if this == One then Two else One
    }
  }

  datatype Timestamp = Timestamp(monoNs: U64, wallMs: U64)

  datatype Commitment = Processed | Confirmed | Finalized

  datatype SlotStage =
    | StageFirstShredReceived | StageCompleted | StageCreatedBank
    | StageProcessed | StageConfirmed | StageFinalized | StageDead

  datatype MainStream = Slots | Accounts | Transactions | Blocks

  datatype SubscriptionRole =
    | Main(ep: EndpointRole, commitment: Commitment, stream: MainStream)
    | Entries(ep: EndpointRole)

  datatype Payload =
    | SlotUpdate(slot: U64, stage: SlotStage)
    | AccountUpdate(slot: U64, pubkey: Pubkey32, owner: Pubkey32, writeVersion: U64,
                    txnSignature: Option<Signature64>)
    | TransactionUpdate(slot: U64, signature: Signature64)
    | BlockUpdate(slot: U64, blockhash: Pubkey32)
    | EntryUpdate(slot: U64, index: U64)

  datatype Event = Event(ts: Timestamp, subscription: SubscriptionRole, payload: Payload)

  /** The reading fits the signed range: the host has been up for less than 292 years. */
  predicate Readable(ts: Timestamp) {
    ts.monoNs < 0x8000_0000_0000_0000
  }

  /** A nanosecond reading as the code converts it before subtracting. */
  function ClampI64(x: U64): (r: int)
    ensures 0 <= r <= I64_MAX
    ensures x <= I64_MAX ==> r == x
    ensures x > I64_MAX ==> r == I64_MAX
  {
    if x > I64_MAX then I64_MAX else x
  }

  /** `to - from` in nanoseconds, exactly for readings below 2^63; a later reading counts as
      2^63 - 1. The bounds say that the machine subtraction never leaves the signed 64-bit
      range. */
  function DeltaNs(from: Timestamp, to: Timestamp): (d: int)
    ensures -I64_MAX <= d <= I64_MAX
    ensures Readable(from) && Readable(to) ==> d == to.monoNs - from.monoNs
    ensures Readable(from) && !Readable(to) ==> d == I64_MAX - from.monoNs
    ensures !Readable(from) && Readable(to) ==> d == to.monoNs - I64_MAX
    ensures !Readable(from) && !Readable(to) ==> d == 0
  {
    ClampI64(to.monoNs) - ClampI64(from.monoNs)
  }

  function Max(a: int, b: int): (m: int)
    ensures m >= a && m >= b && (m == a || m == b)
  {
    if a > b then a else b
  }

  function SaturatingSub(a: nat, b: nat): (d: nat)
    ensures a >= b ==> d + b == a
    ensures a < b ==> d == 0
  {
    if a > b then a - b else 0
  }
}
