/**
 * The small value records of the scrub interface: the operation priority,
 * the PG preconditions handed to a new scrub, the outcome of a scheduling
 * attempt and the reservation data that ties a replica's response to the
 * primary's request.
 */
module ScrubRecords {

  /** `scrub_prio_t`: an enumeration stored as a `bool`. */
  datatype ScrubPrio = LowPriority | HighPriority

  /** The `bool` a priority is stored as. */
  function PrioToBool(p: ScrubPrio): (b: bool)
    ensures b <==> p == HighPriority
  {
    match p
    case LowPriority => false
    case HighPriority => true
  }

  /** The priority a stored `bool` stands for. */
  function PrioFromBool(b: bool): (p: ScrubPrio)
    ensures p == HighPriority <==> b
  {
    if b then HighPriority else LowPriority
  }

  lemma PrioRoundTrip(p: ScrubPrio, b: bool)
    ensures PrioFromBool(PrioToBool(p)) == p
    ensures PrioToBool(PrioFromBool(b)) == b
  {
  }

  /** `act_token_t`: a 32-bit unsigned token naming one scrub activation. */
  type ActToken = t: nat | t < 0x1_0000_0000

  /** `ScrubPGPreconds`: the PG state that decides which scrubs may run. */
  datatype ScrubPGPreconds = ScrubPGPreconds(allowShallow: bool, allowDeep: bool, canAutorepair: bool)

  /** A default-initialised `ScrubPGPreconds`: both scrub kinds allowed, no auto-repair. */
  function DefaultPreconds(): (c: ScrubPGPreconds)
    ensures c.allowShallow && c.allowDeep
    ensures !c.canAutorepair
  {
    ScrubPGPreconds(true, true, false)
  }

  /** `schedule_result_t`: the outcome of trying to select a PG and scrub it. */
  datatype ScheduleResult =
    | ScrubInitiated          // a scrub was started
    | TargetSpecificFailure   // this target could not be scrubbed
    | OsdWideFailure          // no target can be scrubbed

  /**
   * `AsyncScrubResData`: what the primary sends with a reservation request and
   * uses to match the replica's response. The PG and shard identities are left
   * abstract; the epoch and the nonce are unsigned integers.
   */
  datatype AsyncScrubResData<PgId, Shard> = AsyncScrubResData(
    pgid: PgId,
    from: Shard,
    requestEpoch: nat,
    nonce: nat
  )

  /**
   * The C++ constructor `AsyncScrubResData(pgid, from, request_epoch, nonce)`,
   * whose initialiser list stores every argument unchanged.
   */
  function NewAsyncScrubResData<PgId, Shard>(pgid: PgId, from: Shard, requestEpoch: nat, nonce: nat)
    : (d: AsyncScrubResData<PgId, Shard>)
    ensures d.pgid == pgid && d.from == from
    ensures d.requestEpoch == requestEpoch && d.nonce == nonce
  {
    AsyncScrubResData(pgid, from, requestEpoch, nonce)
  }
}
