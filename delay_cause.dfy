/**
 * `Scrub::delay_cause_t`: the outcome of the last attempt to schedule a scrub
 * of a PG, either `none` (the attempt succeeded) or one of nine causes of
 * deferral, and the short description its formatter prints.
 */
module DelayCause {
  // Imported qualified: the enumerator `None` keeps the source's name and
  // would otherwise clash with `Wrappers.None`.
  import Wrappers

  datatype DelayCause =
    | None            // the scrub attempt was successful
    | Replicas        // failed to reserve the replicas
    | Flags           // noscrub or nodeep-scrub is set
    | PgState         // the PG is not active+clean
    | SnapTrimming    // snap-trimming is in progress
    | RestrictedTime  // time restrictions or a busy CPU
    | LocalResources  // too many PGs are scrubbing
    | Aborted         // the scrub was aborted for an unspecified reason
    | Interval        // the interval ended mid-scrub
    | ScrubParams     // the requested scrub type is not allowed

  /** The formatter of `delay_cause_t`: one short, non-empty description per cause. */
  function Description(cause: DelayCause): (desc: string)
    ensures desc != ""
    ensures desc == "ok" <==> cause == None
  {
    match cause
    case None => "ok"
    case Replicas => "replicas"
    case Flags => "noscrub"
    case PgState => "pg-state"
    case SnapTrimming => "snap-trim"
    case RestrictedTime => "time/load"
    case LocalResources => "local-cnt"
    case Aborted => "aborted"
    case Interval => "interval"
    case ScrubParams => "scrub-mode"
  }

  /** The cause a description was printed for, if it is one. */
  function CauseOf(desc: string): (cause: Wrappers.Option<DelayCause>)
  {
    if desc == "ok" then Wrappers.Some(None)
    else if desc == "replicas" then Wrappers.Some(Replicas)
    else if desc == "noscrub" then Wrappers.Some(Flags)
    else if desc == "pg-state" then Wrappers.Some(PgState)
    else if desc == "snap-trim" then Wrappers.Some(SnapTrimming)
    else if desc == "time/load" then Wrappers.Some(RestrictedTime)
    else if desc == "local-cnt" then Wrappers.Some(LocalResources)
    else if desc == "aborted" then Wrappers.Some(Aborted)
    else if desc == "interval" then Wrappers.Some(Interval)
    else if desc == "scrub-mode" then Wrappers.Some(ScrubParams)
    else Wrappers.None
  }

  /** A description reads back as the cause it describes. */
  lemma CauseOfDescription(cause: DelayCause)
    ensures CauseOf(Description(cause)) == Wrappers.Some(cause)
  {
  }

  /** A text that reads back as a cause is that cause's description. */
  lemma DescriptionOfCause(desc: string, cause: DelayCause)
    requires CauseOf(desc) == Wrappers.Some(cause)
    ensures Description(cause) == desc
  {
  }

  /** Distinct causes are described differently. */
  lemma DescriptionInjective(a: DelayCause, b: DelayCause)
    requires Description(a) == Description(b)
    ensures a == b
  {
  }
}
