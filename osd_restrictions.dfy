/**
 * `Scrub::OSDRestrictions`: the per-tick environment conditions that limit
 * which scrubs may start, and their text rendering `<a.b.c.d.e>`, in which
 * each slot holds its fixed tag when the condition is set and is empty
 * otherwise. `Parse` reads a rendering back.
 */
module OsdRestrictions {
  import opened Wrappers
  import opened Strings

  datatype OSDRestrictions = OSDRestrictions(
    maxConcurrencyReached: bool,  // high local concurrency: only high-priority scrubs
    randomBackoffActive: bool,    // a dice roll decided not to scrub in this tick
    cpuOverloaded: bool,          // high CPU load: no regular scrubs
    restrictedTime: bool,         // outside the allowed scrubbing hours/days
    recoveryInProgress: bool      // recovering, and scrubbing during recovery is off
  )

  /** The slot tags, in rendering order. */
  const MAX_SCRUBS_TAG := "max-scrubs"
  const BACKOFF_TAG := "backoff"
  const HIGH_LOAD_TAG := "high-load"
  const TIME_RESTRICT_TAG := "time-restrict"
  const RECOVERY_TAG := "recovery"

  /** The flags of `r`, in declaration order. */
  function Flags(r: OSDRestrictions): seq<bool>
  {
    [r.maxConcurrencyReached, r.randomBackoffActive, r.cpuOverloaded,
     r.restrictedTime, r.recoveryInProgress]
  }

  function Tags(): seq<string>
  {
    [MAX_SCRUBS_TAG, BACKOFF_TAG, HIGH_LOAD_TAG, TIME_RESTRICT_TAG, RECOVERY_TAG]
  }

  /** A default-initialised `OSDRestrictions`: no condition is set. */
  function Default(): (r: OSDRestrictions)
    ensures forall i :: 0 <= i < |Flags(r)| ==> !Flags(r)[i]
    ensures Format(r) == "<....>"
  {
    OSDRestrictions(false, false, false, false, false)
  }

  /** One slot of the rendering: the tag when the flag is set, else nothing. */
  function SlotText(flag: bool, tag: string): string
  {
    if flag then tag else ""
  }

  /**
   * The formatter of `OSDRestrictions`: the five slots, in declaration order,
   * joined by '.' between '<' and '>'.
   */
  function Format(r: OSDRestrictions): (s: string)
    ensures s == "<" + Join(Slots(r), '.') + ">"
  {
    BracketedJoinFive('<', SlotText(r.maxConcurrencyReached, MAX_SCRUBS_TAG),
      SlotText(r.randomBackoffActive, BACKOFF_TAG), SlotText(r.cpuOverloaded, HIGH_LOAD_TAG),
      SlotText(r.restrictedTime, TIME_RESTRICT_TAG), SlotText(r.recoveryInProgress, RECOVERY_TAG),
      '.', '>');
    "<" + SlotText(r.maxConcurrencyReached, MAX_SCRUBS_TAG)
      + "." + SlotText(r.randomBackoffActive, BACKOFF_TAG)
      + "." + SlotText(r.cpuOverloaded, HIGH_LOAD_TAG)
      + "." + SlotText(r.restrictedTime, TIME_RESTRICT_TAG)
      + "." + SlotText(r.recoveryInProgress, RECOVERY_TAG)
      + ">"
  }

  /** The five slots of the rendering of `r`. */
  function Slots(r: OSDRestrictions): seq<string>
  {
    [SlotText(r.maxConcurrencyReached, MAX_SCRUBS_TAG),
     SlotText(r.randomBackoffActive, BACKOFF_TAG),
     SlotText(r.cpuOverloaded, HIGH_LOAD_TAG),
     SlotText(r.restrictedTime, TIME_RESTRICT_TAG),
     SlotText(r.recoveryInProgress, RECOVERY_TAG)]
  }

  /** The text between the first and the last character (empty when there is none). */
  function Inner(s: string): string
  {
    if |s| < 2 then "" else s[1..|s| - 1]
  }

  /** Reads one slot back: its tag means set, an empty slot means clear. */
  function ReadSlot(slot: string, tag: string): Option<bool>
  {
    if slot == tag then Some(true)
    else if slot == "" then Some(false)
    else None
  }

  /** Reads five slots back into the flags they show, if each is its tag or empty. */
  function ParseSlots(slots: seq<string>): Option<OSDRestrictions>
  {
    if |slots| != 5 then None
    else
      match (ReadSlot(slots[0], MAX_SCRUBS_TAG), ReadSlot(slots[1], BACKOFF_TAG),
             ReadSlot(slots[2], HIGH_LOAD_TAG), ReadSlot(slots[3], TIME_RESTRICT_TAG),
             ReadSlot(slots[4], RECOVERY_TAG))
      case (Some(a), Some(b), Some(c), Some(d), Some(e)) =>
        Some(OSDRestrictions(a, b, c, d, e))
      case _ => None
  }

  /** Reads a rendering back into the flags it shows, if it is one. */
  function Parse(s: string): Option<OSDRestrictions>
  {
    if |s| < 2 || s[0] != '<' || s[|s| - 1] != '>' then None
    else ParseSlots(Split(Inner(s), '.'))
  }

  /** Splitting the text between the brackets on '.' gives back the five slots. */
  lemma FormatSlots(r: OSDRestrictions)
    ensures Split(Inner(Format(r)), '.') == Slots(r)
  {
    FormatInner(r);
    SlotsHaveNoDot(r);
    SplitJoin(Slots(r), '.');
  }

  /** The text between the brackets of a rendering is its slots joined by dots. */
  lemma FormatInner(r: OSDRestrictions)
    ensures |Format(r)| >= 2 && Inner(Format(r)) == Join(Slots(r), '.')
  {
    Unbracket('<', Join(Slots(r), '.'), '>');
  }

  /** No slot contains the '.' separator. */
  lemma SlotsHaveNoDot(r: OSDRestrictions)
    ensures forall i :: 0 <= i < |Slots(r)| ==> '.' !in Slots(r)[i]
  {
  }

  /**
   * Splitting the text between the brackets on '.' gives five slots; slot i
   * is tag i exactly when flag i is set and empty exactly when it is clear.
   */
  lemma SlotOfFormat(r: OSDRestrictions, i: nat)
    requires i < 5
    ensures |Split(Inner(Format(r)), '.')| == 5
    ensures Split(Inner(Format(r)), '.')[i] == Tags()[i] <==> Flags(r)[i]
    ensures Split(Inner(Format(r)), '.')[i] == "" <==> !Flags(r)[i]
  {
    FormatSlots(r);
  }

  /** Each slot is read back as the flag it was rendered from. */
  lemma ParseSlotsOfSlots(r: OSDRestrictions)
    ensures ParseSlots(Slots(r)) == Some(r)
  {
  }

  /** Slots that are read back are exactly the slots of what they are read as. */
  lemma SlotsOfParseSlots(slots: seq<string>, r: OSDRestrictions)
    requires ParseSlots(slots) == Some(r)
    ensures slots == Slots(r)
  {
  }

  /**
   * A rendering starts with '<', ends with '>' and holds exactly four '.'
   * separators.
   */
  lemma FormatShape(r: OSDRestrictions)
    ensures |Format(r)| >= 2 && Format(r)[0] == '<' && Format(r)[|Format(r)| - 1] == '>'
    ensures multiset(Format(r))['.'] == 4
  {
    Unbracket('<', Join(Slots(r), '.'), '>');
    FormatSlots(r);
    SplitCount(Inner(Format(r)), '.');
  }

  /** Parsing a rendering gives back the flags it was made from. */
  lemma ParseFormat(r: OSDRestrictions)
    ensures Parse(Format(r)) == Some(r)
  {
    FormatShape(r);
    FormatSlots(r);
    ParseSlotsOfSlots(r);
  }

  /** Every text that parses is exactly the rendering of what it parses to. */
  lemma FormatParse(s: string, r: OSDRestrictions)
    requires Parse(s) == Some(r)
    ensures Format(r) == s
  {
    var inner := Inner(s);
    SlotsOfParseSlots(Split(inner, '.'), r);
    assert Join(Slots(r), '.') == inner;
    Rebracket(s);
  }

  /** Distinct restrictions render differently. */
  lemma FormatInjective(a: OSDRestrictions, b: OSDRestrictions)
    requires Format(a) == Format(b)
    ensures a == b
  {
    ParseFormat(a);
    ParseFormat(b);
  }
}
