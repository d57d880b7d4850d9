# Scrub scheduling value types

This project models the value types of the scrub interface of a Ceph OSD
(`src/osd/scrubber_common.h`) and proves what they promise:

- `scrub_schedule_t` (module `ScrubSchedule`): the intended scrub time
  (`scheduled_at`) and the earliest start (`not_before`), both `utime_t::max()`
  by default. `operator<=>` ranks schedules by `scheduled_at` alone.
  The defaulted `operator==` compares both fields. So two schedules can be
  equivalent without being equal.
- `OSDRestrictions` (module `OsdRestrictions`): five per-tick conditions, all
  clear by default, and their formatter `<a.b.c.d.e>`. Each slot holds a fixed
  tag when its flag is set and is empty otherwise. `Parse` reads a rendering
  back. The two are proved to be inverse in both directions, so the rendering
  is injective.
- `delay_cause_t` (module `DelayCause`): the outcome of the last scheduling
  attempt, either `none` (success) or one of nine causes of deferral, and the
  formatter's short descriptions. `CauseOf` inverts the description,
  which makes it injective.
- `scrub_prio_t`, `ScrubPGPreconds`, `schedule_result_t`, `act_token_t` and
  `AsyncScrubResData` (module `ScrubRecords`).

Two helper modules support these: `Time` and `Strings`. `Time` stands in for
`utime_t`, which is not part of this model. It is a (seconds, nanoseconds)
pair with 32-bit seconds and nanoseconds below 10^9. Its three-way comparison
is lexicographic, and its maximum is (2^32 - 1, 999999999). The comparison is
proved to agree with the total nanosecond count. `Strings` splits a string on
a separator and joins the parts back, with the round trip proved.

Everything is modelled as datatypes, functions and lemmas. The modelled part
of the header is made of value structs, a one-expression comparison, a
defaulted equality, a `switch` and string assembly from ternaries. It has no
mutable state and no loops.

## Model

| member | source | states |
|---|---|---|
| ScrubSchedule.Default | src/osd/scrubber_common.h:130-148 | a default schedule has `not_before` and `scheduled_at` both at `utime_t::max()` |
| ScrubSchedule.DefaultRanksLast | src/osd/scrubber_common.h:135-155 | every schedule is `<=` a default one, because no time comes after `utime_t::max()` |
| ScrubSchedule.Compare | src/osd/scrubber_common.h:150-155 | `<=>` answers less (greater) exactly when `a.scheduled_at` is earlier (later) than `b.scheduled_at` in nanoseconds, equivalent exactly when the two `scheduled_at` are the same, and never unordered |
| ScrubSchedule.Equal | src/osd/scrubber_common.h:157 | the defaulted `==` holds exactly when both fields are the same |
| ScrubSchedule.Lt | src/osd/scrubber_common.h:150-155 | `a < b`, rewritten through `<=>`, holds exactly when `a.scheduled_at` is earlier in nanoseconds |
| ScrubSchedule.Le | src/osd/scrubber_common.h:150-155 | `a <= b`, rewritten through `<=>`, holds exactly when `a.scheduled_at` is not later in nanoseconds |
| ScrubSchedule.Gt | src/osd/scrubber_common.h:150-155 | `a > b`, rewritten through `<=>`, holds exactly when `a.scheduled_at` is later in nanoseconds |
| ScrubSchedule.Ge | src/osd/scrubber_common.h:150-155 | `a >= b`, rewritten through `<=>`, holds exactly when `a.scheduled_at` is not earlier in nanoseconds |
| ScrubSchedule.CompareIgnoresNotBefore | src/osd/scrubber_common.h:150-155 | replacing the `not_before` of either operand leaves `<=>` unchanged |
| ScrubSchedule.EqualImpliesEquivalent | src/osd/scrubber_common.h:150-157 | schedules that are `==` are equivalent under `<=>` |
| ScrubSchedule.EquivalentButNotEqual | src/osd/scrubber_common.h:150-157 | any two schedules with the same `scheduled_at` and different `not_before` are equivalent under `<=>` yet not `==` |
| ScrubSchedule.CompareIsAntisymmetric | src/osd/scrubber_common.h:150-155 | swapping the operands turns less into greater, `<` into `>` and `<=` into `>=` |
| ScrubSchedule.LeIsTotalPreorder | src/osd/scrubber_common.h:150-155 | `<=` on schedules is reflexive, transitive and total |
| ScrubSchedule.LtIsStrict | src/osd/scrubber_common.h:150-155 | `<` on schedules is irreflexive and transitive |
| Time.Compare | src/osd/scrubber_common.h:154 | the `utime_t` comparison the ordering delegates to answers less or greater exactly as the nanosecond counts compare, equivalent only on equal times, and never unordered |
| Time.MaxIsGreatest | src/osd/scrubber_common.h:135 | no time compares after `utime_t::max()` |
| OsdRestrictions.Default | src/osd/scrubber_common.h:94-109 | a default `OSDRestrictions` has all five flags clear and renders as `<....>` |
| OsdRestrictions.Format | src/osd/scrubber_common.h:180-189 | the rendering is the five slots, in declaration order, joined by '.' between '<' and '>' |
| OsdRestrictions.FormatShape | src/osd/scrubber_common.h:180-189 | every rendering starts with '<', ends with '>' and holds exactly four '.' |
| OsdRestrictions.FormatSlots | src/osd/scrubber_common.h:183-188 | splitting the text between the brackets on '.' gives exactly the five slots |
| OsdRestrictions.SlotOfFormat | src/osd/scrubber_common.h:183-188 | splitting the text between the brackets on '.' gives five slots; slot i is tag i ("max-scrubs", "backoff", "high-load", "time-restrict", "recovery") exactly when flag i is set, and empty exactly when it is clear |
| OsdRestrictions.ParseFormat | src/osd/scrubber_common.h:181-189 | parsing a rendering gives back the flags it was made from |
| OsdRestrictions.FormatParse | src/osd/scrubber_common.h:181-189 | any text that parses is exactly the rendering of the flags it parses to |
| OsdRestrictions.FormatInjective | src/osd/scrubber_common.h:181-189 | distinct restrictions render to distinct texts |
| DelayCause.Description | src/osd/scrubber_common.h:226-248 | every one of the ten outcomes has a non-empty description, and it is "ok" exactly for `none` |
| DelayCause.CauseOfDescription | src/osd/scrubber_common.h:233-245 | each description reads back as the outcome it describes |
| DelayCause.DescriptionOfCause | src/osd/scrubber_common.h:233-245 | a text that reads back as an outcome is that outcome's description |
| DelayCause.DescriptionInjective | src/osd/scrubber_common.h:233-245 | distinct outcomes get distinct descriptions |
| ScrubRecords.PrioToBool | src/osd/scrubber_common.h:86 | a priority is stored as `true` exactly when it is high |
| ScrubRecords.PrioFromBool | src/osd/scrubber_common.h:86 | a stored `true` stands for high priority and `false` for low |
| ScrubRecords.PrioRoundTrip | src/osd/scrubber_common.h:86 | converting a priority to its `bool` and back, or a `bool` to a priority and back, is the identity |
| ScrubRecords.DefaultPreconds | src/osd/scrubber_common.h:114-118 | by default shallow and deep scrubs are both allowed and auto-repair is not |
| ScrubRecords.NewAsyncScrubResData | src/osd/scrubber_common.h:41-55 | stands for the C++ constructor: it stores `pgid`, `from`, `request_epoch` and `nonce` unchanged |

## Left out

- `utime_t` is not part of this model. `Time` assumes its shape: 32-bit seconds, nanoseconds normalised below one second, lexicographic comparison and `max()` = (2^32 - 1, 999999999).
- Time.Compare, ScrubSchedule.Compare, ScrubSchedule.Lt, ScrubSchedule.Le, ScrubSchedule.Gt and ScrubSchedule.Ge: the facts "equivalent only on equal times" and "ordered exactly as the nanosecond counts" hold only under the assumed exact (sec, nsec) comparison of `utime_t`. The declared `std::partial_ordering` result would also admit a comparison through a conversion (to a floating value, say), under which distinct times could be equivalent; that comparison is not modelled.
- `random_bool_with_probability` (a floating-point draw from a global random source) is not modelled.
- `ScrubPgIF` and `PgScrubBeListener` are pure-virtual interfaces with no bodies in this file. The scheduler, the replica reservation protocol and the scrub session state machine behind them are therefore not modelled. This also covers their erasure-coding, object-store and op-request services.
- `ScrubberPasskey` is an access-control idiom with no behaviour, so it is not modelled.
- `ScrubCounterSet` is a set of performance-counter indices with no logic, so it is not modelled.
- The `static_assert` size checks and the one-bit bitfields of `OSDRestrictions` concern memory layout only. The flags are plain booleans here.
- The formatters that print foreign types are not modelled: `AsyncScrubResData::fmt_print_ctx` (it prints `spg_t` and `pg_shard_t`), the `scrub_schedule_t` formatter (it prints `utime_t`) and the `ScrubPGPreconds` formatter (its `{:1}` bool rendering).
- DelayCause.Description: the width, fill and alignment options that the `delay_cause_t` formatter inherits from the `string_view` formatter are not modelled; the contract covers the description text only.
- ScrubRecords.NewAsyncScrubResData: `spg_t` and `pg_shard_t` are type parameters, and `epoch_t` and the reservation nonce are unbounded naturals. Their definitions and widths are not part of this model.
- The comment on `not_before` says it never decreases once `scheduled_at` is set. No code in this file updates a schedule, so that promise is not modelled.
