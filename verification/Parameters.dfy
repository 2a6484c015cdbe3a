/** Compile-time constants of the schedule, the radio and the policies, and the
    clock arithmetic every other module relies on.  All times are in ticks. */
module Parameters {

  /** Ticks of the long clock, which never wraps in the lifetime of a unit. */
  type Time = int

  /** Identity of a unit; a clique is named by the identity of its master. */
  type SystemID = int

  const SLOT: int := 50                    // VirtualSlotDuration, also HFXOStartup
  const HALF_SLOT: int := 25
  const THREE_SLOTS: int := 150            // ThreeSlotDuration; the source gives TwoSlotDuration the same value
  const COUNT_SLOTS: int := 1600
  const PERIOD: int := 80000               // NormalSyncPeriodDuration == COUNT_SLOTS * SLOT

  const GUESSED_LATENCY: int := 10         // assumed of a sender whose platform is unknown
  const OVER_THE_AIR: int := 2             // MsgOverTheAirTimeInTicks

  const FIRST_FISH_SLOT: int := 2          // FirstSlotOrdinalToFish
  const LAST_FISH_SLOT: int := 1600        // LastSlotOrdinalShouldFish
  const MAX_SESSION_SLOTS: int := 100      // MaxTrollingRealFishSessionDurationSlots
  const DEEP_SESSIONS: int := 6            // CountFishingsPerDeepFishing
  const MERGE_SYNCS: int := 6              // CountSyncsPerMerger
  const MAX_MISSED_SYNCS: int := 80        // maxMissingSyncsPerDropout
  const HISTORY_RECORDS: int := 6          // RecordCount

  /** SendLatency: 4 ticks on an nRF52, 10 on an nRF51. */
  predicate IsLatency(latency: int) {
    latency == 4 || latency == 10
  }

  /** PreflightDelta: from waking for a merge transmission to the end of that transmission. */
  function PreflightDelta(latency: int): int {
    SLOT + latency
  }

  /** SendDuration: one transmission, without any radio prelude. */
  function SendDuration(latency: int): int {
    OVER_THE_AIR + latency
  }

  /** DeltaSyncPointToSyncSlotMiddle: what the merge arithmetic takes for the middle of a sync slot. */
  function NominalSlotMiddle(latency: int): int {
    HALF_SLOT + SLOT - latency
  }

  /** DeltaSyncSlotStartToSyncSlotXmit: when a sync transmission really starts in a sync slot. */
  function TransmitDelta(latency: int): int {
    HALF_SLOT - latency
  }

  /** TimeMath::clampedSubtraction and the clamped time differences. */
  function ClampedSub(a: int, b: int): (d: nat)
    ensures d == 0 <==> a <= b
    ensures b <= a ==> b + d == a
  {
    if a < b then 0 else a - b
  }

  function Max(a: int, b: int): int {
    if a < b then b else a
  }

  function Min(a: int, b: int): int {
    if a < b then a else b
  }

  /** Two times at the same place in their sync periods. */
  predicate Congruent(a: Time, b: Time) {
    (a - b) % PERIOD == 0
  }

  lemma CongruentSymmetric(a: Time, b: Time)
    requires Congruent(a, b)
    ensures Congruent(b, a)
  {
  }

  lemma CongruentTransitive(a: Time, b: Time, c: Time)
    requires Congruent(a, b) && Congruent(b, c)
    ensures Congruent(a, c)
  {
  }

  lemma CongruentShift(a: Time, b: Time, d: int)
    requires Congruent(a, b)
    ensures Congruent(a + d, b + d)
    ensures Congruent(a + PERIOD, b)
  {
  }
}
