/** The fishing mode: trolling every slot in turn, or deep fishing, one slot per period at the place
    where another unit said a better clique is. */
module Fishing {
  import opened Parameters
  import opened Schedules
  import opened Messages
  import opened Cliques
  import opened Trolling

  datatype FishingMode = Trolling | DeepFishing

  /** What to do when deep fishing ends without a catch. */
  datatype Callback = NoCallback | EndWithNoAction | EndWithRecoverMaster

  datatype Fish = Fish(mode: FishingMode, count: nat, delta: int, callback: Callback) {

    /** Deep fishing has a place to fish and a callback. */
    predicate Valid() {
      && count <= DEEP_SESSIONS + 1
      && (mode == DeepFishing ==> 0 <= delta <= PERIOD + SLOT && callback != NoCallback)
    }
  }

  const INITIAL_FISH: Fish := Fish(Trolling, 0, 0, NoCallback)

  /** Only the first of many repeated merge messages starts deep fishing. */
  function SwitchedToDeep(f: Fish, delta: int, callback: Callback): Fish {
    if f.mode == DeepFishing then f else Fish(DeepFishing, 0, delta, callback)
  }

  function SwitchedToTrolling(f: Fish): Fish {
    f.(mode := Trolling)
  }

  /** From my sync point to the sync point a merge message, heard at `toa`, talks about. */
  function FishingDelta(p: Period, offset: int, toa: Time, now: Time): int {
    ClampedSub(EventTime(toa, offset), now) + ClampedSub(now, p.start)
  }

  function CallbackFor(kind: MessageType): Callback {
    if kind == MergeMyMasterDepart then EndWithRecoverMaster else EndWithNoAction
  }

  /** Unclamped start of the next session. */
  function StartTimeToFish(f: Fish, t: Troll, p: Period): Time {
    p.start + if f.mode == DeepFishing then f.delta else SessionStart(t)
  }

  function SessionTicks(f: Fish, t: Troll): int {
    if f.mode == DeepFishing then SLOT else t.ticks
  }

  predicate FishNearStart(f: Fish, t: Troll) {
    if f.mode == DeepFishing then f.delta < THREE_SLOTS else NearStart(t)
  }

  /** In deep fishing the sense is the opposite of what the name says. */
  predicate FishNearEnd(f: Fish, t: Troll) {
    if f.mode == DeepFishing then f.delta + SLOT < PERIOD - 2 * SLOT else NearEnd(t)
  }

  predicate EpisodeOver(f: Fish) {
    f.mode == DeepFishing && f.count > DEEP_SESSIONS
  }

  class FishingManager {
    const trolling: TrollingPolicy
    const clique: CliqueOfUnit
    var mode: FishingMode
    var countFishings: nat
    var delta: int
    var callback: Callback

    function View(): Fish
      reads this
    {
      Fish(mode, countFishings, delta, callback)
    }

    constructor (trolling: TrollingPolicy, clique: CliqueOfUnit)
      ensures this.trolling == trolling && this.clique == clique
      ensures View() == INITIAL_FISH && View().Valid()
    {
      this.trolling, this.clique := trolling, clique;
      mode, countFishings, delta, callback := Trolling, 0, 0, NoCallback;
    }

    method SwitchToDeepFishing(newDelta: int, newCallback: Callback)
      modifies this
      ensures View() == SwitchedToDeep(old(View()), newDelta, newCallback)
    {
      if mode != DeepFishing {
        mode := DeepFishing;
        countFishings, callback, delta := 0, newCallback, newDelta;
      }
    }

    method SwitchToTrolling()
      modifies this
      ensures View() == SwitchedToTrolling(old(View()))
    {
      mode := Trolling;
    }

    method PreFishing()
      requires trolling.View().Valid()
      modifies trolling
      ensures trolling.View() == if mode == Trolling then Proceeded(old(trolling.View())) else old(trolling.View())
      ensures trolling.View().Valid() && (mode == Trolling ==> trolling.View().Fresh())
    {
      match mode
      case Trolling => trolling.ProceedToNextFishSlotOrdinal();
      case DeepFishing =>
    }

    /** In deep fishing, every call counts as one more session. */
    method GetStartTimeToFish() returns (t: Time)
      modifies this
      ensures t == StartTimeToFish(old(View()), trolling.View(), clique.schedule.View())
      ensures View() == if old(mode) == DeepFishing then old(View()).(count := old(countFishings) + 1)
                        else old(View())
    {
      match mode
      case Trolling =>
        t := clique.schedule.start + (trolling.first - 1) * SLOT;
      case DeepFishing =>
        countFishings := countFishings + 1;
        t := clique.schedule.start + delta;
    }

    /** Deep fishing ends after enough sessions; its callback may make this unit a master again. */
    method CheckFishingDone() returns (done: bool)
      requires View().Valid() && clique.Valid()
      modifies this, clique
      ensures done == EpisodeOver(old(View()))
      ensures View() == if done then SwitchedToTrolling(old(View())) else old(View())
      ensures clique.Valid()
      ensures clique.View() == if done && callback == EndWithRecoverMaster then SelfMastered(old(clique.View()))
                               else old(clique.View())
    {
      done := false;
      match mode
      case Trolling =>
      case DeepFishing =>
        if countFishings > DEEP_SESSIONS {
          assert callback != NoCallback;
          if callback == EndWithRecoverMaster {
            clique.SetSelfMastership();
          }
          done := true;
          SwitchToTrolling();
        }
    }

    method IsFishSlotStartSyncPeriod() returns (r: bool)
      ensures r == FishNearStart(View(), trolling.View())
    {
      match mode
      case Trolling =>
        r := trolling.first == FIRST_FISH_SLOT || trolling.first == FIRST_FISH_SLOT + 1;
      case DeepFishing =>
        r := delta < THREE_SLOTS;
    }

    method IsFishSlotEndSyncPeriod() returns (r: bool)
      ensures r == FishNearEnd(View(), trolling.View())
    {
      match mode
      case Trolling =>
        r := trolling.last >= LAST_FISH_SLOT || trolling.last == LAST_FISH_SLOT - 1;
      case DeepFishing =>
        r := delta + SLOT < PERIOD - 2 * SLOT;
    }
  }
}
