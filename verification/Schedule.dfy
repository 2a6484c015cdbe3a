/** The sync period of one unit and how hearing a sync moves its end. */
module Schedules {
  import opened Parameters
  import opened Outcomes

  /** The three times kept by the schedule: history (`start`), the next sync point as
      possibly moved by messages (`end`) and as it was when the period began. */
  datatype Period = Period(start: Time, end: Time, unadjustedEnd: Time) {

    /** A period that was rolled forward and then moved only by accepted adjustments. */
    predicate WellFormed() {
      && unadjustedEnd == start + PERIOD
      && unadjustedEnd <= end <= start + 2 * PERIOD
    }

    predicate Unadjusted() {
      WellFormed() && end == unadjustedEnd
    }
  }

  function Rolled(p: Period): Period {
    Period(p.end, p.end + PERIOD, p.end + PERIOD)
  }

  /** Time of the event (a sync point) that a message heard at `toa` talks about. */
  function EventTime(toa: Time, offset: int): Time {
    toa + offset
  }

  /** New end of the period for a sync point at `event`: one period later if that is already too soon. */
  function AdjustedEnd(p: Period, event: Time): Time {
    if event < p.end then event + PERIOD else event
  }

  /** The two asserts of the source on every new end of a period. */
  predicate Acceptable(p: Period, end: Time) {
    p.unadjustedEnd <= end <= p.start + 2 * PERIOD
  }

  function Adjusted(p: Period, end: Time): Result<Period> {
    if Acceptable(p, end) then Ok(p.(end := end)) else Halted(ScheduleOverrun)
  }

  /** The offset a sender puts into a sync message: its time to the next sync point at arrival. */
  function SyncOffset(p: Period, now: Time, latency: int): nat {
    ClampedSub(ClampedSub(p.end, now), latency)
  }

  /** What an adjustment does, for every message heard within one normal period of the sync point.
      It keeps the phase of the event and never goes below the normal end; it passes the asserts
      exactly when the event is not strictly between the normal and the current end; and it shortens
      the period (which the source means to exclude) exactly when the event is more than a period
      before the current end.  A first adjustment is always accepted and never shortens. */
  lemma AdjustmentBound(p: Period, toa: Time, offset: int)
    requires p.WellFormed()
    requires p.start <= toa <= p.start + PERIOD
    requires 0 <= offset <= PERIOD
    ensures var event := EventTime(toa, offset);
            var end := AdjustedEnd(p, event);
            && Congruent(end, event)
            && p.unadjustedEnd <= end
            && (Adjusted(p, end).Ok? <==> !(p.start + PERIOD < event < p.end))
            && (Adjusted(p, end).Ok? ==> Adjusted(p, end).value.WellFormed())
            && (end < p.end <==> event + PERIOD < p.end)
            && (p.Unadjusted() ==> Adjusted(p, end).Ok? && p.end <= end <= p.end + PERIOD)
  {
  }

  /** The asserts can fail: a second message in a period that was already extended. */
  lemma SecondAdjustmentCanOverrun()
    ensures var p := Period(0, 2 * PERIOD - 1, PERIOD);
            p.WellFormed() && Adjusted(p, AdjustedEnd(p, EventTime(100, PERIOD))) == Halted(ScheduleOverrun)
  {
  }

  /** A second adjustment can also make the period shorter than the first one made it. */
  lemma SecondAdjustmentCanShorten()
    ensures var p := Period(0, 2 * PERIOD - 1, PERIOD);
            p.WellFormed() && AdjustedEnd(p, EventTime(100, 0)) < p.end
  {
  }

  /** A sender's offset, added to the arrival time, is exactly the sender's next sync point,
      so a receiver ends up with that sync point or the one after it. */
  lemma ReceiverGetsSendersSyncPoint(sender: Period, now: Time, latency: int, receiver: Period)
    requires now + latency <= sender.end
    requires 0 <= latency
    ensures var event := EventTime(now + latency, SyncOffset(sender, now, latency));
            event == sender.end
            && AdjustedEnd(receiver, event) in {sender.end, sender.end + PERIOD}
            && (sender.end < receiver.end <==> AdjustedEnd(receiver, event) != sender.end)
  {
  }

  /** An offset sent from the middle of a sync slot is a valid one exactly when the end of the
      sender's period is at most half a slot later than normal. */
  lemma OffsetFromSyncSlotValidity(p: Period, latency: int)
    requires p.WellFormed() && IsLatency(latency)
    ensures var offset := SyncOffset(p, p.start + TransmitDelta(latency), latency);
            offset <= PERIOD <==> p.end <= p.unadjustedEnd + HALF_SLOT
  {
  }

  class Schedule {
    var start: Time
    var end: Time
    var unadjustedEnd: Time

    function View(): Period
      reads this
    {
      Period(start, end, unadjustedEnd)
    }

    /** Power-on: the first roll starts from the zeroed end time. */
    constructor (now: Time)
      ensures View() == Period(0, PERIOD, PERIOD)
    {
      start, end, unadjustedEnd := now, 0, 0;
      new;
      RollPeriodForward();
    }

    method RollPeriodForward()
      modifies this
      ensures View() == Rolled(old(View()))
    {
      start := end;
      end := start + PERIOD;
      unadjustedEnd := end;
    }

    method SetEndOfSyncPeriodToNow(now: Time)
      modifies this
      ensures View() == old(View()).(end := now)
    {
      end := now;
    }

    method Adjust(newEnd: Time) returns (r: Outcome)
      modifies this
      ensures r == Pass <==> Adjusted(old(View()), newEnd).Ok?
      ensures r.Halt? ==> r.fault == ScheduleOverrun
      ensures View() == old(View()).(end := newEnd)
    {
      end := newEnd;
      if end < unadjustedEnd || end - start > 2 * PERIOD {
        return Halt(ScheduleOverrun);
      }
      return Pass;
    }

    /** An event before the current end counts one period later. */
    method AdjustBySyncMsg(toa: Time, offset: int) returns (r: Outcome)
      modifies this
      ensures var p := old(View());
              match Adjusted(p, AdjustedEnd(p, EventTime(toa, offset)))
              case Ok(p') => r == Pass && View() == p'
              case Halted(f) => r == Halt(f)
    {
      var result := toa + offset;
      if result < end {
        result := result + PERIOD;
      }
      if result - start > 2 * PERIOD {
        return Halt(ScheduleOverrun);
      }
      r := Adjust(result);
    }

    /** Scatter: counts from the normal end, not from an end that may already be out of range. */
    method AdjustWithRandomAddedTime(random: nat)
      requires View().WellFormed() && random <= PERIOD
      modifies this
      ensures View() == old(View()).(end := old(start) + PERIOD + random)
      ensures View().WellFormed()
    {
      var r := Adjust(start + PERIOD + random);
      assert r == Pass;
    }

    /** Going back to a former master's schedule is a stub in the source: it proposes `now + offset`,
        which passes the asserts only from the very end of the period on. */
    method AdjustByCliqueHistoryOffset(now: Time, offset: int) returns (r: Outcome)
      modifies this
      ensures r == Pass <==> Acceptable(old(View()), now + offset)
      ensures r.Halt? ==> r.fault == ScheduleOverrun
      ensures View() == old(View()).(end := now + offset)
    {
      r := Adjust(now + offset);
    }

    method DeltaNowToNextSyncPoint(now: Time) returns (d: nat)
      ensures d == ClampedSub(end, now)
    {
      d := ClampedSub(end, now);
    }

    method ClampTimeBeforeLatestSlotMark(proposed: Time) returns (t: Time)
      ensures t <= end && t <= proposed && (t == end || t == proposed)
    {
      t := proposed;
      if t > end {
        t := end;
      }
    }
  }
}
