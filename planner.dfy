/**
 * The rotation state of one generator run and the local `Rotate` primitive
 * that updates it: the running total, the previous direction, the time of the
 * previous spin, the number of emitted rotation events and the list of
 * wall-cut moments. A committed rotation also appends one rotation event to
 * the beatmap.
 */
module Planner {
  import opened ModBeatmap
  import opened Rotation
  import opened Walls

  /** `float.MinValue`, the initial "previous spin" time. */
  const FloatMinValue: real := -340282346638528859811704183484516925440.0

  /** A rotation amount that can be committed: non-zero and within [-4, 4]. */
  predicate ValidAmount(amount: int) { -4 <= amount <= 4 && amount != 0 }

  predicate ValidMoments(moments: seq<Moment>)
  {
    forall m :: m in moments ==> ValidAmount(m.amount)
  }

  /**
   * The rotation state of a run as a value: the wall-cut moments, the running
   * total, the previous direction (rightward or not) and the time of the
   * previous spin.
   */
  datatype Turns = Turns(moments: seq<Moment>, totalRotation: int, previousDirection: bool, previousSpinTime: real)

  /** The state before the first rotation. */
  const InitialTurns: Turns := Turns([], 0, true, FloatMinValue)

  /**
   * The state after a rotation request at `time` with the limit enabled: the
   * committed amount is appended, added to the total and recorded as the
   * direction, unless it is 0, when nothing changes.
   */
  function Committed(t: Turns, amount: int, limit: int, time: real): Turns
  {
    var a := CommittedAmount(t.totalRotation, amount, limit, true);
    if a == 0 then t
    else Turns(t.moments + [Moment(time, a)], t.totalRotation + a, a > 0, t.previousSpinTime)
  }

  /**
   * The state after a spin of `SpinSteps` unit rotations in `direction` from
   * `start`, `spinStep` apart: the total is unchanged and the bar start is
   * recorded as the previous spin time.
   */
  function Spun(t: Turns, start: real, spinStep: real, direction: int, barStart: real): Turns
  {
    Turns(t.moments + SpinMoments(start, spinStep, direction, SpinSteps), t.totalRotation, direction > 0, barStart)
  }

  /** The rotation event emitted for a committed moment. */
  function RotationEvent(m: Moment): (e: BeatmapEvent)
    requires ValidAmount(m.amount)
    ensures e.time == m.time && e.eventType == Event15 && 0 <= e.value <= 7
    ensures AmountOfEventValue(e.value) == m.amount
  {
    EventValueRoundTrip(m.amount);
    BeatmapEvent(m.time, Event15, EventValue(m.amount))
  }

  function RotationEvents(moments: seq<Moment>): (es: seq<BeatmapEvent>)
    requires ValidMoments(moments)
    ensures |es| == |moments|
    ensures forall p :: 0 <= p < |moments| ==> es[p] == RotationEvent(moments[p])
  {
    if moments == [] then [] else [RotationEvent(moments[0])] + RotationEvents(moments[1..])
  }

  lemma {:induction false} RotationEventsAppend(a: seq<Moment>, b: seq<Moment>)
    requires ValidMoments(a) && ValidMoments(b)
    ensures ValidMoments(a + b)
    ensures RotationEvents(a + b) == RotationEvents(a) + RotationEvents(b)
  {
    var l, r := RotationEvents(a + b), RotationEvents(a) + RotationEvents(b);
    assert |l| == |r|;
    forall p | 0 <= p < |l| ensures l[p] == r[p] {
      if p < |a| { assert (a + b)[p] == a[p]; } else { assert (a + b)[p] == b[p - |a|]; }
    }
  }

  /** The number of unit rotations of a spin: one full turn. */
  const SpinSteps: nat := 24

  /** Events emitted for further moments extend the event list of the earlier ones. */
  lemma EventsExtend(events0: seq<BeatmapEvent>, moments: seq<Moment>, extra: seq<Moment>)
    requires ValidMoments(moments) && ValidMoments(extra)
    ensures ValidMoments(moments + extra)
    ensures events0 + RotationEvents(moments) + RotationEvents(extra) == events0 + RotationEvents(moments + extra)
  {
    RotationEventsAppend(moments, extra);
  }

  /** The first `count` unit moments of a spin starting at `start`, `spinStep` apart. */
  function SpinMoments(start: real, spinStep: real, direction: int, count: nat): (ms: seq<Moment>)
    ensures |ms| == count
    ensures forall m :: m in ms ==> m.amount == direction
  {
    if count == 0 then []
    else SpinMoments(start, spinStep, direction, count - 1) + [Moment(start + spinStep * (count - 1) as real, direction)]
  }

  /** The net rotation of a list of moments, in steps of 15 degrees. */
  function Sum(moments: seq<Moment>): int
  {
    if moments == [] then 0 else Sum(moments[..|moments| - 1]) + moments[|moments| - 1].amount
  }

  lemma SumAppend(moments: seq<Moment>, m: Moment)
    ensures Sum(moments + [m]) == Sum(moments) + m.amount
  {
    assert (moments + [m])[..|moments|] == moments;
  }

  /** After every moment of the list the net rotation lies within [-limit, limit]. */
  ghost predicate WithinBudget(moments: seq<Moment>, limit: int)
  {
    forall p :: 0 <= p <= |moments| ==> -limit <= Sum(moments[..p]) <= limit
  }

  /**
   * A rotation committed with the limit enabled, from a running total that is
   * the net rotation of the moments so far and within the budget, keeps every
   * prefix of the extended list within the budget.
   */
  lemma CommitKeepsBudget(moments: seq<Moment>, totalRotation: int, amount: int, limit: int, time: real)
    requires totalRotation == Sum(moments) && WithinBudget(moments, limit)
    ensures var a := CommittedAmount(totalRotation, amount, limit, true);
      && Sum(moments + [Moment(time, a)]) == totalRotation + a
      && WithinBudget(moments + [Moment(time, a)], limit)
  {
    var a := CommittedAmount(totalRotation, amount, limit, true);
    var ext := moments + [Moment(time, a)];
    assert ext[..|ext| - 1] == moments;
    assert moments[..|moments|] == moments;
    CommittedAmountBudget(totalRotation, amount, limit);
    forall p | 0 <= p <= |ext| ensures -limit <= Sum(ext[..p]) <= limit {
      if p <= |moments| {
        assert ext[..p] == moments[..p];
      } else {
        assert ext[..p] == ext;
      }
    }
  }

  /** One more spin step appends one moment, and one rotation event. */
  lemma SpinStep(start: real, spinStep: real, direction: int, s: nat)
    requires direction == 1 || direction == -1
    ensures ValidMoments(SpinMoments(start, spinStep, direction, s + 1))
    ensures SpinMoments(start, spinStep, direction, s + 1)
      == SpinMoments(start, spinStep, direction, s) + [Moment(start + spinStep * s as real, direction)]
    ensures RotationEvents(SpinMoments(start, spinStep, direction, s + 1))
      == RotationEvents(SpinMoments(start, spinStep, direction, s)) + [RotationEvent(Moment(start + spinStep * s as real, direction))]
  {
    var m := Moment(start + spinStep * s as real, direction);
    RotationEventsAppend(SpinMoments(start, spinStep, direction, s), [m]);
  }

  /** The `k`-th spin moment is `k` steps after the start. */
  lemma {:induction false} SpinMomentsAt(start: real, spinStep: real, direction: int, count: nat, k: nat)
    requires k < count
    ensures SpinMoments(start, spinStep, direction, count)[k] == Moment(start + spinStep * k as real, direction)
  {
    if k < count - 1 {
      SpinMomentsAt(start, spinStep, direction, count - 1, k);
    }
  }

  class RotationPlanner {
    var totalRotation: int
    var previousDirection: bool
    var previousSpinTime: real
    var eventCount: nat
    var wallCutMoments: seq<Moment>

    /** The rotation state as a value. */
    ghost function State(): Turns
      reads this
    {
      Turns(wallCutMoments, totalRotation, previousDirection, previousSpinTime)
    }

    /** Every moment is a committed amount and one event was counted per moment. */
    ghost predicate Valid()
      reads this
    {
      ValidMoments(wallCutMoments) && eventCount == |wallCutMoments|
    }

    constructor ()
      ensures Valid()
      ensures totalRotation == 0 && previousDirection && previousSpinTime == FloatMinValue
      ensures eventCount == 0 && wallCutMoments == []
    {
      totalRotation := 0;
      previousDirection := true;
      previousSpinTime := FloatMinValue;
      eventCount := 0;
      wallCutMoments := [];
    }

    /**
     * The local `Rotate(time, amount, enableLimit)`. It commits
     * `CommittedAmount(...)` unless that is 0. A commit updates the running
     * total only when the limit is enabled. It records the direction, counts
     * the event, appends the moment `(time, amount)` and appends the matching
     * rotation event to the beatmap.
     */
    method Rotate(data: ModBeatmapData, time: real, amount: int, enableLimit: bool, limitRotations: int)
      requires Valid()
      modifies this, data`events
      ensures Valid()
      ensures previousSpinTime == old(previousSpinTime)
      ensures var a := CommittedAmount(old(totalRotation), amount, limitRotations, enableLimit);
        if a == 0 then
          && totalRotation == old(totalRotation) && previousDirection == old(previousDirection)
          && eventCount == old(eventCount) && wallCutMoments == old(wallCutMoments)
          && data.events == old(data.events)
        else
          && ValidAmount(a)
          && totalRotation == old(totalRotation) + (if enableLimit then a else 0)
          && previousDirection == (a > 0)
          && eventCount == old(eventCount) + 1
          && wallCutMoments == old(wallCutMoments) + [Moment(time, a)]
          && data.events == old(data.events) + [RotationEvent(Moment(time, a))]
      ensures enableLimit ==> State() == Committed(old(State()), amount, limitRotations, time)
    {
      if amount == 0 {
        return;
      }
      var a := amount;
      if a < -4 {
        a := -4;
      }
      if a > 4 {
        a := 4;
      }
      if enableLimit {
        if totalRotation + a > limitRotations {
          a := Min(a, Max(0, limitRotations - totalRotation));
        } else if totalRotation + a < -limitRotations {
          a := Max(a, Min(0, -(limitRotations + totalRotation)));
        }
        if a == 0 {
          return;
        }
        totalRotation := totalRotation + a;
      }
      previousDirection := a > 0;
      eventCount := eventCount + 1;
      wallCutMoments := wallCutMoments + [Moment(time, a)];
      data.events := data.events + [RotationEvent(Moment(time, a))];
    }

    /** One unit rotation of a spin: `Rotate` with the limit disabled always commits it. */
    method SpinUnit(data: ModBeatmapData, time: real, direction: int)
      requires Valid() && (direction == 1 || direction == -1)
      modifies this, data`events
      ensures Valid()
      ensures totalRotation == old(totalRotation) && previousSpinTime == old(previousSpinTime)
      ensures previousDirection == (direction > 0)
      ensures wallCutMoments == old(wallCutMoments) + [Moment(time, direction)]
      ensures data.events == old(data.events) + [RotationEvent(Moment(time, direction))]
    {
      assert CommittedAmount(totalRotation, direction, 0, false) == direction;
      Rotate(data, time, direction, false, 0);
    }

    /**
     * The spin flourish: 24 unit rotations in `direction`, `totalSpinTime / 24`
     * apart from `start`, committed without the limit (the running total is
     * unchanged); then the bar start is recorded as the previous spin time.
     */
    method Spin(data: ModBeatmapData, start: real, totalSpinTime: real, direction: int, barStart: real)
      requires Valid() && (direction == 1 || direction == -1)
      modifies this, data`events
      ensures Valid()
      ensures totalRotation == old(totalRotation)
      ensures previousDirection == (direction > 0)
      ensures previousSpinTime == barStart
      ensures wallCutMoments == old(wallCutMoments) + SpinMoments(start, totalSpinTime / SpinSteps as real, direction, SpinSteps)
      ensures eventCount == old(eventCount) + SpinSteps
      ensures data.events == old(data.events) + RotationEvents(SpinMoments(start, totalSpinTime / SpinSteps as real, direction, SpinSteps))
      ensures State() == Spun(old(State()), start, totalSpinTime / SpinSteps as real, direction, barStart)
    {
      var spinStep := totalSpinTime / SpinSteps as real;
      for s := 0 to SpinSteps
        invariant Valid()
        invariant totalRotation == old(totalRotation)
        invariant s > 0 ==> previousDirection == (direction > 0)
        invariant wallCutMoments == old(wallCutMoments) + SpinMoments(start, spinStep, direction, s)
        invariant data.events == old(data.events) + RotationEvents(SpinMoments(start, spinStep, direction, s))
      {
        var m := Moment(start + spinStep * s as real, direction);
        SpinStep(start, spinStep, direction, s);
        Regroup(old(wallCutMoments), SpinMoments(start, spinStep, direction, s), [m]);
        Regroup(old(data.events), RotationEvents(SpinMoments(start, spinStep, direction, s)), [RotationEvent(m)]);
        SpinUnit(data, m.time, direction);
      }
      previousSpinTime := barStart;
    }
  }
}
