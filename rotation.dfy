/**
 * The arithmetic and the case tables the rotation generator decides with:
 * tolerant flooring, bar-length snapping, bar and sub-beat bounds, the
 * rotation primitive's clamp and budget, the rotation-event encoding, the
 * bar-divider table, rotation-count escalation and the direction choice.
 * Times are seconds, modelled as reals (no IEEE rounding).
 */
module Rotation {
  import opened ModBeatmap

  // ---------------------------------------------------------------------------
  // Flooring

  /** The C# cast `(int)f`: rounds toward zero. */
  function Truncate(f: real): (i: int)
    ensures f >= 0.0 ==> i as real <= f < i as real + 1.0
    ensures f < 0.0 ==> i as real - 1.0 < f <= i as real
  {
    if f >= 0.0 then f.Floor else -((-f).Floor)
  }

  /**
   * `Generator360.Floor`: truncation, except that a fractional part of at least
   * 0.999 rounds up. For non-negative inputs the result is the integer `r` with
   * `r - 0.001 <= f < r + 0.999`; negative inputs are truncated toward zero.
   */
  function Floor(f: real): (r: int)
    ensures f >= 0.0 ==> r as real - 0.001 <= f < r as real + 0.999
    ensures f < 0.0 ==> r as real - 1.0 < f <= r as real
  {
    var i := Truncate(f);
    if f - i as real >= 0.999 then i + 1 else i
  }

  lemma MulLeft(a: real, b: real, c: real)
    requires a <= b && c > 0.0
    ensures a * c <= b * c
  {
  }

  lemma MulLeftStrict(a: real, b: real, c: real)
    requires a < b && c > 0.0
    ensures a * c < b * c
  {
  }

  lemma DivStrict(a: real, b: real, c: real)
    requires a < b && c > 0.0
    ensures a / c < b / c
  {
    assert (b - a) / c > 0.0;
    assert b / c - a / c == (b - a) / c;
  }

  // ---------------------------------------------------------------------------
  // Bar length

  /** `x * 2^n`, as `n` doublings of `x`. */
  function Scale(x: real, n: nat): real
  {
    if n == 0 then x else 2.0 * Scale(x, n - 1)
  }

  function Pow2(n: nat): (p: nat)
    ensures p >= n + 1
  {
    if n == 0 then 1 else 2 * Pow2(n - 1)
  }

  /** `n` doublings multiply by the power of two `2^n`. */
  lemma {:induction false} ScaleIsProduct(x: real, n: nat)
    ensures Scale(x, n) == x * Pow2(n) as real
  {
    if n > 0 {
      ScaleIsProduct(x, n - 1);
      assert Pow2(n) as real == 2.0 * Pow2(n - 1) as real;
    }
  }

  /** Halving first takes one more doubling to get back. */
  lemma {:induction false} ScaleHalf(x: real, n: nat)
    ensures Scale(x / 2.0, n + 1) == Scale(x, n)
  {
    if n > 0 {
      ScaleHalf(x, n - 1);
    }
  }

  lemma {:induction false} ScaleAdd(x: real, a: nat, b: nat)
    ensures Scale(Scale(x, a), b) == Scale(x, a + b)
  {
    if b > 0 {
      ScaleAdd(x, a, b - 1);
    }
  }

  lemma ProductBound(c: real, x: real, p: real, k: real, total: real)
    requires 0.0 < c <= x && 0.0 <= k < p && x * p == total
    ensures k * c < total
  {
    MulLeft(c, x, p);
    MulLeftStrict(k, p, c);
  }

  /** If `x * 2^n == total` with `x >= c > 0`, then `n` is below `total / c`. */
  lemma ExponentBound(x: real, n: nat, total: real, c: real)
    requires c > 0.0 && x >= c && Scale(x, n) == total
    ensures (n as real) < total / c
  {
    ScaleIsProduct(x, n);
    ProductBound(c, x, Pow2(n) as real, n as real, total);
    DivStrict((n as real) * c, total, c);
    assert ((n as real) * c) / c == n as real;
  }

  /** If `x * 2^n < total` with `x > 0`, then `n` is below `total / x`. */
  lemma ExponentBoundBelow(x: real, n: nat, total: real)
    requires x > 0.0 && Scale(x, n) < total
    ensures (n as real) < total / x
  {
    ScaleIsProduct(x, n);
    var p := Pow2(n) as real;
    assert (n as real) < p;
    MulLeftStrict(n as real, p, x);
    assert (n as real) * x < total;
    DivStrict((n as real) * x, total, x);
    assert ((n as real) * x) / x == n as real;
  }

  /** The first loop of the bar alignment: halve while at least `1.25 * preferred`. */
  method HalveWhileLong(beatDuration: real, preferredBarDuration: real)
    returns (barLength: real, ghost halvings: nat)
    requires beatDuration > 0.0 && preferredBarDuration > 0.0
    ensures barLength > 0.0 && Scale(barLength, halvings) == beatDuration
    ensures barLength < preferredBarDuration * 1.25
    ensures halvings > 0 ==> barLength >= preferredBarDuration * 0.625
    ensures beatDuration < preferredBarDuration * 1.25 ==> halvings == 0 && barLength == beatDuration
  {
    barLength := beatDuration;
    halvings := 0;
    ghost var bound := (beatDuration / (preferredBarDuration * 1.25)).Floor + 1;
    while barLength >= preferredBarDuration * 1.25
      invariant barLength > 0.0
      invariant Scale(barLength, halvings) == beatDuration
      invariant halvings > 0 ==> barLength >= preferredBarDuration * 0.625
      invariant beatDuration < preferredBarDuration * 1.25 ==> halvings == 0 && barLength == beatDuration
      decreases bound - halvings
    {
      ExponentBound(barLength, halvings, beatDuration, preferredBarDuration * 1.25);
      ScaleHalf(barLength, halvings);
      barLength := barLength / 2.0;
      halvings := halvings + 1;
    }
  }

  /** The second loop of the bar alignment: double while below `0.75 * preferred`. */
  method DoubleWhileShort(start: real, preferredBarDuration: real)
    returns (barLength: real, ghost doublings: nat)
    requires start > 0.0 && preferredBarDuration > 0.0
    ensures barLength == Scale(start, doublings)
    ensures barLength >= preferredBarDuration * 0.75
    ensures doublings > 0 ==> barLength < preferredBarDuration * 1.5
    ensures start >= preferredBarDuration * 0.75 ==> doublings == 0 && barLength == start
  {
    barLength := start;
    doublings := 0;
    ghost var bound := (preferredBarDuration * 0.75 / start).Floor + 1;
    while barLength < preferredBarDuration * 0.75
      invariant barLength >= start
      invariant barLength == Scale(start, doublings)
      invariant doublings > 0 ==> barLength < preferredBarDuration * 1.5
      invariant start >= preferredBarDuration * 0.75 ==> doublings == 0 && barLength == start
      decreases bound - doublings
    {
      ExponentBoundBelow(start, doublings, preferredBarDuration * 0.75);
      barLength := barLength * 2.0;
      doublings := doublings + 1;
    }
  }

  /**
   * Aligns the bar length to the beat: halves the beat duration while it is at
   * least 1.25 times the preferred bar duration, then doubles it while it is
   * below 0.75 times. The result is the beat duration times a power of two
   * (`halvings` halvings, then `doublings` doublings: `barLength * 2^halvings
   * == beatDuration * 2^doublings`) and lies in [0.75, 1.5) times the
   * preferred duration; a beat duration already in [0.75, 1.25) of it is
   * kept as it is.
   */
  method SnapBarLength(beatDuration: real, preferredBarDuration: real)
    returns (barLength: real, ghost halvings: nat, ghost doublings: nat)
    requires beatDuration > 0.0 && preferredBarDuration > 0.0
    ensures Scale(barLength, halvings) == Scale(beatDuration, doublings)
    ensures 0.75 * preferredBarDuration <= barLength < 1.5 * preferredBarDuration
    ensures 0.75 * preferredBarDuration <= beatDuration < 1.25 * preferredBarDuration ==> barLength == beatDuration
  {
    var halved;
    halved, halvings := HalveWhileLong(beatDuration, preferredBarDuration);
    barLength, doublings := DoubleWhileShort(halved, preferredBarDuration);
    ScaleAdd(halved, doublings, halvings);
    ScaleAdd(halved, halvings, doublings);
  }

  /** Tolerance subtracted from a bar's end: 1 ms, or 0.1% of the bar when the bar is shorter than 1 s. */
  function EndTolerance(barLength: real): real
  {
    if barLength >= 1.0 then 0.001 else 0.001 * barLength
  }

  /** End of the bar that starts at `barStart` (relative to the first note), as the source writes it. */
  function BarEndAsWritten(barStart: real, barLength: real): real
  {
    barStart + barLength - 0.001
  }

  /**
   * End of the bar, with the tolerance scaled down for bars shorter than 1 s;
   * equal to the source's value whenever the bar is at least 1 s long.
   */
  function BarEnd(barStart: real, barLength: real): (r: real)
    ensures barLength >= 1.0 ==> r == BarEndAsWritten(barStart, barLength)
    ensures barLength > 0.0 ==> barStart < r < barStart + barLength
  {
    barStart + barLength - EndTolerance(barLength)
  }

  /** Start of the bar in which a note at `offset` seconds after the first note falls. */
  function BarStart(offset: real, barLength: real): real
    requires barLength > 0.0
  {
    Floor(offset / barLength) as real * barLength
  }

  lemma BelowNextBar(offset: real, barLength: real, q: real)
    requires barLength > 0.0 && offset / barLength < q + 0.999
    ensures offset < q * barLength + barLength - 0.001 * barLength
  {
    var y := offset / barLength;
    assert y * barLength == offset;
    MulLeftStrict(y, q + 0.999, barLength);
    assert (q + 0.999) * barLength == q * barLength + barLength - 0.001 * barLength;
  }

  /**
   * The bar computed from a note contains that note: the note lies before the
   * bar's end, so collecting the bar always consumes it.
   */
  lemma BarEndCoversNote(offset: real, barLength: real)
    requires barLength > 0.0
    ensures offset < BarEnd(BarStart(offset, barLength), barLength)
  {
    var y := offset / barLength;
    var q := Floor(y);
    assert y * barLength == offset;
    var tol := EndTolerance(barLength);
    assert tol <= 0.001 * barLength;
    if offset >= 0.0 {
      assert y >= 0.0;
      BelowNextBar(offset, barLength, q as real);
    } else {
      assert y < 0.0;
      MulLeft(y, q as real, barLength);
    }
  }

  /**
   * With the source's fixed 1 ms tolerance a bar of 0.5 s does not contain the
   * note at 0.4992 s that it was computed from: the bar loop collects nothing
   * and starts over at the same note, forever.
   */
  lemma BarStallsAsWritten()
    ensures Floor(0.4992 / 0.5) == 0
    ensures !(0.4992 < BarEndAsWritten(0.0, 0.5))
  {
    assert 0.4992 / 0.5 == 0.9984;
    assert Truncate(0.9984) == 0;
  }

  // ---------------------------------------------------------------------------
  // The rotation primitive

  function Clamp(amount: int): (c: int)
    ensures -4 <= c <= 4
    ensures -4 <= amount <= 4 ==> c == amount
    ensures amount > 4 ==> c == 4
    ensures amount < -4 ==> c == -4
  {
    if amount < -4 then -4 else if amount > 4 then 4 else amount
  }

  /** `Math.Min` on integers, as the budget clamp of the local `Rotate` calls it. */
  function Min(a: int, b: int): int { if a <= b then a else b }

  /** `Math.Max` on integers, as the budget clamp of the local `Rotate` calls it. */
  function Max(a: int, b: int): int { if a >= b then a else b }

  /**
   * The amount the local `Rotate` commits for a requested `amount`, 0 meaning
   * that nothing is emitted: a zero request is dropped, the request is clamped
   * to [-4, 4], and with the limit enabled an overshooting request is shrunk
   * to land on the limit (or dropped when the total already sits on it).
   */
  function CommittedAmount(totalRotation: int, amount: int, limitRotations: int, enableLimit: bool): (r: int)
    ensures amount == 0 ==> r == 0
    ensures -4 <= r <= 4
    ensures !enableLimit ==> r == Clamp(amount)
  {
    if amount == 0 then 0
    else
      var c := Clamp(amount);
      if !enableLimit then c
      else if totalRotation + c > limitRotations then Min(c, Max(0, limitRotations - totalRotation))
      else if totalRotation + c < -limitRotations then Max(c, Min(0, -(limitRotations + totalRotation)))
      else c
  }

  /**
   * With the limit enabled and the running total within the budget: the
   * committed amount keeps the request's sign, is no larger than the clamped
   * request, keeps the total within the budget, equals the clamped request when
   * that fits, and otherwise lands the total exactly on the limit.
   */
  lemma CommittedAmountBudget(totalRotation: int, amount: int, limitRotations: int)
    requires -limitRotations <= totalRotation <= limitRotations
    ensures var r := CommittedAmount(totalRotation, amount, limitRotations, true);
      && -limitRotations <= totalRotation + r <= limitRotations
      && (r > 0 ==> amount > 0) && (r < 0 ==> amount < 0)
      && (amount > 0 ==> 0 <= r <= Clamp(amount))
      && (amount < 0 ==> Clamp(amount) <= r <= 0)
      && (amount != 0 && -limitRotations <= totalRotation + Clamp(amount) <= limitRotations ==> r == Clamp(amount))
      && (totalRotation + Clamp(amount) > limitRotations ==> totalRotation + r == limitRotations)
      && (totalRotation + Clamp(amount) < -limitRotations ==> totalRotation + r == -limitRotations)
  {
  }

  // ---------------------------------------------------------------------------
  // Rotation-event encoding

  /** The value of the rotation event for a committed amount: 4..7 to the right, 0..3 to the left. */
  function EventValue(amount: int): (v: int)
    requires -4 <= amount <= 4 && amount != 0
    ensures 0 <= v <= 7
    ensures amount > 0 <==> v >= 4
  {
    if amount > 0 then 3 + amount else 4 + amount
  }

  /** The signed rotation amount a rotation-event value stands for. */
  function AmountOfEventValue(v: int): (amount: int)
    requires 0 <= v <= 7
    ensures -4 <= amount <= 4 && amount != 0
  {
    if v >= 4 then v - 3 else v - 4
  }

  lemma EventValueRoundTrip(amount: int)
    requires -4 <= amount <= 4 && amount != 0
    ensures AmountOfEventValue(EventValue(amount)) == amount
  {
  }

  lemma AmountOfEventValueRoundTrip(v: int)
    requires 0 <= v <= 7
    ensures EventValue(AmountOfEventValue(v)) == v
  {
  }

  // ---------------------------------------------------------------------------
  // Decision tables

  /**
   * Number of sub-beats a bar is divided into, from its note count: 8 for
   * sparse bars, fewer as the bar gets denser, and 0 (no rotation) from 58 notes on.
   */
  function BarDivider(noteCount: nat): (d: nat)
    ensures d == 0 || d == 1 || d == 2 || d == 4 || d == 8
    ensures d == 0 <==> noteCount >= 58
    ensures d == 1 <==> 38 <= noteCount < 58
    ensures d == 2 <==> 26 <= noteCount < 38
    ensures d == 4 <==> 8 <= noteCount < 26
    ensures d == 8 <==> noteCount < 8
  {
    if noteCount >= 58 then 0
    else if noteCount >= 38 then 1
    else if noteCount >= 26 then 2
    else if noteCount >= 8 then 4
    else 8
  }

  /** A denser bar is never divided more finely. */
  lemma BarDividerAntitone(m: nat, n: nat)
    requires m <= n
    ensures BarDivider(n) <= BarDivider(m)
  {
  }

  /**
   * How many steps to rotate at the end of a sub-beat: 1 by default; for a
   * sub-beat of at least two notes followed by a note, 3 when the gap to that
   * note is a bar or more and 2 when it is a quarter bar or more.
   */
  function RotationCount(beatNoteCount: nat, lastTime: real, nextTime: Option<real>, barLength: real): (r: int)
    ensures 1 <= r <= 3
    ensures r == 3 <==> beatNoteCount >= 2 && nextTime.Some? && nextTime.value - lastTime >= barLength
    ensures barLength >= 0.0 ==>
      (r >= 2 <==> beatNoteCount >= 2 && nextTime.Some? && nextTime.value - lastTime >= barLength / 4.0)
  {
    if nextTime.Some? && beatNoteCount >= 2 then
      var gap := nextTime.value - lastTime;
      if gap >= barLength then 3 else if gap >= barLength / 4.0 then 2 else 1
    else 1
  }

  predicate PointsLeft(d: CutDirection) { d == Left || d == UpLeft || d == DownLeft }

  predicate PointsRight(d: CutDirection) { d == Right || d == UpRight || d == DownRight }

  /** A note counted toward a left rotation: in the left half (lanes 0, 1) or cut leftward. */
  predicate LeansLeft(o: BeatmapObject)
  {
    o.Note? && (o.lineIndex <= 1 || PointsLeft(o.cutDirection))
  }

  /** A note counted toward a right rotation: in the right half (lanes 2, 3) or cut rightward. */
  predicate LeansRight(o: BeatmapObject)
  {
    o.Note? && (o.lineIndex >= 2 || PointsRight(o.cutDirection))
  }

  predicate CutsLeft(o: BeatmapObject) { o.Note? && PointsLeft(o.cutDirection) }

  predicate CutsRight(o: BeatmapObject) { o.Note? && PointsRight(o.cutDirection) }

  /** Number of elements of `s` satisfying `p` (LINQ `Count(p)`). */
  function Count(s: seq<BeatmapObject>, p: BeatmapObject -> bool): (n: nat)
    ensures n <= |s|
    ensures n == 0 <==> forall o :: o in s ==> !p(o)
  {
    if s == [] then 0 else (if p(s[0]) then 1 else 0) + Count(s[1..], p)
  }

  /**
   * The signed rotation for a sub-beat: toward the side more of its last notes
   * lean to; on a tie, back toward the centre once the total has reached the
   * bottleneck on either side, and otherwise in the previous direction.
   */
  function ChooseRotation(leftCount: nat, rightCount: nat, rotationCount: int, totalRotation: int,
                          bottleneckRotations: int, previousDirection: bool): (r: int)
    ensures r == rotationCount || r == -rotationCount
    ensures leftCount > rightCount ==> r == -rotationCount
    ensures rightCount > leftCount ==> r == rotationCount
    ensures leftCount == rightCount && totalRotation >= bottleneckRotations ==> r == -rotationCount
    ensures leftCount == rightCount && bottleneckRotations > totalRotation > -bottleneckRotations ==>
      (r == rotationCount <==> previousDirection || rotationCount == 0)
    ensures leftCount == rightCount && totalRotation <= -bottleneckRotations < -totalRotation ==> r == rotationCount
  {
    if leftCount > rightCount then -rotationCount
    else if rightCount > leftCount then rotationCount
    else if totalRotation >= bottleneckRotations then -rotationCount
    else if totalRotation <= -bottleneckRotations then rotationCount
    else if previousDirection then rotationCount else -rotationCount
  }

  /** The notes of `s` within 5 ms of `time`, in order: the last notes of a sub-beat. */
  function NotesNear(s: seq<BeatmapObject>, time: real): (r: seq<BeatmapObject>)
    ensures |r| <= |s|
    ensures forall o :: o in r <==> o in s && Abs(o.time - time) < 0.005
    ensures forall o :: multiset(r)[o] == if Abs(o.time - time) < 0.005 then multiset(s)[o] else 0
  {
    if s == [] then []
    else
      assert s == [s[0]] + s[1..];
      (if Abs(s[0].time - time) < 0.005 then [s[0]] else []) + NotesNear(s[1..], time)
  }

  /** A sub-beat's rotation is committed 0.01 seconds after its last note. */
  function RotationTime(lastNote: BeatmapObject): real
  {
    lastNote.time + 0.01
  }

  /**
   * The rotation committed after a non-empty sub-beat, given the note after
   * it: as many steps as the gap to that note calls for, toward the side its
   * last notes lean to. Neither the bottleneck dampening nor the near-limit
   * flip of `AdjustRotationCount` enters it.
   */
  function BeatRotation(beatNotes: seq<BeatmapObject>, after: Option<BeatmapObject>, barLength: real,
                        totalRotation: int, bottleneckRotations: int, previousDirection: bool): (r: int)
    requires |beatNotes| > 0
    ensures 1 <= r <= 3 || -3 <= r <= -1
    ensures var lastNotes := NotesNear(beatNotes, beatNotes[|beatNotes| - 1].time);
      Count(lastNotes, LeansLeft) > Count(lastNotes, LeansRight) ==> r < 0
    ensures var lastNotes := NotesNear(beatNotes, beatNotes[|beatNotes| - 1].time);
      Count(lastNotes, LeansRight) > Count(lastNotes, LeansLeft) ==> r > 0
    ensures (r == 3 || r == -3) <==>
      |beatNotes| >= 2 && after.Some? && after.value.time - beatNotes[|beatNotes| - 1].time >= barLength
  {
    var lastTime := beatNotes[|beatNotes| - 1].time;
    var lastNotes := NotesNear(beatNotes, lastTime);
    var nextTime := if after.Some? then Some(after.value.time) else None;
    ChooseRotation(Count(lastNotes, LeansLeft), Count(lastNotes, LeansRight),
                   RotationCount(|beatNotes|, lastTime, nextTime, barLength),
                   totalRotation, bottleneckRotations, previousDirection)
  }

  /**
   * The bottleneck dampening and near-limit flip applied to the rotation count
   * after the rotation has been chosen. Only the count changes; the rotation
   * handed to `Rotate` is the one chosen before (see `BeatRotation`).
   * Magnitude: a count beyond 1 past the bottleneck on its own side is
   * dampened to 1, any other count keeps its size. Sign: a count toward a
   * side whose limit is within one step is flipped, any other keeps its sign.
   */
  function AdjustRotationCount(rotationCount: int, totalRotation: int,
                               bottleneckRotations: int, limitRotations: int): (r: int)
    ensures rotationCount == 0 ==> r == 0
    ensures rotationCount > 1 && totalRotation >= bottleneckRotations ==> r == 1 || r == -1
    ensures rotationCount < -1 && totalRotation <= -bottleneckRotations ==> r == 1 || r == -1
    ensures (rotationCount <= 1 || totalRotation < bottleneckRotations) &&
            (rotationCount >= -1 || totalRotation > -bottleneckRotations) ==>
              r == rotationCount || r == -rotationCount
    ensures rotationCount > 0 ==> (r < 0 <==> totalRotation >= limitRotations - 1)
    ensures rotationCount < 0 ==> (r > 0 <==> totalRotation <= -limitRotations + 1)
  {
    var c :=
      if totalRotation >= bottleneckRotations && rotationCount > 1 then 1
      else if totalRotation <= -bottleneckRotations && rotationCount < -1 then -1
      else rotationCount;
    if totalRotation >= limitRotations - 1 && c > 0 then -c
    else if totalRotation <= -limitRotations + 1 && c < 0 then -c
    else c
  }

  /**
   * Direction of a spin: opposite to the previous rotation when as many notes
   * cut left as right, otherwise toward the side more notes cut to.
   */
  function SpinDirection(leftCount: nat, rightCount: nat, previousDirection: bool): (d: int)
    ensures d == 1 || d == -1
    ensures leftCount == rightCount ==> (d == 1 <==> !previousDirection)
    ensures leftCount != rightCount ==> (d == 1 <==> rightCount > leftCount)
  {
    if leftCount == rightCount then (if previousDirection then -1 else 1)
    else if leftCount > rightCount then -1
    else 1
  }

  function Abs(x: real): real { if x < 0.0 then -x else x }

  /** Every note lies within 1 ms of the first one. */
  predicate Simultaneous(bar: seq<BeatmapObject>)
  {
    |bar| > 0 && forall o :: o in bar ==> Abs(o.time - bar[0].time) < 0.001
  }

  /**
   * The spin flourish fires when spinning is enabled, the bar holds at least
   * two (non-bomb) notes that are all simultaneous, and the cooldown since the
   * previous spin has passed.
   */
  predicate SpinTriggers(enableSpin: bool, bar: seq<BeatmapObject>, barStart: real,
                         previousSpinTime: real, spinCooldown: real)
  {
    enableSpin && |bar| >= 2 && barStart - previousSpinTime > spinCooldown && Simultaneous(bar)
  }

  // ---------------------------------------------------------------------------
  // One-saber reduction

  /**
   * The note mirroring of the beatmap library (`MirrorLineIndex`), whose body
   * is not part of this model: it maps lane, cut direction and colour, given
   * the lane count, to new ones.
   */
  type Mirror = (int, CutDirection, ColorType, int) -> (int, CutDirection, ColorType)

  /** The colour of the saber that is dropped on a rotation: A on a right turn, B otherwise. */
  function DroppedColor(rotation: int): ColorType
  {
    if rotation > 0 then ColorA else ColorB
  }

  /**
   * A note of the sub-beat after the one-saber reduction: a note of the dropped
   * colour is marked for removal (time 0); a colour-B note that is kept is
   * mirrored; any other note is unchanged. Time and layer survive mirroring.
   */
  function OneSaberNote(n: BeatmapObject, rotation: int, numberOfLines: int, mirror: Mirror): (r: BeatmapObject)
    requires n.Note?
    ensures r.Note? && r.noteLineLayer == n.noteLineLayer
    ensures n.colorType == DroppedColor(rotation) ==> r == WithTime(n, 0.0)
    ensures n.colorType != DroppedColor(rotation) ==> r.time == n.time
    ensures n.colorType != DroppedColor(rotation) && n.colorType != ColorB ==> r == n
    ensures n.colorType == ColorB && n.colorType != DroppedColor(rotation) ==>
      (r.lineIndex, r.cutDirection, r.colorType) == mirror(n.lineIndex, n.cutDirection, n.colorType, numberOfLines)
  {
    if n.colorType == DroppedColor(rotation) then WithTime(n, 0.0)
    else if n.colorType == ColorB then
      var (lineIndex, cutDirection, colorType) := mirror(n.lineIndex, n.cutDirection, n.colorType, numberOfLines);
      Note(n.time, lineIndex, n.noteLineLayer, cutDirection, colorType)
    else n
  }

  /** On a left turn no note is mirrored: colour B is dropped and every other note stays as it is. */
  lemma OneSaberLeftTurn(n: BeatmapObject, rotation: int, numberOfLines: int, mirror: Mirror)
    requires n.Note? && rotation <= 0
    ensures OneSaberNote(n, rotation, numberOfLines, mirror) ==
      if n.colorType == ColorB then WithTime(n, 0.0) else n
  {
  }
}
