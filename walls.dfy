/**
 * Obstacle adjustment against the rotation moments: the cut of one wall by
 * one moment, the cut of one wall by all moments (a fold that may split off
 * tails), the termination measure of the wall worklist, bomb removal, and the
 * walls the wall generator adds for a sub-beat.
 */
module Walls {
  import opened ModBeatmap

  /** A wall-cut moment: when a rotation was emitted and its signed amount. */
  datatype Moment = Moment(time: real, amount: int)

  function End(ob: BeatmapObject): real
    requires ob.Obstacle?
  {
    ob.time + ob.duration
  }

  /**
   * A wall that is uncomfortable in 360-degree play: a wall in one of the two
   * middle lanes, or a wide wall starting in lane 0, unless custom-positioned.
   */
  predicate Incompatible(ob: BeatmapObject)
    requires ob.Obstacle?
  {
    !ob.hasPosition && (ob.lineIndex == 1 || ob.lineIndex == 2 || (ob.lineIndex == 0 && ob.width > 1))
  }

  /** The play space turns toward this wall: left walls on a left turn, right walls on a right turn. */
  predicate Towards(ob: BeatmapObject, amount: int)
    requires ob.Obstacle?
  {
    ob.hasPosition || (ob.lineIndex <= 1 && amount < 0) || (ob.lineIndex >= 2 && amount > 0)
  }

  /** Two obstacles of the same lane, kind, width and custom-position flag. */
  predicate SameWall(a: BeatmapObject, b: BeatmapObject)
  {
    a.Obstacle? && b.Obstacle? && a.lineIndex == b.lineIndex && a.obstacleType == b.obstacleType
    && a.width == b.width && a.hasPosition == b.hasPosition
  }

  function RealMax(a: real, b: real): real { if a >= b then a else b }

  function AbsInt(x: int): nat { if x < 0 then -x else x }

  /** The wall after one moment, and the tail split off it, if any. */
  datatype Cut = Cut(wall: BeatmapObject, tail: Option<BeatmapObject>)

  /** The margin kept free after a moment: none for a custom-positioned wall. */
  function FrontMargin(ob: BeatmapObject, wallFrontCut: real): real
    requires ob.Obstacle?
  {
    if ob.hasPosition then 0.0 else wallFrontCut
  }

  /** The margin kept free before a moment, once per step of the turn: none for a custom-positioned wall. */
  function BackMargin(ob: BeatmapObject, m: Moment, wallBackCut: real): real
    requires ob.Obstacle?
  {
    (if ob.hasPosition then 0.0 else wallBackCut) * AbsInt(m.amount) as real
  }

  /** The moment falls in [start - front margin, end + back margin) of the wall. */
  predicate InCutWindow(ob: BeatmapObject, m: Moment, wallFrontCut: real, wallBackCut: real)
    requires ob.Obstacle?
  {
    m.time >= ob.time - FrontMargin(ob, wallFrontCut) && m.time < End(ob) + BackMargin(ob, m, wallBackCut)
  }

  /**
   * One moment applied to one wall. A wall of non-positive duration is left
   * alone; an incompatible wall gets duration 0; a wall the play space turns
   * toward, with the moment in its cut window, loses the part between
   * `moment - back margin` and `moment + front margin`: the head before it
   * keeps its start (clipped at length 0) and the part after it survives,
   * as the wall itself when the head is negligible (at most 0.01 s) and as
   * a new tail wall otherwise, provided it is longer than 0.01 s. Every
   * other wall is left alone.
   */
  function CutStep(ob: BeatmapObject, m: Moment, wallFrontCut: real, wallBackCut: real): (r: Cut)
    requires ob.Obstacle?
    ensures SameWall(ob, r.wall)
    ensures r.tail.Some? ==> SameWall(ob, r.tail.value)
    ensures ob.duration <= 0.0 ==> r == Cut(ob, None)
    ensures ob.duration > 0.0 && Incompatible(ob) ==> r == Cut(Resized(ob, ob.time, 0.0), None)
    ensures ob.duration > 0.0 && !Incompatible(ob) && !Towards(ob, m.amount) ==> r == Cut(ob, None)
    ensures ob.duration > 0.0 && !Incompatible(ob) && !InCutWindow(ob, m, wallFrontCut, wallBackCut) ==> r == Cut(ob, None)
    ensures r.wall.time >= ob.time && End(r.wall) <= End(ob)
    ensures ob.duration > 0.0 ==> r.wall.duration <= ob.duration
    ensures r.tail.Some? ==> r.wall.time == ob.time && r.wall.duration >= 0.0
    ensures r.tail.Some? ==> r.tail.value.duration > 0.01 && End(r.tail.value) == End(ob)
    ensures r.tail.Some? && wallFrontCut >= 0.0 && wallBackCut >= 0.0 ==> r.tail.value.time > ob.time + 0.01
    // The cut itself, for a compatible wall the turn goes toward, with the moment in its window.
    ensures ob.duration > 0.0 && !Incompatible(ob) && Towards(ob, m.amount) && InCutWindow(ob, m, wallFrontCut, wallBackCut) ==>
      var front, back := FrontMargin(ob, wallFrontCut), BackMargin(ob, m, wallBackCut);
      // no piece of positive length is left between the two margins
      && (r.wall.duration > 0.0 ==> End(r.wall) <= m.time - back || r.wall.time >= m.time + front)
      // a split keeps the head at the wall's start, clipped at length 0, and the tail starts after the front margin
      && (r.tail.Some? ==> r.wall.duration == RealMax(m.time - back - ob.time, 0.0)
                           && r.tail.value.time == m.time + front)
      // a head longer than 0.01 s survives as the wall
      && (m.time - back - ob.time > 0.01 ==> r.wall.time == ob.time && End(r.wall) == m.time - back)
      // a part after the front margin longer than 0.01 s survives, as the wall or as the tail
      && (End(ob) - (m.time + front) > 0.01 ==>
            (r.wall.time == m.time + front && End(r.wall) == End(ob))
            || (r.tail.Some? && r.tail.value.time == m.time + front))
  {
    if ob.duration <= 0.0 then Cut(ob, None)
    else if Incompatible(ob) then Cut(Resized(ob, ob.time, 0.0), None)
    else if Towards(ob, m.amount) && InCutWindow(ob, m, wallFrontCut, wallBackCut) then
      var frontCut, backCut := FrontMargin(ob, wallFrontCut), BackMargin(ob, m, wallBackCut);
      var firstPartTime := ob.time;
      var firstPartDuration := (m.time - backCut) - firstPartTime;
      var secondPartTime := m.time + frontCut;
      var secondPartDuration := (ob.time + ob.duration) - secondPartTime;
      if secondPartDuration > 0.0 && firstPartDuration <= 0.01 then
        Cut(Resized(ob, secondPartTime, secondPartDuration), None)
      else
        var tail :=
          if secondPartDuration > 0.01
          then Some(Obstacle(secondPartTime, ob.lineIndex, ob.obstacleType, secondPartDuration,
                             ob.width, ob.hasPosition))
          else None;
        assert wallBackCut >= 0.0 ==> backCut >= 0.0;
        Cut(Resized(ob, firstPartTime, RealMax(firstPartDuration, 0.0)), tail)
    else Cut(ob, None)
  }

  /** The wall after all moments (in emission order), and the tails split off on the way, in order. */
  datatype CutOutcome = CutOutcome(wall: BeatmapObject, tails: seq<BeatmapObject>)

  function OptionSeq(o: Option<BeatmapObject>): seq<BeatmapObject>
  {
    if o.Some? then [o.value] else []
  }

  /** The moments applied one after the other (the inner `foreach` of the wall pass). */
  function CutAll(ob: BeatmapObject, moments: seq<Moment>, wallFrontCut: real, wallBackCut: real): CutOutcome
    requires ob.Obstacle?
    decreases |moments|
  {
    if moments == [] then CutOutcome(ob, [])
    else
      var r := CutStep(ob, moments[0], wallFrontCut, wallBackCut);
      var rest := CutAll(r.wall, moments[1..], wallFrontCut, wallBackCut);
      CutOutcome(rest.wall, OptionSeq(r.tail) + rest.tails)
  }

  /** A proof aid: concatenation regroups. */
  lemma Regroup<T>(a: seq<T>, b: seq<T>, c: seq<T>)
    ensures a + b + c == a + (b + c)
  {
  }

  /**
   * One step of the fold: after the moments before `j`, cutting the wall by
   * moment `j` and then the rest gives the same wall and tails.
   */
  lemma CutAllStep(ob: BeatmapObject, moments: seq<Moment>, j: nat, wall: BeatmapObject, tails: seq<BeatmapObject>,
                   wallFrontCut: real, wallBackCut: real)
    requires ob.Obstacle? && wall.Obstacle? && j < |moments|
    requires var rest := CutAll(wall, moments[j..], wallFrontCut, wallBackCut);
      CutAll(ob, moments, wallFrontCut, wallBackCut) == CutOutcome(rest.wall, tails + rest.tails)
    ensures var c := CutStep(wall, moments[j], wallFrontCut, wallBackCut);
      var rest := CutAll(c.wall, moments[j + 1..], wallFrontCut, wallBackCut);
      && c.wall.Obstacle?
      && CutAll(ob, moments, wallFrontCut, wallBackCut) == CutOutcome(rest.wall, tails + OptionSeq(c.tail) + rest.tails)
  {
    var c := CutStep(wall, moments[j], wallFrontCut, wallBackCut);
    var rest := CutAll(c.wall, moments[j + 1..], wallFrontCut, wallBackCut);
    assert moments[j..][1..] == moments[j + 1..];
    assert CutAll(wall, moments[j..], wallFrontCut, wallBackCut) == CutOutcome(rest.wall, OptionSeq(c.tail) + rest.tails);
    Regroup(tails, OptionSeq(c.tail), rest.tails);
  }

  /**
   * What the wall pass does to one wall: a wall of non-positive duration is
   * untouched; an incompatible wall ends with duration 0 and no tail as soon
   * as there is a moment; every tail is a wall of the same lane and kind,
   * longer than 0.01 s, ending no later than the wall did and (with
   * non-negative margins) starting more than 0.01 s after it; there is at
   * most one tail per moment and the wall itself never grows.
   */
  lemma {:induction false} CutAllFacts(ob: BeatmapObject, moments: seq<Moment>, wallFrontCut: real, wallBackCut: real)
    requires ob.Obstacle?
    decreases |moments|
    ensures var out := CutAll(ob, moments, wallFrontCut, wallBackCut);
      && SameWall(ob, out.wall)
      && |out.tails| <= |moments|
      && out.wall.time >= ob.time && End(out.wall) <= End(ob)
      && (ob.duration <= 0.0 ==> out == CutOutcome(ob, []))
      && (ob.duration > 0.0 ==> out.wall.duration <= ob.duration)
      && (ob.duration > 0.0 && Incompatible(ob) && moments != [] ==>
            out.wall.duration == 0.0 && out.tails == [])
      && (forall t :: t in out.tails ==> SameWall(ob, t) && t.duration > 0.01 && End(t) <= End(ob))
      && (wallFrontCut >= 0.0 && wallBackCut >= 0.0 ==>
            forall t :: t in out.tails ==> t.time > ob.time + 0.01)
  {
    if moments != [] {
      var r := CutStep(ob, moments[0], wallFrontCut, wallBackCut);
      CutAllFacts(r.wall, moments[1..], wallFrontCut, wallBackCut);
      if ob.duration > 0.0 && Incompatible(ob) {
        assert r.wall.duration == 0.0;
        assert CutAll(r.wall, moments[1..], wallFrontCut, wallBackCut) == CutOutcome(r.wall, []);
      }
    }
  }

  // ---------------------------------------------------------------------------
  // Termination of the wall worklist

  /** A wall's size in units of 0.01 s (0 for non-positive durations and for notes). */
  function Level(o: BeatmapObject): nat
  {
    if o.Obstacle? && o.duration > 0.0 then (100.0 * o.duration).Floor else 0
  }

  lemma LevelDrops(t: BeatmapObject, ob: BeatmapObject)
    requires t.Obstacle? && ob.Obstacle?
    requires t.duration > 0.01 && t.duration <= ob.duration - 0.01
    ensures Level(t) < Level(ob)
  {
    assert 100.0 * t.duration <= 100.0 * ob.duration - 1.0;
    assert (100.0 * t.duration).Floor <= (100.0 * ob.duration - 1.0).Floor;
    assert (100.0 * ob.duration - 1.0).Floor == (100.0 * ob.duration).Floor - 1;
  }

  function Power(b: nat, e: nat): (p: nat)
    ensures b > 0 ==> p > 0
  {
    if e == 0 then 1 else b * Power(b, e - 1)
  }

  lemma PowerMonotone(b: nat, e: nat, f: nat)
    requires b > 0 && e <= f
    ensures Power(b, e) <= Power(b, f)
    decreases f
  {
    if e < f {
      PowerMonotone(b, e, f - 1);
    }
  }

  /** The weight of a list of walls: the sum of `base^Level` over its walls. */
  function Weigh(s: seq<BeatmapObject>, base: nat): nat
  {
    if s == [] then 0 else Power(base, Level(s[0])) + Weigh(s[1..], base)
  }

  /** The weight of the walls a queue of indices names. */
  function QueueWeight(objects: seq<BeatmapObject>, queue: seq<nat>, base: nat): nat
  {
    if queue == [] then 0
    else (if queue[0] < |objects| then Power(base, Level(objects[queue[0]])) else 0)
         + QueueWeight(objects, queue[1..], base)
  }

  lemma {:induction false} QueueWeightAppend(objects: seq<BeatmapObject>, q1: seq<nat>, q2: seq<nat>, base: nat)
    ensures QueueWeight(objects, q1 + q2, base) == QueueWeight(objects, q1, base) + QueueWeight(objects, q2, base)
  {
    if q1 == [] {
      assert q1 + q2 == q2;
    } else {
      assert (q1 + q2)[0] == q1[0];
      assert (q1 + q2)[1..] == q1[1..] + q2;
      QueueWeightAppend(objects, q1[1..], q2, base);
    }
  }

  lemma {:induction false} QueueWeightFrame(o1: seq<BeatmapObject>, o2: seq<BeatmapObject>, queue: seq<nat>, base: nat)
    requires forall q :: 0 <= q < |queue| ==> queue[q] < |o1| && queue[q] < |o2| && o1[queue[q]] == o2[queue[q]]
    ensures QueueWeight(o1, queue, base) == QueueWeight(o2, queue, base)
  {
    if queue != [] {
      assert forall q :: 0 <= q < |queue| - 1 ==> queue[1..][q] == queue[q + 1];
      QueueWeightFrame(o1, o2, queue[1..], base);
    }
  }

  /** The indices `from, from + 1, ..., from + count - 1`. */
  function Range(from: nat, count: nat): (r: seq<nat>)
    ensures |r| == count
    ensures forall p :: 0 <= p < count ==> r[p] == from + p
    decreases count
  {
    if count == 0 then [] else [from] + Range(from + 1, count - 1)
  }

  lemma {:induction false} QueueWeightRange(prefix: seq<BeatmapObject>, tails: seq<BeatmapObject>, base: nat)
    ensures QueueWeight(prefix + tails, Range(|prefix|, |tails|), base) == Weigh(tails, base)
    decreases |tails|
  {
    if tails != [] {
      var prefix' := prefix + [tails[0]];
      assert prefix' + tails[1..] == prefix + tails;
      assert Range(|prefix|, |tails|)[1..] == Range(|prefix'|, |tails[1..]|);
      QueueWeightRange(prefix', tails[1..], base);
    }
  }

  lemma {:induction false} WeighSum(tails: seq<BeatmapObject>, base: nat, level: nat)
    requires base > 0
    requires forall t :: t in tails ==> Level(t) <= level
    ensures Weigh(tails, base) <= |tails| * Power(base, level)
  {
    if tails != [] {
      WeighSum(tails[1..], base, level);
      PowerMonotone(base, Level(tails[0]), level);
      Distribute(|tails| - 1, Power(base, level));
    }
  }

  lemma Distribute(n: nat, p: nat)
    ensures n * p + p == (n + 1) * p
  {
  }

  lemma MulBelow(k: nat, base: nat, p: nat)
    requires k < base && p > 0
    ensures k * p < base * p
  {
  }

  /** At most `base - 1` walls, each below level `level`, weigh less than one wall of level `level`. */
  lemma WeighBound(tails: seq<BeatmapObject>, base: nat, level: nat)
    requires level > 0 && |tails| < base
    requires forall t :: t in tails ==> Level(t) < level
    ensures Weigh(tails, base) < Power(base, level)
  {
    WeighSum(tails, base, level - 1);
    MulBelow(|tails|, base, Power(base, level - 1));
  }

  /**
   * Processing one wall of the worklist makes its weight strictly smaller:
   * the tails it spawns (at most one per moment, each at least 0.01 s shorter
   * than the wall) weigh less than the wall did.
   */
  lemma CutShrinksWeight(ob: BeatmapObject, moments: seq<Moment>, wallFrontCut: real, wallBackCut: real)
    requires ob.Obstacle? && wallFrontCut >= 0.0 && wallBackCut >= 0.0
    ensures Weigh(CutAll(ob, moments, wallFrontCut, wallBackCut).tails, |moments| + 1)
            < Power(|moments| + 1, Level(ob))
  {
    var out := CutAll(ob, moments, wallFrontCut, wallBackCut);
    CutAllFacts(ob, moments, wallFrontCut, wallBackCut);
    if out.tails == [] {
      assert Weigh(out.tails, |moments| + 1) == 0;
    } else {
      forall t | t in out.tails ensures Level(t) < Level(ob) {
        LevelDrops(t, ob);
      }
      assert Level(out.tails[0]) < Level(ob);
      WeighBound(out.tails, |moments| + 1, Level(ob));
    }
  }

  // ---------------------------------------------------------------------------
  // Bombs

  /**
   * A moment that removes a bomb: the bomb lies in [moment - frontCut,
   * moment + backCut) and the turn goes toward its lane (lanes 0-2 on a left
   * turn, lanes 1-3 on a right turn).
   */
  predicate BombHit(time: real, lineIndex: int, m: Moment, wallFrontCut: real, wallBackCut: real)
  {
    time >= m.time - wallFrontCut && time < m.time + wallBackCut
    && ((lineIndex <= 2 && m.amount < 0) || (lineIndex >= 1 && m.amount > 0))
  }

  predicate AnyBombHit(o: BeatmapObject, moments: seq<Moment>, wallFrontCut: real, wallBackCut: real)
  {
    exists m :: m in moments && BombHit(o.time, o.lineIndex, m, wallFrontCut, wallBackCut)
  }

  /** An object after bomb removal: a hit bomb gets time 0 (removed later), anything else is unchanged. */
  function ClearBomb(o: BeatmapObject, moments: seq<Moment>, wallFrontCut: real, wallBackCut: real): (r: BeatmapObject)
    ensures !o.IsBomb() ==> r == o
    ensures o.IsBomb() ==> r == if AnyBombHit(o, moments, wallFrontCut, wallBackCut) then WithTime(o, 0.0) else o
  {
    if o.IsBomb() && AnyBombHit(o, moments, wallFrontCut, wallBackCut) then WithTime(o, 0.0) else o
  }

  // ---------------------------------------------------------------------------
  // Wall generation

  predicate InLane(beatNotes: seq<BeatmapObject>, lane: int)
  {
    exists n :: n in beatNotes && n.lineIndex == lane
  }

  /**
   * The duration variable after the side in `lane` (next to `innerLane`):
   * unchanged when a note of the sub-beat sits in the lane; otherwise set to
   * end `wallBackCut` before the next note when that note is in the lane and
   * would not pass under a `Top` wall at the base layer.
   */
  function SideDuration(beatNotes: seq<BeatmapObject>, after: BeatmapObject, lane: int, innerLane: int,
                        wallTime: real, wallDuration: real, wallBackCut: real): (d: real)
    requires after.Note?
    ensures InLane(beatNotes, lane) || after.lineIndex != lane ==> d == wallDuration
    ensures !InLane(beatNotes, lane) && after.lineIndex == lane ==>
      d == if InLane(beatNotes, innerLane) && after.noteLineLayer == Base then wallDuration
           else after.time - wallBackCut - wallTime
  {
    if InLane(beatNotes, lane) then wallDuration
    else if after.lineIndex == lane && !(InLane(beatNotes, innerLane) && after.noteLineLayer == Base)
    then after.time - wallBackCut - wallTime
    else wallDuration
  }

  /**
   * One generated wall of the wall generator, in `lane` (0 or 3) next to
   * `innerLane` (1 or 2), and the wall duration for the next side (the source
   * shares one duration variable between both sides). A wall is produced
   * exactly when no note of the sub-beat sits in the lane and its duration
   * is positive; it is a `Top` wall when the inner lane holds a note, and is
   * trimmed to end `wallBackCut` before the next note when that note is in
   * the same lane and not passed under a `Top` wall at the base layer.
   */
  function SideWall(beatNotes: seq<BeatmapObject>, after: BeatmapObject, lane: int, innerLane: int,
                    wallTime: real, wallDuration: real, wallBackCut: real): (r: (Option<BeatmapObject>, real))
    requires after.Note?
    ensures r.1 == SideDuration(beatNotes, after, lane, innerLane, wallTime, wallDuration, wallBackCut)
    ensures r.0.Some? <==> !InLane(beatNotes, lane) && r.1 > 0.0
    ensures r.0.Some? ==> var w := r.0.value;
      && w.Obstacle? && w.time == wallTime && w.lineIndex == lane && w.width == 1 && !w.hasPosition
      && w.duration == r.1
      && (w.obstacleType == Top <==> InLane(beatNotes, innerLane))
      && (if after.lineIndex == lane && !(w.obstacleType == Top && after.noteLineLayer == Base)
          then End(w) == after.time - wallBackCut else w.duration == wallDuration)
  {
    if InLane(beatNotes, lane) then (None, wallDuration)
    else
      var obstacleType := if InLane(beatNotes, innerLane) then Top else FullHeight;
      var duration :=
        if after.lineIndex == lane && !(obstacleType == Top && after.noteLineLayer == Base)
        then after.time - wallBackCut - wallTime else wallDuration;
      (if duration > 0.0 then Some(Obstacle(wallTime, lane, obstacleType, duration, 1, false)) else None,
       duration)
  }

  /** The generated wall in `lane`, if any. */
  predicate WallIn(walls: seq<BeatmapObject>, lane: int)
  {
    exists w :: w in walls && w.lineIndex == lane
  }

  /**
   * The walls generated for a sub-beat: the right one (lane 3) first, then
   * the left one (lane 0), the left side starting from the duration the right
   * side left behind. Each side has a wall exactly when no note of the
   * sub-beat is in its lane and its duration is positive.
   */
  function GeneratedWalls(beatNotes: seq<BeatmapObject>, after: BeatmapObject,
                          wallTime: real, wallDuration: real, wallBackCut: real): (walls: seq<BeatmapObject>)
    requires after.Note?
    ensures |walls| <= 2
    ensures forall w :: w in walls ==>
      && w.Obstacle? && w.time == wallTime && (w.lineIndex == 0 || w.lineIndex == 3) && w.width == 1
      && !w.hasPosition && w.duration > 0.0 && !InLane(beatNotes, w.lineIndex)
    ensures var right := SideDuration(beatNotes, after, 3, 2, wallTime, wallDuration, wallBackCut);
      var left := SideDuration(beatNotes, after, 0, 1, wallTime, right, wallBackCut);
      && (WallIn(walls, 3) <==> !InLane(beatNotes, 3) && right > 0.0)
      && (WallIn(walls, 0) <==> !InLane(beatNotes, 0) && left > 0.0)
      && (forall w :: w in walls && w.lineIndex == 3 ==> w.duration == right && (w.obstacleType == Top <==> InLane(beatNotes, 2)))
      && (forall w :: w in walls && w.lineIndex == 0 ==> w.duration == left && (w.obstacleType == Top <==> InLane(beatNotes, 1)))
    ensures |walls| == 2 ==> walls[0].lineIndex == 3 && walls[1].lineIndex == 0
  {
    var (right, d) := SideWall(beatNotes, after, 3, 2, wallTime, wallDuration, wallBackCut);
    var (left, _) := SideWall(beatNotes, after, 0, 1, wallTime, d, wallBackCut);
    OptionSeq(right) + OptionSeq(left)
  }

  /** `o` is an obstacle that overlaps the slot [wallTime, wallTime + wallDuration): it ends at or after the slot's start and starts before its end. */
  predicate Overlaps(o: BeatmapObject, wallTime: real, wallDuration: real)
  {
    o.Obstacle? && o.time + o.duration >= wallTime && o.time < wallTime + wallDuration
  }
}
