/**
 * The wall pass of the generator, over values: the invariant and the
 * termination measure of the wall worklist, what each wall becomes, the
 * objects the pass deals with, and what the final passes keep.
 */
module WallWorklist {
  import opened TimeOrder
  import opened ModBeatmap
  import opened Walls
  import opened Arena

  /** A wall the wall pass has dealt with: it is not an incompatible wall of positive length, unless nothing rotated. */
  predicate Settled(o: BeatmapObject, moments: seq<Moment>)
  {
    o.Obstacle? ==> !(Incompatible(o) && o.duration > 0.0 && moments != [])
  }

  /** Replacing the wall at the head of the worklist by its cut and queueing its tails lowers the worklist's weight. */
  lemma WorklistWeightDrops(objects: seq<BeatmapObject>, queue: seq<nat>, wall: BeatmapObject,
                            tails: seq<BeatmapObject>, base: nat)
    requires queue != [] && Increasing(queue) && forall q :: 0 <= q < |queue| ==> queue[q] < |objects|
    requires Weigh(tails, base) < Power(base, Level(objects[queue[0]]))
    ensures QueueWeight(objects[queue[0] := wall] + tails, queue[1..] + Range(|objects|, |tails|), base)
            < QueueWeight(objects, queue, base)
  {
    var idx, rest := queue[0], queue[1..];
    var after := objects[idx := wall] + tails;
    assert QueueWeight(objects, queue, base) == Power(base, Level(objects[idx])) + QueueWeight(objects, rest, base);
    QueueWeightAppend(after, rest, Range(|objects|, |tails|), base);
    QueueWeightRest(objects, queue, wall, tails, base);
    QueueWeightRange(objects[idx := wall], tails, base);
  }

  /** The rest of the worklist weighs the same after its head wall is replaced and tails are appended. */
  lemma QueueWeightRest(objects: seq<BeatmapObject>, queue: seq<nat>, wall: BeatmapObject,
                        tails: seq<BeatmapObject>, base: nat)
    requires queue != [] && Increasing(queue) && forall q :: 0 <= q < |queue| ==> queue[q] < |objects|
    ensures QueueWeight(objects[queue[0] := wall] + tails, queue[1..], base) == QueueWeight(objects, queue[1..], base)
  {
    var idx, rest := queue[0], queue[1..];
    var after := objects[idx := wall] + tails;
    forall q | 0 <= q < |rest| ensures rest[q] < |objects| && rest[q] < |after| && objects[rest[q]] == after[rest[q]] {
      assert rest[q] == queue[q + 1] && idx < queue[q + 1];
    }
    QueueWeightFrame(objects, after, rest, base);
  }

  /** The objects after one worklist step: the head wall replaced by its cut, the tails appended. */
  function AfterStep(objects: seq<BeatmapObject>, queue: seq<nat>, wall: BeatmapObject, tails: seq<BeatmapObject>): seq<BeatmapObject>
    requires queue != [] && queue[0] < |objects|
  {
    objects[queue[0] := wall] + tails
  }

  /** The worklist after one step: the head dropped, the positions of the tails appended. */
  function QueueAfterStep(objects: seq<BeatmapObject>, queue: seq<nat>, tails: seq<BeatmapObject>): seq<nat>
    requires queue != []
  {
    queue[1..] + Range(|objects|, |tails|)
  }

  /** A wall cut against at least one moment is settled. */
  lemma CutSettles(ob: BeatmapObject, moments: seq<Moment>, wallFrontCut: real, wallBackCut: real)
    requires ob.Obstacle?
    ensures Settled(CutAll(ob, moments, wallFrontCut, wallBackCut).wall, moments)
  {
    CutAllFacts(ob, moments, wallFrontCut, wallBackCut);
  }

  // ---------------------------------------------------------------------------
  // What the wall pass computes

  /** An object after the wall pass: a wall cut against every moment in turn, a note as it was. */
  function FinalWall(o: BeatmapObject, moments: seq<Moment>, wallFrontCut: real, wallBackCut: real): (r: BeatmapObject)
    ensures r.Note? <==> o.Note?
    ensures o.Note? ==> r == o
    ensures o.Obstacle? ==> SameWall(o, r) && r.time >= o.time && End(r) <= End(o)
  {
    if o.Obstacle? then
      CutAllFacts(o, moments, wallFrontCut, wallBackCut);
      CutAll(o, moments, wallFrontCut, wallBackCut).wall
    else o
  }

  /** Every object of `origin` after the wall pass, position by position. */
  function Finals(origin: seq<BeatmapObject>, moments: seq<Moment>, wallFrontCut: real, wallBackCut: real)
    : (r: seq<BeatmapObject>)
    ensures |r| == |origin|
    ensures forall x :: 0 <= x < |origin| ==> r[x] == FinalWall(origin[x], moments, wallFrontCut, wallBackCut)
  {
    seq(|origin|, x requires 0 <= x < |origin| => FinalWall(origin[x], moments, wallFrontCut, wallBackCut))
  }

  /** Every object of `s` after the bomb pass, position by position. */
  function ClearBombs(s: seq<BeatmapObject>, moments: seq<Moment>, wallFrontCut: real, wallBackCut: real)
    : (r: seq<BeatmapObject>)
    ensures |r| == |s|
    ensures forall x :: 0 <= x < |s| ==> r[x] == ClearBomb(s[x], moments, wallFrontCut, wallBackCut)
  {
    seq(|s|, x requires 0 <= x < |s| => ClearBomb(s[x], moments, wallFrontCut, wallBackCut))
  }

  /** The tails the wall pass splits off the walls at positions below `hi` of `origin`, wall by wall in position order. */
  function SpawnedTails(origin: seq<BeatmapObject>, hi: nat, moments: seq<Moment>, wallFrontCut: real,
                        wallBackCut: real): seq<BeatmapObject>
    requires hi <= |origin|
  {
    if hi == 0 then []
    else
      var own := if origin[hi - 1].Obstacle? then CutAll(origin[hi - 1], moments, wallFrontCut, wallBackCut).tails else [];
      SpawnedTails(origin, hi - 1, moments, wallFrontCut, wallBackCut) + own
  }

  /**
   * `origin` lists, uncut, every object the wall pass dealt with, starting
   * from the beatmap `objects0`: its objects, followed by the tails split off
   * the walls of `origin` in position order (a tail's own tails come later).
   */
  ghost predicate WallPass(objects0: seq<BeatmapObject>, origin: seq<BeatmapObject>, moments: seq<Moment>,
                           wallFrontCut: real, wallBackCut: real)
  {
    && |objects0| <= |origin|
    && origin[..|objects0|] == objects0
    && origin[|objects0|..] == SpawnedTails(origin, |origin|, moments, wallFrontCut, wallBackCut)
  }

  /** The tails split off below `hi` depend on the first `hi` objects only. */
  lemma {:induction false} SpawnedTailsFrame(a: seq<BeatmapObject>, b: seq<BeatmapObject>, hi: nat,
                                             moments: seq<Moment>, wallFrontCut: real, wallBackCut: real)
    requires hi <= |a| && hi <= |b| && a[..hi] == b[..hi]
    ensures SpawnedTails(a, hi, moments, wallFrontCut, wallBackCut) == SpawnedTails(b, hi, moments, wallFrontCut, wallBackCut)
  {
    if hi > 0 {
      assert a[hi - 1] == a[..hi][hi - 1] && b[hi - 1] == b[..hi][hi - 1];
      assert a[..hi - 1] == a[..hi][..hi - 1] && b[..hi - 1] == b[..hi][..hi - 1];
      SpawnedTailsFrame(a, b, hi - 1, moments, wallFrontCut, wallBackCut);
    }
  }

  /** Notes split nothing off. */
  lemma {:induction false} SpawnedTailsSkip(origin: seq<BeatmapObject>, lo: nat, hi: nat, moments: seq<Moment>,
                                            wallFrontCut: real, wallBackCut: real)
    requires lo <= hi <= |origin|
    requires forall x :: lo <= x < hi ==> !origin[x].Obstacle?
    ensures SpawnedTails(origin, hi, moments, wallFrontCut, wallBackCut) ==
            SpawnedTails(origin, lo, moments, wallFrontCut, wallBackCut)
    decreases hi
  {
    if hi > lo {
      SpawnedTailsSkip(origin, lo, hi - 1, moments, wallFrontCut, wallBackCut);
    }
  }

  /**
   * Where the wall worklist stands, relative to `origin`, the uncut object at
   * each position: positions below `p` are done, each holding its uncut
   * object after the wall pass; from `p` on the objects are still uncut and
   * every wall among them is queued, once, in position order; the tails
   * appended so far are those split off below `p`.
   */
  ghost predicate WallPassAt(objects0: seq<BeatmapObject>, objects: seq<BeatmapObject>, origin: seq<BeatmapObject>,
                             queue: seq<nat>, p: nat, moments: seq<Moment>, wallFrontCut: real, wallBackCut: real)
  {
    && |origin| == |objects| && |objects0| <= |origin| && origin[..|objects0|] == objects0
    && p <= |objects|
    && Increasing(queue)
    && (forall k :: 0 <= k < |queue| ==> p <= queue[k] && queue[k] < |objects| && objects[queue[k]].Obstacle?)
    && (forall x :: p <= x < |objects| && objects[x].Obstacle? ==> x in queue)
    && (forall x :: p <= x < |objects| ==> objects[x] == origin[x])
    && (forall x :: 0 <= x < p ==> objects[x] == FinalWall(origin[x], moments, wallFrontCut, wallBackCut))
    && origin[|objects0|..] == SpawnedTails(origin, p, moments, wallFrontCut, wallBackCut)
  }

  /**
   * One worklist step completes the wall at the head of the worklist, appends
   * its tails, uncut, to `origin`, and lowers the worklist's weight.
   */
  lemma WallPassStep(objects0: seq<BeatmapObject>, objects: seq<BeatmapObject>, origin: seq<BeatmapObject>,
                     queue: seq<nat>, p: nat, wall: BeatmapObject, tails: seq<BeatmapObject>,
                     moments: seq<Moment>, wallFrontCut: real, wallBackCut: real)
    requires WallPassAt(objects0, objects, origin, queue, p, moments, wallFrontCut, wallBackCut) && queue != []
    requires wallFrontCut >= 0.0 && wallBackCut >= 0.0
    requires CutOutcome(wall, tails) == CutAll(objects[queue[0]], moments, wallFrontCut, wallBackCut)
    ensures WallPassAt(objects0, AfterStep(objects, queue, wall, tails), origin + tails,
                       QueueAfterStep(objects, queue, tails), queue[0] + 1, moments, wallFrontCut, wallBackCut)
    ensures QueueWeight(AfterStep(objects, queue, wall, tails), QueueAfterStep(objects, queue, tails), |moments| + 1)
            < QueueWeight(objects, queue, |moments| + 1)
  {
    StepWeightDrops(objects, queue, wall, tails, moments, wallFrontCut, wallBackCut);
    StepKeepsWallPass(objects0, objects, origin, queue, p, wall, tails, moments, wallFrontCut, wallBackCut);
  }

  /** Cutting the wall at the head of the worklist and queueing its tails lowers the worklist's weight. */
  lemma StepWeightDrops(objects: seq<BeatmapObject>, queue: seq<nat>, wall: BeatmapObject, tails: seq<BeatmapObject>,
                        moments: seq<Moment>, wallFrontCut: real, wallBackCut: real)
    requires queue != [] && Increasing(queue) && forall k :: 0 <= k < |queue| ==> queue[k] < |objects|
    requires objects[queue[0]].Obstacle? && wallFrontCut >= 0.0 && wallBackCut >= 0.0
    requires CutOutcome(wall, tails) == CutAll(objects[queue[0]], moments, wallFrontCut, wallBackCut)
    ensures QueueWeight(AfterStep(objects, queue, wall, tails), QueueAfterStep(objects, queue, tails), |moments| + 1)
            < QueueWeight(objects, queue, |moments| + 1)
  {
    CutShrinksWeight(objects[queue[0]], moments, wallFrontCut, wallBackCut);
    WorklistWeightDrops(objects, queue, wall, tails, |moments| + 1);
  }

  /** One worklist step keeps `WallPassAt`, with the head's position done. */
  lemma StepKeepsWallPass(objects0: seq<BeatmapObject>, objects: seq<BeatmapObject>, origin: seq<BeatmapObject>,
                          queue: seq<nat>, p: nat, wall: BeatmapObject, tails: seq<BeatmapObject>,
                          moments: seq<Moment>, wallFrontCut: real, wallBackCut: real)
    requires WallPassAt(objects0, objects, origin, queue, p, moments, wallFrontCut, wallBackCut) && queue != []
    requires CutOutcome(wall, tails) == CutAll(objects[queue[0]], moments, wallFrontCut, wallBackCut)
    ensures WallPassAt(objects0, AfterStep(objects, queue, wall, tails), origin + tails,
                       QueueAfterStep(objects, queue, tails), queue[0] + 1, moments, wallFrontCut, wallBackCut)
  {
    var x0 := queue[0];
    CutAllFacts(objects[x0], moments, wallFrontCut, wallBackCut);
    NoWallBeforeHead(objects, origin, queue, p);
    OriginStepTails(origin, |objects0|, p, x0, tails, moments, wallFrontCut, wallBackCut);
    OriginStepObjects(objects, origin, p, x0, wall, tails, moments, wallFrontCut, wallBackCut);
    OriginStepQueue(objects, queue, p, wall, tails);
  }

  /** Every wall from `p` on is queued, so none lies between `p` and the head of the worklist. */
  lemma NoWallBeforeHead(objects: seq<BeatmapObject>, origin: seq<BeatmapObject>, queue: seq<nat>, p: nat)
    requires queue != [] && Increasing(queue) && queue[0] <= |objects| == |origin|
    requires forall x :: p <= x < |objects| && objects[x].Obstacle? ==> x in queue
    requires forall x :: p <= x < |objects| ==> objects[x] == origin[x]
    ensures forall x :: p <= x < queue[0] ==> !origin[x].Obstacle?
  {
    forall x | p <= x < queue[0] ensures !origin[x].Obstacle? {
      assert forall k :: 0 <= k < |queue| ==> queue[0] <= queue[k];
      assert objects[x] == origin[x] && x !in queue;
    }
  }

  /** The tails of the wall at `x0`, the first wall from `p` on, extend the tails split off so far. */
  lemma OriginStepTails(origin: seq<BeatmapObject>, n: nat, p: nat, x0: nat, tails: seq<BeatmapObject>,
                        moments: seq<Moment>, wallFrontCut: real, wallBackCut: real)
    requires n <= |origin| && p <= x0 < |origin| && origin[x0].Obstacle?
    requires forall x :: p <= x < x0 ==> !origin[x].Obstacle?
    requires origin[n..] == SpawnedTails(origin, p, moments, wallFrontCut, wallBackCut)
    requires tails == CutAll(origin[x0], moments, wallFrontCut, wallBackCut).tails
    ensures (origin + tails)[..n] == origin[..n]
    ensures (origin + tails)[n..] == SpawnedTails(origin + tails, x0 + 1, moments, wallFrontCut, wallBackCut)
  {
    var origin' := origin + tails;
    assert origin'[..x0 + 1] == origin[..x0 + 1];
    calc {
      SpawnedTails(origin', x0 + 1, moments, wallFrontCut, wallBackCut);
      { SpawnedTailsFrame(origin, origin', x0 + 1, moments, wallFrontCut, wallBackCut); }
      SpawnedTails(origin, x0 + 1, moments, wallFrontCut, wallBackCut);
      SpawnedTails(origin, x0, moments, wallFrontCut, wallBackCut) + tails;
      { SpawnedTailsSkip(origin, p, x0, moments, wallFrontCut, wallBackCut); }
      origin[n..] + tails;
      origin'[n..];
    }
  }

  /** After the step the position `x0` is done and the appended tails are uncut. */
  lemma OriginStepObjects(objects: seq<BeatmapObject>, origin: seq<BeatmapObject>, p: nat, x0: nat,
                          wall: BeatmapObject, tails: seq<BeatmapObject>,
                          moments: seq<Moment>, wallFrontCut: real, wallBackCut: real)
    requires |origin| == |objects| && p <= x0 < |objects| && objects[x0].Obstacle?
    requires forall x :: p <= x < |objects| ==> objects[x] == origin[x]
    requires forall x :: 0 <= x < p ==> objects[x] == FinalWall(origin[x], moments, wallFrontCut, wallBackCut)
    requires forall x :: p <= x < x0 ==> !origin[x].Obstacle?
    requires wall == CutAll(objects[x0], moments, wallFrontCut, wallBackCut).wall
    ensures var after, origin' := objects[x0 := wall] + tails, origin + tails;
      && (forall x :: x0 + 1 <= x < |after| ==> after[x] == origin'[x])
      && (forall x :: 0 <= x < x0 + 1 ==> after[x] == FinalWall(origin'[x], moments, wallFrontCut, wallBackCut))
  {
    var after, origin' := objects[x0 := wall] + tails, origin + tails;
    forall x | x0 + 1 <= x < |after| ensures after[x] == origin'[x] {
      if x >= |objects| {
        assert after[x] == tails[x - |objects|] == origin'[x];
      } else {
        assert after[x] == objects[x] == origin[x] == origin'[x];
      }
    }
    forall x | 0 <= x < x0 + 1 ensures after[x] == FinalWall(origin'[x], moments, wallFrontCut, wallBackCut) {
      assert origin'[x] == origin[x];
    }
  }

  /**
   * After the step the worklist still lists walls once each in position
   * order, all past the head it dropped, and every wall past that head is queued.
   */
  lemma OriginStepQueue(objects: seq<BeatmapObject>, queue: seq<nat>, p: nat, wall: BeatmapObject,
                        tails: seq<BeatmapObject>)
    requires queue != [] && Increasing(queue)
    requires forall k :: 0 <= k < |queue| ==> p <= queue[k] && queue[k] < |objects| && objects[queue[k]].Obstacle?
    requires forall x :: p <= x < |objects| && objects[x].Obstacle? ==> x in queue
    requires forall t :: t in tails ==> t.Obstacle?
    ensures var after, queue' := AfterStep(objects, queue, wall, tails), QueueAfterStep(objects, queue, tails);
      && Increasing(queue')
      && (forall k :: 0 <= k < |queue'| ==> queue[0] + 1 <= queue'[k] && queue'[k] < |after| && after[queue'[k]].Obstacle?)
      && (forall x :: queue[0] + 1 <= x < |after| && after[x].Obstacle? ==> x in queue')
  {
    var x0 := queue[0];
    var after, queue' := AfterStep(objects, queue, wall, tails), QueueAfterStep(objects, queue, tails);
    forall k | 0 <= k < |queue'|
      ensures x0 + 1 <= queue'[k] && queue'[k] < |after| && after[queue'[k]].Obstacle?
    {
      if k < |queue| - 1 {
        assert queue'[k] == queue[k + 1] && x0 < queue[k + 1];
      } else {
        assert after[queue'[k]] == tails[k - (|queue| - 1)];
      }
    }
    forall a, b | 0 <= a < b < |queue'| ensures queue'[a] < queue'[b] {
      if b < |queue| - 1 {
        assert queue'[a] == queue[a + 1] && queue'[b] == queue[b + 1];
      } else if a < |queue| - 1 {
        assert queue'[a] == queue[a + 1];
      }
    }
    forall x | x0 + 1 <= x < |after| && after[x].Obstacle? ensures x in queue' {
      if x < |objects| {
        assert after[x] == objects[x];
        var k :| 0 <= k < |queue| && queue[k] == x;
        assert queue'[k - 1] == x;
      } else {
        assert after[x] == tails[x - |objects|];
        assert queue'[|queue| - 1 + (x - |objects|)] == x;
      }
    }
  }

  /** Before the first step nothing is done, every wall is queued and no tail has been split off. */
  lemma OriginStart(objects: seq<BeatmapObject>, queue: seq<nat>, moments: seq<Moment>,
                    wallFrontCut: real, wallBackCut: real)
    requires Increasing(queue)
    requires forall k :: 0 <= k < |queue| ==> queue[k] < |objects| && objects[queue[k]].Obstacle?
    requires forall x :: 0 <= x < |objects| && objects[x].Obstacle? ==> x in queue
    ensures WallPassAt(objects, objects, objects, queue, 0, moments, wallFrontCut, wallBackCut)
  {
    assert objects[|objects|..] == [];
  }

  /** Once the worklist is empty every position is done: the objects are the uncut ones after the wall pass. */
  lemma OriginDone(objects0: seq<BeatmapObject>, objects: seq<BeatmapObject>, origin: seq<BeatmapObject>, p: nat,
                   moments: seq<Moment>, wallFrontCut: real, wallBackCut: real)
    requires WallPassAt(objects0, objects, origin, [], p, moments, wallFrontCut, wallBackCut)
    ensures objects == Finals(origin, moments, wallFrontCut, wallBackCut)
    ensures WallPass(objects0, origin, moments, wallFrontCut, wallBackCut)
  {
    forall x | p <= x < |origin| ensures !origin[x].Obstacle? {
      assert objects[x] == origin[x];
    }
    SpawnedTailsSkip(origin, p, |origin|, moments, wallFrontCut, wallBackCut);
  }

  /** The tails split off are walls. */
  lemma {:induction false} SpawnedTailsWalls(origin: seq<BeatmapObject>, hi: nat, moments: seq<Moment>,
                                             wallFrontCut: real, wallBackCut: real)
    requires hi <= |origin|
    ensures forall t :: t in SpawnedTails(origin, hi, moments, wallFrontCut, wallBackCut) ==> t.Obstacle?
  {
    if hi > 0 {
      SpawnedTailsWalls(origin, hi - 1, moments, wallFrontCut, wallBackCut);
      if origin[hi - 1].Obstacle? {
        CutAllFacts(origin[hi - 1], moments, wallFrontCut, wallBackCut);
      }
    }
  }

  /**
   * What the wall pass leaves of the beatmap `objects0`: the same notes at
   * the same positions, walls where there were walls, appended objects that
   * are walls, and every wall settled.
   */
  lemma FinalsFacts(objects0: seq<BeatmapObject>, origin: seq<BeatmapObject>, moments: seq<Moment>,
                    wallFrontCut: real, wallBackCut: real)
    requires WallPass(objects0, origin, moments, wallFrontCut, wallBackCut)
    ensures var objects := Finals(origin, moments, wallFrontCut, wallBackCut);
      && Extends(objects0, objects)
      && (forall x :: 0 <= x < |objects| && objects[x].Note? ==> x < |objects0| && objects[x] == objects0[x])
      && (forall o :: o in objects ==> Settled(o, moments))
  {
    var objects := Finals(origin, moments, wallFrontCut, wallBackCut);
    SpawnedTailsWalls(origin, |origin|, moments, wallFrontCut, wallBackCut);
    forall x | 0 <= x < |objects|
      ensures Settled(objects[x], moments)
      ensures x < |objects0| ==> origin[x] == objects0[x]
      ensures x >= |objects0| ==> origin[x].Obstacle?
    {
      if origin[x].Obstacle? {
        CutSettles(origin[x], moments, wallFrontCut, wallBackCut);
      }
      if x < |objects0| {
        assert origin[x] == origin[..|objects0|][x];
      } else {
        assert origin[x] == origin[|objects0|..][x - |objects0|];
      }
    }
  }

  /**
   * Each object of the beatmap the final passes start from, cut by the wall
   * pass and cleared by the bomb pass, is in the result unless that leaves it
   * at time 0 or a zero-length wall.
   */
  lemma FinalObjectKept(objects0: seq<BeatmapObject>, origin: seq<BeatmapObject>, moments: seq<Moment>,
                        wallFrontCut: real, wallBackCut: real, x: nat)
    requires WallPass(objects0, origin, moments, wallFrontCut, wallBackCut) && x < |objects0|
    ensures var o := ClearBomb(FinalWall(objects0[x], moments, wallFrontCut, wallBackCut), moments, wallFrontCut, wallBackCut);
      Kept(o) ==> o in SortedKept(ClearBombs(Finals(origin, moments, wallFrontCut, wallBackCut), moments, wallFrontCut, wallBackCut))
  {
    var cleared := ClearBombs(Finals(origin, moments, wallFrontCut, wallBackCut), moments, wallFrontCut, wallBackCut);
    assert origin[x] == origin[..|objects0|][x];
    assert cleared[x] in multiset(cleared);
    SortedKeptFacts(cleared);
    assert Kept(cleared[x]) ==> cleared[x] in multiset(SortedKept(cleared));
  }

  /**
   * What the final passes leave: the beatmap `cut` after the wall pass is
   * cleared of hit bombs, giving `cleared`, and then sorted with the removal
   * convention. No incompatible wall of positive length and no bomb a moment
   * hits is left.
   */
  lemma FinalPassFacts(cut: seq<BeatmapObject>, cleared: seq<BeatmapObject>, moments: seq<Moment>,
                       wallFrontCut: real, wallBackCut: real)
    requires forall o :: o in cut ==> Settled(o, moments)
    requires |cleared| == |cut|
    requires forall x :: 0 <= x < |cut| ==> cleared[x] == ClearBomb(cut[x], moments, wallFrontCut, wallBackCut)
    ensures forall o :: o in SortedKept(cleared) && o.Obstacle? && Incompatible(o) ==> o.duration < 0.0 || moments == []
    ensures forall o :: o in SortedKept(cleared) && o.IsBomb() ==> !AnyBombHit(o, moments, wallFrontCut, wallBackCut)
  {
    forall o | o in SortedKept(cleared)
      ensures o.Obstacle? && Incompatible(o) ==> o.duration < 0.0 || moments == []
      ensures o.IsBomb() ==> !AnyBombHit(o, moments, wallFrontCut, wallBackCut)
    {
      SortedKeptMember(cleared, o);
      var x :| 0 <= x < |cleared| && cleared[x] == o;
      assert cut[x] in cut;
    }
  }
}
