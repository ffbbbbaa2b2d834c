/**
 * The 360-degree generator: walks the notes of a beatmap bar by bar, emits
 * rotation events at the end of sub-beats, optionally reduces the map to one
 * saber and adds walls, then cuts the walls the play space turns into,
 * removes the bombs it turns into, and sorts the beatmap.
 */
module Generator {
  import opened TimeOrder
  import opened ModBeatmap
  import opened Rotation
  import opened Walls
  import opened Planner
  import opened Arena
  import opened WallWorklist

  /** How a run ends: the beatmap was converted, or it holds no note at all (the source throws). */
  datatype Outcome = Generated | NoNotes

  predicate IsObstacle(o: BeatmapObject) { o.Obstacle? }

  predicate IsCustomWall(o: BeatmapObject) { o.Obstacle? && o.hasPosition }

  predicate IsNote(o: BeatmapObject) { o.Note? }

  predicate IsBombObject(o: BeatmapObject) { o.IsBomb() }

  /**
   * The bar walk leaves every object of the beatmap `before` where it was,
   * except that the one-saber reduction rewrites notes; it only appends.
   */
  ghost predicate WalkKeeps(before: seq<BeatmapObject>, after: seq<BeatmapObject>, oneSaber: bool)
  {
    && |before| <= |after|
    && forall x :: 0 <= x < |before| && (before[x].Obstacle? || !oneSaber) ==> after[x] == before[x]
  }

  /**
   * Only the objects at the positions `touched` may have been rewritten;
   * objects may be appended.
   */
  ghost predicate Untouched(before: seq<BeatmapObject>, after: seq<BeatmapObject>, touched: seq<nat>)
  {
    && |before| <= |after|
    && forall x :: 0 <= x < |before| && x !in touched ==> after[x] == before[x]
  }

  /**
   * When only the first `k` positions of a list in beatmap order may have
   * been rewritten, the objects at its later positions are unchanged.
   */
  lemma GatherUntouched(before: seq<BeatmapObject>, after: seq<BeatmapObject>, idx: seq<nat>, k: nat)
    requires k <= |idx| && Increasing(idx) && (forall p :: 0 <= p < |idx| ==> idx[p] < |before|)
    requires Untouched(before, after, idx[..k])
    ensures forall p :: 0 <= p < |idx| ==> idx[p] < |after|
    ensures forall y :: k <= y < |idx| ==> after[idx[y]] == before[idx[y]]
    ensures Gather(after, idx)[k..] == Gather(before, idx)[k..]
  {
    forall y | k <= y < |idx| ensures idx[y] !in idx[..k] {
      forall z | 0 <= z < k ensures idx[..k][z] != idx[y] {
        assert idx[z] < idx[y];
      }
    }
  }

  /** The objects at positions of a range that are unchanged gather to the same notes. */
  lemma GatherAgree(before: seq<BeatmapObject>, after: seq<BeatmapObject>, idx: seq<nat>, lo: nat, hi: nat)
    requires lo <= hi <= |idx|
    requires forall p :: 0 <= p < |idx| ==> idx[p] < |before| && idx[p] < |after|
    requires forall y :: lo <= y < hi ==> after[idx[y]] == before[idx[y]]
    ensures Gather(after, idx[lo..hi]) == Gather(before, idx)[lo..hi]
  {
  }

  /** Rewrites of the first `k` positions, then of the positions `k` to `next`, rewrite only the first `next`. */
  lemma UntouchedStep(a: seq<BeatmapObject>, b: seq<BeatmapObject>, c: seq<BeatmapObject>, idx: seq<nat>, k: nat, next: nat)
    requires k <= next <= |idx|
    requires Untouched(a, b, idx[..k]) && Untouched(b, c, idx[k..next])
    ensures Untouched(a, c, idx[..next])
  {
    assert idx[..next] == idx[..k] + idx[k..next];
  }

  /**
   * Listed positions from `from` on that agree with `a` in `b` and lie
   * outside the positions `touched` rewritten from `b` to `c` agree in `c`.
   */
  lemma UntouchedAgree(a: seq<BeatmapObject>, b: seq<BeatmapObject>, c: seq<BeatmapObject>, idx: seq<nat>,
                       from: nat, touched: seq<nat>)
    requires forall y :: from <= y < |idx| ==> idx[y] < |a| && idx[y] < |b| && b[idx[y]] == a[idx[y]] && idx[y] !in touched
    requires Untouched(b, c, touched)
    ensures forall y :: from <= y < |idx| ==> c[idx[y]] == a[idx[y]]
  {
  }

  /** Two steps of the bar walk keep what one keeps. */
  lemma KeepsStep(a: seq<BeatmapObject>, b: seq<BeatmapObject>, c: seq<BeatmapObject>, oneSaber: bool)
    requires Extends(a, b) && WalkKeeps(a, b, oneSaber)
    requires Extends(b, c) && WalkKeeps(b, c, oneSaber)
    ensures Extends(a, c) && WalkKeeps(a, c, oneSaber)
  {
  }

  /**
   * What the final passes keep of the beatmap `before` the bar walk: every
   * wall whose cut remainder is kept, and, unless the one-saber reduction
   * rewrote them, every note with a positive time that is not a bomb a
   * moment hits.
   */
  lemma PassesKeep(before: seq<BeatmapObject>, walked: seq<BeatmapObject>, origin: seq<BeatmapObject>,
                   moments: seq<Moment>, wallFrontCut: real, wallBackCut: real, oneSaber: bool)
    requires WalkKeeps(before, walked, oneSaber)
    requires WallPass(walked, origin, moments, wallFrontCut, wallBackCut)
    ensures var after := SortedKept(ClearBombs(Finals(origin, moments, wallFrontCut, wallBackCut), moments, wallFrontCut, wallBackCut));
      && (forall o :: o in before && o.Obstacle? && Kept(FinalWall(o, moments, wallFrontCut, wallBackCut)) ==>
            FinalWall(o, moments, wallFrontCut, wallBackCut) in after)
      && (!oneSaber ==>
            forall o :: o in before && o.Note? && o.time > 0.0 && !(o.IsBomb() && AnyBombHit(o, moments, wallFrontCut, wallBackCut))
              ==> o in after)
  {
    forall o | o in before && (o.Obstacle? || !oneSaber)
      ensures var c := ClearBomb(FinalWall(o, moments, wallFrontCut, wallBackCut), moments, wallFrontCut, wallBackCut);
        Kept(c) ==> c in SortedKept(ClearBombs(Finals(origin, moments, wallFrontCut, wallBackCut), moments, wallFrontCut, wallBackCut))
    {
      var x :| 0 <= x < |before| && before[x] == o;
      FinalObjectKept(walked, origin, moments, wallFrontCut, wallBackCut, x);
    }
  }

  /**
   * The rotation state of a run over values: the events are the initial ones
   * followed by one rotation event per committed moment, the running total is
   * within the budget, and without spins the running total is the net
   * rotation of the moments, whose every prefix stays within the budget.
   */
  ghost predicate Budgeted(events: seq<BeatmapEvent>, events0: seq<BeatmapEvent>, moments: seq<Moment>,
                           total: int, limit: int, enableSpin: bool)
  {
    && ValidMoments(moments)
    && events == events0 + RotationEvents(moments)
    && (limit >= 0 ==> -limit <= total <= limit)
    && (!enableSpin ==> total == Sum(moments))
    && (!enableSpin && limit >= 0 ==> WithinBudget(moments, limit))
  }

  /** A moment of a valid amount that keeps the total and the prefixes within the budget keeps the rotation state budgeted. */
  lemma AppendKeepsBudgeted(events0: seq<BeatmapEvent>, moments: seq<Moment>, total: int, a: int,
                            limit: int, enableSpin: bool, time: real)
    requires ValidMoments(moments) && Budgeted(events0 + RotationEvents(moments), events0, moments, total, limit, enableSpin)
    requires ValidAmount(a)
    requires limit >= 0 ==> -limit <= total + a <= limit
    requires !enableSpin && limit >= 0 ==> WithinBudget(moments + [Moment(time, a)], limit)
    ensures Budgeted(events0 + RotationEvents(moments) + [RotationEvent(Moment(time, a))], events0,
                     moments + [Moment(time, a)], total + a, limit, enableSpin)
  {
    var m := Moment(time, a);
    SumAppend(moments, m);
    assert ValidMoments([m]) && RotationEvents([m]) == [RotationEvent(m)];
    EventsExtend(events0, moments, [m]);
  }

  /** A rotation committed with the limit enabled keeps the rotation state budgeted. */
  lemma CommitKeepsBudgeted(events0: seq<BeatmapEvent>, moments: seq<Moment>, total: int, rotation: int,
                            limit: int, enableSpin: bool, time: real)
    requires ValidMoments(moments) && Budgeted(events0 + RotationEvents(moments), events0, moments, total, limit, enableSpin)
    ensures var a := CommittedAmount(total, rotation, limit, true);
      a != 0 ==>
        && ValidAmount(a)
        && Budgeted(events0 + RotationEvents(moments) + [RotationEvent(Moment(time, a))], events0,
                    moments + [Moment(time, a)], total + a, limit, enableSpin)
  {
    var a := CommittedAmount(total, rotation, limit, true);
    if a != 0 {
      if limit >= 0 {
        CommittedAmountBudget(total, rotation, limit);
      }
      if !enableSpin && limit >= 0 {
        CommitKeepsBudget(moments, total, rotation, limit, time);
      }
      AppendKeepsBudgeted(events0, moments, total, a, limit, enableSpin, time);
    }
  }

  /** The sub-beat a note at `time` falls in, for a bar starting `barStart` after the first note. */
  function SubBeat(time: real, first: real, barStart: real, divided: real): int
    requires divided != 0.0
  {
    Floor((time - first - barStart) / divided)
  }

  // ---------------------------------------------------------------------------
  // The bar walk over values

  /**
   * The number of leading notes that start before `barEnd` (relative to the
   * first note `first`): the notes the bar loop consumes for one bar.
   */
  function BarRun(notes: seq<BeatmapObject>, first: real, barEnd: real): (n: nat)
    ensures n <= |notes|
    ensures forall y :: 0 <= y < n ==> notes[y].time - first < barEnd
    ensures n < |notes| ==> notes[n].time - first >= barEnd
  {
    if notes != [] && notes[0].time - first < barEnd then 1 + BarRun(notes[1..], first, barEnd) else 0
  }

  /** The number of leading notes of a bar that fall in sub-beat `j`: the notes of that sub-beat. */
  function BeatRun(notes: seq<BeatmapObject>, first: real, barStart: real, divided: real, j: int): (n: nat)
    requires divided != 0.0
    ensures n <= |notes|
    ensures forall y :: 0 <= y < n ==> SubBeat(notes[y].time, first, barStart, divided) == j
    ensures n < |notes| ==> SubBeat(notes[n].time, first, barStart, divided) != j
  {
    if notes != [] && SubBeat(notes[0].time, first, barStart, divided) == j
    then 1 + BeatRun(notes[1..], first, barStart, divided, j)
    else 0
  }

  /** A run of `n` notes that start before `barEnd`, followed by none or by one that does not, is the bar's run. */
  lemma BarRunIs(notes: seq<BeatmapObject>, first: real, barEnd: real, n: nat)
    requires n <= |notes| && forall y :: 0 <= y < n ==> notes[y].time - first < barEnd
    requires n < |notes| ==> notes[n].time - first >= barEnd
    ensures BarRun(notes, first, barEnd) == n
  {
  }

  /** A run of `n` notes in sub-beat `j`, followed by none or by one that is not, is the sub-beat's run. */
  lemma BeatRunIs(notes: seq<BeatmapObject>, first: real, barStart: real, divided: real, j: int, n: nat)
    requires divided != 0.0 && n <= |notes|
    requires forall y :: 0 <= y < n ==> SubBeat(notes[y].time, first, barStart, divided) == j
    requires n < |notes| ==> SubBeat(notes[n].time, first, barStart, divided) != j
    ensures BeatRun(notes, first, barStart, divided, j) == n
  {
  }

  /**
   * The number of notes that the bar of the head note consumes: those that
   * start before its end, which is at least the head note itself.
   */
  function BarSpan(notes: seq<BeatmapObject>, first: real, barLength: real): (n: nat)
    requires notes != [] && barLength > 0.0
    ensures 0 < n <= |notes|
  {
    var offset := notes[0].time - first;
    BarEndCoversNote(offset, barLength);
    BarRun(notes, first, BarEnd(BarStart(offset, barLength), barLength))
  }

  /** The position after sub-beat `j` of a bar divided into `divider` pieces, when it starts at note `k`. */
  function SubBeatEnd(barNotes: seq<BeatmapObject>, first: real, barStart: real, barLength: real,
                      divider: nat, j: int, k: nat): (next: nat)
    requires k <= |barNotes| && divider > 0 && barLength > 0.0
    ensures k <= next <= |barNotes|
  {
    k + BeatRun(barNotes[k..], first, barStart, barLength / divider as real, j)
  }

  /** The notes of a list that are not bombs, in order. */
  function NonBombNotes(notes: seq<BeatmapObject>): (r: seq<BeatmapObject>)
    ensures |r| <= |notes|
  {
    if notes == [] then []
    else
      var last := |notes| - 1;
      NonBombNotes(notes[..last]) + (if notes[last].IsBomb() then [] else [notes[last]])
  }

  /** The non-bomb notes of a non-empty list: those before its last note, then the last note unless it is a bomb. */
  lemma NonBombNotesLast(notes: seq<BeatmapObject>)
    requires notes != []
    ensures var last := notes[|notes| - 1];
      NonBombNotes(notes) == NonBombNotes(notes[..|notes| - 1]) + (if last.IsBomb() then [] else [last])
  {
  }

  /** The notes at the non-bomb positions of a range are the non-bomb notes of that range. */
  lemma {:induction false} GatherNonBombs(objects: seq<BeatmapObject>, idx: seq<nat>, lo: nat, hi: nat)
    requires lo <= hi <= |idx| && forall p :: 0 <= p < |idx| ==> idx[p] < |objects|
    decreases hi
    ensures forall p :: 0 <= p < |NonBombs(objects, idx, lo, hi)| ==> NonBombs(objects, idx, lo, hi)[p] < |objects|
    ensures Gather(objects, NonBombs(objects, idx, lo, hi)) == NonBombNotes(Gather(objects, idx)[lo..hi])
  {
    NonBombsBounded(objects, idx, lo, hi, |objects|);
    if hi > lo {
      NonBombsBounded(objects, idx, lo, hi - 1, |objects|);
      GatherNonBombs(objects, idx, lo, hi - 1);
      GatherNonBombsLast(objects, idx, lo, hi, NonBombs(objects, idx, lo, hi - 1));
    }
  }

  /** One more position of a range: its note joins the non-bomb notes unless it is a bomb. */
  lemma GatherNonBombsLast(objects: seq<BeatmapObject>, idx: seq<nat>, lo: nat, hi: nat, front: seq<nat>)
    requires lo < hi <= |idx| && forall p :: 0 <= p < |idx| ==> idx[p] < |objects|
    requires forall p :: 0 <= p < |NonBombs(objects, idx, lo, hi)| ==> NonBombs(objects, idx, lo, hi)[p] < |objects|
    requires front == NonBombs(objects, idx, lo, hi - 1) && forall p :: 0 <= p < |front| ==> front[p] < |objects|
    requires Gather(objects, front) == NonBombNotes(Gather(objects, idx)[lo..hi - 1])
    ensures Gather(objects, NonBombs(objects, idx, lo, hi)) == NonBombNotes(Gather(objects, idx)[lo..hi])
  {
    var all := Gather(objects, idx);
    var o := all[hi - 1];
    var tail: seq<nat> := if o.IsBomb() then [] else [idx[hi - 1]];
    NonBombNotesSlice(all, lo, hi);
    assert NonBombs(objects, idx, lo, hi) == front + tail;
    GatherAppend(objects, front, tail);
    assert Gather(objects, tail) == if o.IsBomb() then [] else [o];
  }

  /** The non-bomb notes of a non-empty slice: those of the slice one shorter, then its last note unless it is a bomb. */
  lemma NonBombNotesSlice(s: seq<BeatmapObject>, lo: nat, hi: nat)
    requires lo < hi <= |s|
    ensures NonBombNotes(s[lo..hi]) == NonBombNotes(s[lo..hi - 1]) + (if s[hi - 1].IsBomb() then [] else [s[hi - 1]])
  {
    var r := s[lo..hi];
    assert r[..|r| - 1] == s[lo..hi - 1];
    NonBombNotesLast(r);
  }

  /**
   * The non-bombs of the positions `lo` to `hi` of an increasing list of
   * notes: notes in beatmap order, none listed from `hi` on, holding the
   * non-bomb notes of that range.
   */
  lemma BarNotes(objects: seq<BeatmapObject>, idx: seq<nat>, lo: nat, hi: nat)
    requires lo <= hi <= |idx| && NotesIn(objects, idx) && Increasing(idx)
    ensures var bar := NonBombs(objects, idx, lo, hi);
      && NotesIn(objects, bar) && Increasing(bar)
      && (forall y :: hi <= y < |idx| ==> idx[y] !in bar)
      && Gather(objects, bar) == NonBombNotes(Gather(objects, idx)[lo..hi])
  {
    var bar := NonBombs(objects, idx, lo, hi);
    NonBombsNotes(objects, idx, lo, hi);
    NonBombsIncreasing(objects, idx, lo, hi);
    NonBombsMembers(objects, idx, lo, hi);
    GatherNonBombs(objects, idx, lo, hi);
    forall y | hi <= y < |idx| ensures idx[y] !in bar {
      forall z | lo <= z < hi ensures idx[z] != idx[y] {
        assert idx[z] < idx[y];
      }
    }
  }

  /**
   * The notes from note `i` on, read from the objects before the walk, are
   * those read now: the bar collected from note `i` runs as far over either.
   */
  lemma BarCollected(objects: seq<BeatmapObject>, objects0: seq<BeatmapObject>, notes: seq<nat>, i: nat, next: nat,
                     first: real, barEnd: real)
    requires NotesIn(objects, notes) && NotesIn(objects0, notes) && i < next <= |notes|
    requires forall y :: i <= y < |notes| ==> objects[notes[y]] == objects0[notes[y]]
    requires next - i == BarRun(Gather(objects, notes)[i..], first, barEnd)
    ensures var rest := Gather(objects0, notes)[i..];
      && |rest| == |notes| - i && rest[0] == objects[notes[i]]
      && next - i == BarRun(rest, first, barEnd)
      && rest[..next - i] == Gather(objects, notes)[i..next]
      && rest[next - i..] == Gather(objects0, notes)[next..]
      && (next < |notes| ==> rest[next - i] == objects0[notes[next]])
  {
    var rest := Gather(objects0, notes)[i..];
    assert Gather(objects, notes)[i..] == rest;
  }

  /** The generator settings the rotation choices depend on, as a value. */
  datatype Settings = Settings(limitRotations: int, bottleneckRotations: int, enableSpin: bool,
                               totalSpinTime: real, spinCooldown: real)

  /** The rotation state after a non-empty sub-beat, given the note after it. */
  ghost function BeatTurns(s: Settings, beatNotes: seq<BeatmapObject>, after: Option<BeatmapObject>, barLength: real, t: Turns): Turns
    requires |beatNotes| > 0
  {
    Committed(t, BeatRotation(beatNotes, after, barLength, t.totalRotation, s.bottleneckRotations, t.previousDirection),
              s.limitRotations, RotationTime(beatNotes[|beatNotes| - 1]))
  }

  /**
   * The rotation state after sub-beat `j` of a bar divided into `divider`
   * pieces, starting at its note `k`: when the sub-beat holds notes, it
   * commits its rotation, given the next note of the bar or, after the
   * bar's last note, the note `afterBar` after the bar.
   */
  ghost function SubBeatTurns(s: Settings, barNotes: seq<BeatmapObject>, afterBar: Option<BeatmapObject>, first: real,
                              barStart: real, barLength: real, divider: nat, j: nat, k: nat, t: Turns): Turns
    requires k <= |barNotes| && divider > 0 && barLength > 0.0
  {
    var next := SubBeatEnd(barNotes, first, barStart, barLength, divider, j, k);
    if next == k then t
    else BeatTurns(s, barNotes[k..next], if next < |barNotes| then Some(barNotes[next]) else afterBar, barLength, t)
  }

  /** The rotation state after sub-beats `j`, `j + 1`, ... of a bar, from its note `k` on. */
  ghost function SubBeatsTurns(s: Settings, barNotes: seq<BeatmapObject>, afterBar: Option<BeatmapObject>, first: real,
                               barStart: real, barLength: real, divider: nat, j: nat, k: nat, t: Turns): Turns
    requires k <= |barNotes| && divider > 0 && barLength > 0.0
    decreases divider - j
  {
    if j < divider && k < |barNotes| then
      SubBeatsTurns(s, barNotes, afterBar, first, barStart, barLength, divider, j + 1,
                    SubBeatEnd(barNotes, first, barStart, barLength, divider, j, k),
                    SubBeatTurns(s, barNotes, afterBar, first, barStart, barLength, divider, j, k, t))
    else t
  }

  /**
   * The rotation state after one bar of non-bomb notes: the spin flourish
   * when it triggers, otherwise its sub-beats, none from 58 notes on.
   */
  ghost function BarTurns(s: Settings, barNotes: seq<BeatmapObject>, afterBar: Option<BeatmapObject>, first: real,
                          barStart: real, barLength: real, t: Turns): Turns
    requires barLength > 0.0
  {
    if SpinTriggers(s.enableSpin, barNotes, barStart, t.previousSpinTime, s.spinCooldown) then
      Spun(t, first + barStart, s.totalSpinTime / SpinSteps as real,
           SpinDirection(Count(barNotes, CutsLeft), Count(barNotes, CutsRight), t.previousDirection), barStart)
    else if BarDivider(|barNotes|) == 0 then t
    else SubBeatsTurns(s, barNotes, afterBar, first, barStart, barLength, BarDivider(|barNotes|), 0, 0, t)
  }

  /**
   * The rotation state after the bar of the head note of `notes` (bars
   * aligned to the time `first` of the first note): its non-bomb notes, when
   * there are any, are processed as a bar.
   */
  ghost function BarStepTurns(s: Settings, notes: seq<BeatmapObject>, first: real, barLength: real, t: Turns): Turns
    requires notes != [] && barLength > 0.0
  {
    var n := BarSpan(notes, first, barLength);
    var barNotes := NonBombNotes(notes[..n]);
    if barNotes == [] then t
    else BarTurns(s, barNotes, if n < |notes| then Some(notes[n]) else None, first,
                  BarStart(notes[0].time - first, barLength), barLength, t)
  }

  /**
   * The rotation state after the bar loop over `notes`, the notes from the
   * first unconsumed one on (bombs included): bar after bar, each consuming
   * the notes before its end.
   */
  ghost function BarsTurns(s: Settings, notes: seq<BeatmapObject>, first: real, barLength: real, t: Turns): Turns
    requires barLength > 0.0
    decreases |notes|
  {
    if notes == [] then t
    else BarsTurns(s, notes[BarSpan(notes, first, barLength)..], first, barLength, BarStepTurns(s, notes, first, barLength, t))
  }

  /** The rotation state in which the bar loop over the notes of a beatmap ends, for bars of `barLength`. */
  ghost function WalkTurns(s: Settings, objects: seq<BeatmapObject>, barLength: real): Turns
    requires barLength > 0.0
  {
    var notes := Gather(objects, Indices(objects, IsNote));
    if notes == [] then InitialTurns else BarsTurns(s, notes, notes[0].time, barLength, InitialTurns)
  }

  /** The walk over the notes of a beatmap that has one starts at its first note, in the initial state. */
  lemma WalkTurnsStart(s: Settings, objects: seq<BeatmapObject>, barLength: real)
    requires barLength > 0.0 && Indices(objects, IsNote) != []
    ensures var notes := Indices(objects, IsNote);
      WalkTurns(s, objects, barLength)
      == BarsTurns(s, Gather(objects, notes), objects[notes[0]].time, barLength, InitialTurns)
  {
    var notes := Indices(objects, IsNote);
    assert Gather(objects, notes)[0] == objects[notes[0]];
  }

  /**
   * One bar of the walk over values: the bar from the first of `notes`
   * starts at `barStart`, ends at `barEnd` after `n` of them, and the walk
   * goes on from the rest, `after`, in the state `u` that bar leads to
   * (unchanged when it holds no non-bomb note).
   */
  lemma BarsTurnsStep(s: Settings, notes: seq<BeatmapObject>, after: seq<BeatmapObject>, first: real, barLength: real,
                      barStart: real, barEnd: real, n: nat, barNotes: seq<BeatmapObject>,
                      afterBar: Option<BeatmapObject>, t: Turns, u: Turns)
    requires notes != [] && barLength > 0.0
    requires barStart == BarStart(notes[0].time - first, barLength) && barEnd == BarEnd(barStart, barLength)
    requires n == BarRun(notes, first, barEnd) && after == notes[n..]
    requires barNotes == NonBombNotes(notes[..n]) && afterBar == (if n < |notes| then Some(notes[n]) else None)
    requires u == if barNotes == [] then t else BarTurns(s, barNotes, afterBar, first, barStart, barLength, t)
    ensures n == BarSpan(notes, first, barLength)
    ensures BarsTurns(s, after, first, barLength, u) == BarsTurns(s, notes, first, barLength, t)
  {
  }

  /** The start of the bar of a note, whichever way its offset is written. */
  lemma BarStartOf(offset: real, offset': real, barLength: real)
    requires barLength > 0.0 && offset == offset'
    ensures BarStart(offset, barLength) == BarStart(offset', barLength)
  {
  }

  /** One sub-beat of the walk over values: where it ends and the state it leads to. */
  lemma SubBeatStepTurns(s: Settings, barNotes: seq<BeatmapObject>, afterBar: Option<BeatmapObject>, first: real, barStart: real,
                         barLength: real, divider: nat, j: nat, k: nat, next: nat, t: Turns)
    requires k < |barNotes| && divider > 0 && barLength > 0.0 && j < divider
    requires next - k == BeatRun(barNotes[k..], first, barStart, barLength / divider as real, j)
    ensures next == SubBeatEnd(barNotes, first, barStart, barLength, divider, j, k)
    ensures SubBeatsTurns(s, barNotes, afterBar, first, barStart, barLength, divider, j, k, t)
         == SubBeatsTurns(s, barNotes, afterBar, first, barStart, barLength, divider, j + 1, next,
                          SubBeatTurns(s, barNotes, afterBar, first, barStart, barLength, divider, j, k, t))
    ensures SubBeatTurns(s, barNotes, afterBar, first, barStart, barLength, divider, j, k, t)
         == if next == k then t
            else BeatTurns(s, barNotes[k..next], if next < |barNotes| then Some(barNotes[next]) else afterBar, barLength, t)
  {
  }

  /**
   * The generator with its settings, which stay fixed while it runs; a run
   * reassigns only the beatmap's objects and events.
   */
  class Generator360 {
    /** The bar length the generator aims for, in seconds. */
    const PreferredBarDuration: real
    /** The budget of rotation steps (24 steps make a full turn) on either side. */
    const LimitRotations: int
    /** The net rotation beyond which ties turn back toward the centre. */
    const BottleneckRotations: int
    const EnableSpin: bool
    const TotalSpinTime: real
    const SpinCooldown: real
    const WallFrontCut: real
    const WallBackCut: real
    const WallGenerator: bool
    const OnlyOneSaber: bool

    /** The default configuration. */
    constructor ()
      ensures PreferredBarDuration == 1.84 && LimitRotations == 28 && BottleneckRotations == 14
      ensures !EnableSpin && TotalSpinTime == 0.6 && SpinCooldown == 10.0
      ensures WallFrontCut == 0.2 && WallBackCut == 0.45 && !WallGenerator && !OnlyOneSaber
    {
      PreferredBarDuration := 1.84;
      LimitRotations := 28;
      BottleneckRotations := 14;
      EnableSpin := false;
      TotalSpinTime := 0.6;
      SpinCooldown := 10.0;
      WallFrontCut := 0.2;
      WallBackCut := 0.45;
      WallGenerator := false;
      OnlyOneSaber := false;
    }

    /** A configured generator: each setting as its property was set before the run. */
    constructor Configured(preferredBarDuration: real, limitRotations: int, bottleneckRotations: int,
                           enableSpin: bool, totalSpinTime: real, spinCooldown: real,
                           wallFrontCut: real, wallBackCut: real, wallGenerator: bool, onlyOneSaber: bool)
      ensures PreferredBarDuration == preferredBarDuration && LimitRotations == limitRotations
      ensures BottleneckRotations == bottleneckRotations && EnableSpin == enableSpin
      ensures TotalSpinTime == totalSpinTime && SpinCooldown == spinCooldown
      ensures WallFrontCut == wallFrontCut && WallBackCut == wallBackCut
      ensures WallGenerator == wallGenerator && OnlyOneSaber == onlyOneSaber
    {
      PreferredBarDuration := preferredBarDuration;
      LimitRotations := limitRotations;
      BottleneckRotations := bottleneckRotations;
      EnableSpin := enableSpin;
      TotalSpinTime := totalSpinTime;
      SpinCooldown := spinCooldown;
      WallFrontCut := wallFrontCut;
      WallBackCut := wallBackCut;
      WallGenerator := wallGenerator;
      OnlyOneSaber := onlyOneSaber;
    }

    /** The settings the rotation choices depend on. */
    ghost function Rotations(): Settings
    {
      Settings(LimitRotations, BottleneckRotations, EnableSpin, TotalSpinTime, SpinCooldown)
    }

    // -------------------------------------------------------------------------
    // The wall pass

    /** One wall of the worklist against every moment, in emission order, stopping once its length is not positive. */
    method CutObstacle(ob: BeatmapObject, moments: seq<Moment>) returns (wall: BeatmapObject, tails: seq<BeatmapObject>)
      requires ob.Obstacle?
      ensures CutOutcome(wall, tails) == CutAll(ob, moments, WallFrontCut, WallBackCut)
    {
      wall, tails := ob, [];
      var j := 0;
      while j < |moments|
        invariant 0 <= j <= |moments| && wall.Obstacle?
        invariant var rest := CutAll(wall, moments[j..], WallFrontCut, WallBackCut);
          CutAll(ob, moments, WallFrontCut, WallBackCut) == CutOutcome(rest.wall, tails + rest.tails)
      {
        if wall.duration <= 0.0 {
          CutAllFacts(wall, moments[j..], WallFrontCut, WallBackCut);
          break;
        }
        CutAllStep(ob, moments, j, wall, tails, WallFrontCut, WallBackCut);
        var c := CutStep(wall, moments[j], WallFrontCut, WallBackCut);
        wall, tails := c.wall, tails + OptionSeq(c.tail);
        j := j + 1;
      }
    }

    /**
     * The wall worklist: every obstacle, then every tail split off, is cut
     * against all moments; a tail is appended to the beatmap and to the
     * worklist. Notes are left alone, and no incompatible wall of positive
     * length remains once anything rotated.
     */
    method CutWalls(data: ModBeatmapData, moments: seq<Moment>) returns (ghost origin: seq<BeatmapObject>)
      requires WallFrontCut >= 0.0 && WallBackCut >= 0.0
      modifies data`objects
      ensures WallPass(old(data.objects), origin, moments, WallFrontCut, WallBackCut)
      ensures data.objects == Finals(origin, moments, WallFrontCut, WallBackCut)
    {
      ghost var objects0 := data.objects;
      var queue: seq<nat> := Indices(data.objects, IsObstacle);
      IndicesComplete(data.objects, IsObstacle);
      IndicesIncreasing(data.objects, IsObstacle);
      origin := data.objects;
      ghost var p: nat := 0;
      OriginStart(data.objects, queue, moments, WallFrontCut, WallBackCut);
      while |queue| > 0
        invariant WallPassAt(objects0, data.objects, origin, queue, p, moments, WallFrontCut, WallBackCut)
        decreases QueueWeight(data.objects, queue, |moments| + 1)
      {
        origin, queue, p := CutHead(data, moments, objects0, origin, queue, p);
      }
      OriginDone(objects0, data.objects, origin, p, moments, WallFrontCut, WallBackCut);
    }

    /**
     * One step of the wall pass: the wall at the head of the worklist is cut
     * against all moments, and its tails are appended to the beatmap and to
     * the worklist.
     */
    method CutHead(data: ModBeatmapData, moments: seq<Moment>, ghost objects0: seq<BeatmapObject>,
                   ghost origin: seq<BeatmapObject>, queue: seq<nat>, ghost p: nat)
      returns (ghost origin': seq<BeatmapObject>, queue': seq<nat>, ghost p': nat)
      requires WallFrontCut >= 0.0 && WallBackCut >= 0.0
      requires WallPassAt(objects0, data.objects, origin, queue, p, moments, WallFrontCut, WallBackCut) && queue != []
      modifies data`objects
      ensures WallPassAt(objects0, data.objects, origin', queue', p', moments, WallFrontCut, WallBackCut)
      ensures QueueWeight(data.objects, queue', |moments| + 1) < QueueWeight(old(data.objects), queue, |moments| + 1)
    {
      var wall, tails := CutObstacle(data.objects[queue[0]], moments);
      WallPassStep(objects0, data.objects, origin, queue, p, wall, tails, moments, WallFrontCut, WallBackCut);
      origin', p' := origin + tails, queue[0] + 1;
      data.objects, queue' := AfterStep(data.objects, queue, wall, tails), QueueAfterStep(data.objects, queue, tails);
    }

    // -------------------------------------------------------------------------
    // Bomb removal

    /** One bomb against every moment, in order: a moment that hits it moves it to time 0 (removed later). */
    method ClearBombAgainst(nd: BeatmapObject, moments: seq<Moment>) returns (r: BeatmapObject)
      requires nd.IsBomb()
      ensures r == ClearBomb(nd, moments, WallFrontCut, WallBackCut)
    {
      r := nd;
      for j := 0 to |moments|
        invariant r == if AnyBombHit(nd, moments[..j], WallFrontCut, WallBackCut) then WithTime(nd, 0.0) else nd
      {
        var m := moments[j];
        ghost var hitBefore := AnyBombHit(nd, moments[..j], WallFrontCut, WallBackCut);
        if r.time >= m.time - WallFrontCut && r.time < m.time + WallBackCut {
          if (r.lineIndex <= 2 && m.amount < 0) || (r.lineIndex >= 1 && m.amount > 0) {
            r := WithTime(r, 0.0);
          }
        }
        assert moments[..j + 1] == moments[..j] + [m];
        if hitBefore {
          var w :| w in moments[..j] && BombHit(nd.time, nd.lineIndex, w, WallFrontCut, WallBackCut);
          assert w in moments[..j + 1];
        } else if BombHit(nd.time, nd.lineIndex, m, WallFrontCut, WallBackCut) {
          assert m in moments[..j + 1];
        }
      }
      assert moments[..|moments|] == moments;
    }

    /** Every bomb of the beatmap is checked against the moments; nothing else changes. */
    method RemoveBombs(data: ModBeatmapData, moments: seq<Moment>)
      modifies data`objects
      ensures |data.objects| == |old(data.objects)|
      ensures forall x :: 0 <= x < |data.objects| ==>
        data.objects[x] == ClearBomb(old(data.objects)[x], moments, WallFrontCut, WallBackCut)
    {
      ghost var objects0 := data.objects;
      var bombs := Indices(data.objects, IsBombObject);
      IndicesComplete(data.objects, IsBombObject);
      IndicesIncreasing(data.objects, IsBombObject);
      for p := 0 to |bombs|
        invariant |data.objects| == |objects0|
        invariant forall x :: 0 <= x < |objects0| ==>
          data.objects[x] == if x in bombs[..p] then ClearBomb(objects0[x], moments, WallFrontCut, WallBackCut) else objects0[x]
      {
        var b := bombs[p];
        assert b !in bombs[..p] by {
          forall y | 0 <= y < p ensures bombs[..p][y] != b {
            assert bombs[y] < bombs[p];
          }
        }
        var r := ClearBombAgainst(data.objects[b], moments);
        data.objects := data.objects[b := r];
        assert bombs[..p + 1] == bombs[..p] + [b];
      }
      assert bombs[..|bombs|] == bombs;
    }

    // -------------------------------------------------------------------------
    // The bar loop

    /**
     * What a run keeps track of while it walks the bars: the planner's
     * moments are committed amounts, one event was counted per moment, and
     * the rotation state is `Budgeted`.
     */
    ghost predicate Tracks(data: ModBeatmapData, planner: RotationPlanner, events0: seq<BeatmapEvent>)
      reads planner, data`events
    {
      && planner.Valid()
      && Budgeted(data.events, events0, planner.wallCutMoments, planner.totalRotation, LimitRotations, EnableSpin)
    }

    /**
     * The notes of one bar: from note `i0` on, every note that starts before
     * the bar's end (relative to the first note) is consumed, and the non-bombs
     * among them form the bar.
     */
    method CollectBar(objects: seq<BeatmapObject>, notes: seq<nat>, i0: nat, first: real, barEnd: real)
      returns (bar: seq<nat>, i: nat)
      requires i0 < |notes| && NotesIn(objects, notes)
      requires objects[notes[i0]].time - first < barEnd
      ensures i0 < i <= |notes|
      ensures bar == NonBombs(objects, notes, i0, i)
      ensures forall y :: i0 <= y < i ==> objects[notes[y]].time - first < barEnd
      ensures i < |notes| ==> objects[notes[i]].time - first >= barEnd
      ensures i - i0 == BarRun(Gather(objects, notes)[i0..], first, barEnd)
    {
      bar, i := [], i0;
      while i < |notes| && objects[notes[i]].time - first < barEnd
        invariant i0 <= i <= |notes|
        invariant bar == NonBombs(objects, notes, i0, i)
        invariant forall y :: i0 <= y < i ==> objects[notes[y]].time - first < barEnd
      {
        if objects[notes[i]].cutDirection != NoDirection {
          bar := bar + [notes[i]];
        }
        i := i + 1;
      }
      ghost var run := Gather(objects, notes)[i0..];
      assert forall y :: 0 <= y < |run| ==> run[y] == objects[notes[i0 + y]];
      BarRunIs(run, first, barEnd, i - i0);
    }

    /** The notes of sub-beat `j`: from position `k0` of the bar, the run of notes whose sub-beat is `j`. */
    method CollectBeat(objects: seq<BeatmapObject>, bar: seq<nat>, k0: nat, first: real, barStart: real,
                       divided: real, j: int) returns (k: nat)
      requires k0 <= |bar| && NotesIn(objects, bar) && divided != 0.0
      ensures k0 <= k <= |bar|
      ensures forall y :: k0 <= y < k ==> SubBeat(objects[bar[y]].time, first, barStart, divided) == j
      ensures k < |bar| ==> SubBeat(objects[bar[k]].time, first, barStart, divided) != j
      ensures k - k0 == BeatRun(Gather(objects, bar)[k0..], first, barStart, divided, j)
    {
      k := k0;
      while k < |bar| && SubBeat(objects[bar[k]].time, first, barStart, divided) == j
        invariant k0 <= k <= |bar|
        invariant forall y :: k0 <= y < k ==> SubBeat(objects[bar[y]].time, first, barStart, divided) == j
      {
        k := k + 1;
      }
      ghost var run := Gather(objects, bar)[k0..];
      assert forall y :: 0 <= y < |run| ==> run[y] == objects[bar[k0 + y]];
      BeatRunIs(run, first, barStart, divided, j, k - k0);
    }

    /**
     * The one-saber reduction of a sub-beat: each of its notes becomes its
     * `OneSaberNote` for the chosen rotation; nothing else changes.
     */
    method OneSaber(data: ModBeatmapData, beat: seq<nat>, rotation: int, mirror: Mirror)
      requires NotesIn(data.objects, beat) && Increasing(beat)
      modifies data`objects
      ensures |data.objects| == |old(data.objects)|
      ensures forall p :: 0 <= p < |beat| ==>
        data.objects[beat[p]] == OneSaberNote(old(data.objects)[beat[p]], rotation, data.NumberOfLines, mirror)
      ensures forall x :: 0 <= x < |data.objects| && x !in beat ==> data.objects[x] == old(data.objects)[x]
      ensures Extends(old(data.objects), data.objects)
    {
      ghost var objects0 := data.objects;
      for p := 0 to |beat|
        invariant |data.objects| == |objects0|
        invariant forall q :: 0 <= q < p ==>
          data.objects[beat[q]] == OneSaberNote(objects0[beat[q]], rotation, data.NumberOfLines, mirror)
        invariant forall x :: 0 <= x < |data.objects| && x !in beat[..p] ==> data.objects[x] == objects0[x]
      {
        var b := beat[p];
        assert b !in beat[..p] by {
          forall y | 0 <= y < p ensures beat[..p][y] != b {
            assert beat[y] < beat[p];
          }
        }
        data.objects := data.objects[b := OneSaberNote(data.objects[b], rotation, data.NumberOfLines, mirror)];
        assert beat[..p + 1] == beat[..p] + [b];
      }
      assert beat[..|beat|] == beat;
    }

    /** No obstacle of the beatmap overlaps the slot of a generated wall. */
    method WallFree(objects: seq<BeatmapObject>, wallTime: real, wallDuration: real) returns (free: bool)
      ensures free <==> forall o :: o in objects ==> !Overlaps(o, wallTime, wallDuration)
    {
      free := true;
      var p := 0;
      while p < |objects|
        invariant 0 <= p <= |objects|
        invariant free && forall q :: 0 <= q < p ==> !Overlaps(objects[q], wallTime, wallDuration)
      {
        if Overlaps(objects[p], wallTime, wallDuration) {
          free := false;
          break;
        }
        p := p + 1;
      }
    }

    /**
     * The wall generator for a sub-beat: when a note follows it and no
     * obstacle overlaps the slot, the generated walls are appended.
     */
    method GenerateWalls(data: ModBeatmapData, beat: seq<nat>, after: Option<BeatmapObject>,
                         wallTime: real, wallDuration: real)
      requires NotesIn(data.objects, beat) && (after.Some? ==> after.value.Note?)
      modifies data`objects
      ensures data.objects == old(data.objects) +
        if after.Some? && forall o :: o in old(data.objects) ==> !Overlaps(o, wallTime, wallDuration)
        then GeneratedWalls(Gather(old(data.objects), beat), after.value, wallTime, wallDuration, WallBackCut)
        else []
      ensures Extends(old(data.objects), data.objects)
    {
      var free := WallFree(data.objects, wallTime, wallDuration);
      if free && after.Some? {
        data.objects := data.objects + GeneratedWalls(Gather(data.objects, beat), after.value, wallTime, wallDuration, WallBackCut);
      }
    }

    /**
     * One non-empty sub-beat: choose and commit the rotation after its last
     * note, then the one-saber reduction and the wall generator.
     */
    method ProcessBeat(data: ModBeatmapData, planner: RotationPlanner, ghost events0: seq<BeatmapEvent>,
                       beat: seq<nat>, after: Option<BeatmapObject>, beatStart: real, barLength: real,
                       divided: real, containsCustomWalls: bool, mirror: Mirror)
      requires Tracks(data, planner, events0)
      requires NotesIn(data.objects, beat) && Increasing(beat) && |beat| > 0
      requires after.Some? ==> after.value.Note?
      modifies planner, data`objects, data`events
      ensures Tracks(data, planner, events0)
      ensures Extends(old(data.objects), data.objects)
      ensures planner.State() == BeatTurns(Rotations(), Gather(old(data.objects), beat), after, barLength, old(planner.State()))
      ensures planner.previousSpinTime == old(planner.previousSpinTime)
      ensures OnlyOneSaber ==>
        var rotation := BeatRotation(Gather(old(data.objects), beat), after, barLength, old(planner.totalRotation),
                                     BottleneckRotations, old(planner.previousDirection));
        forall p :: 0 <= p < |beat| ==>
          data.objects[beat[p]] == OneSaberNote(old(data.objects)[beat[p]], rotation, data.NumberOfLines, mirror)
      ensures WalkKeeps(old(data.objects), data.objects, OnlyOneSaber)
      ensures Untouched(old(data.objects), data.objects, beat)
      ensures var reduced := data.objects[..|old(data.objects)|];
        data.objects == reduced +
          if WallGenerator && !containsCustomWalls && after.Some? &&
             forall o :: o in reduced ==> !Overlaps(o, beatStart, divided)
          then GeneratedWalls(Gather(reduced, beat), after.value, beatStart, divided, WallBackCut)
          else []
    {
      var rotation := CommitBeatRotation(data, planner, events0, beat, after, barLength);
      ReduceAndWall(data, beat, after, rotation, beatStart, divided, containsCustomWalls, mirror);
    }

    /**
     * The rotation after a sub-beat's last note: chosen from the notes near
     * that note, the number of notes and the gap to the next one, then
     * committed at 0.01 seconds past the note.
     */
    method CommitBeatRotation(data: ModBeatmapData, planner: RotationPlanner, ghost events0: seq<BeatmapEvent>,
                              beat: seq<nat>, after: Option<BeatmapObject>, barLength: real) returns (rotation: int)
      requires Tracks(data, planner, events0)
      requires NotesIn(data.objects, beat) && |beat| > 0
      modifies planner, data`events
      ensures Tracks(data, planner, events0)
      ensures rotation == BeatRotation(Gather(data.objects, beat), after, barLength, old(planner.totalRotation),
                                       BottleneckRotations, old(planner.previousDirection))
      ensures planner.State() == BeatTurns(Rotations(), Gather(data.objects, beat), after, barLength, old(planner.State()))
      ensures planner.previousSpinTime == old(planner.previousSpinTime)
    {
      ghost var t0 := planner.State();
      var beatNotes := Gather(data.objects, beat);
      var lastNote := beatNotes[|beat| - 1];
      var nextTime := if after.Some? then Some(after.value.time) else None;
      var rotationCount := RotationCount(|beat|, lastNote.time, nextTime, barLength);
      rotation := BeatRotation(beatNotes, after, barLength, planner.totalRotation,
                               BottleneckRotations, planner.previousDirection);
      rotationCount := AdjustRotationCount(rotationCount, planner.totalRotation, BottleneckRotations, LimitRotations);
      assert BeatTurns(Rotations(), beatNotes, after, barLength, t0) == Committed(t0, rotation, LimitRotations, RotationTime(lastNote));
      Commit(data, planner, events0, RotationTime(lastNote), rotation);
      assert Gather(data.objects, beat) == beatNotes;
    }

    /**
     * The rest of a sub-beat once its rotation is chosen: the one-saber
     * reduction of its notes, then the wall generator. Obstacles stay where
     * they were, and so do notes when both sabers are kept.
     */
    method ReduceAndWall(data: ModBeatmapData, beat: seq<nat>, after: Option<BeatmapObject>, rotation: int,
                         beatStart: real, divided: real, containsCustomWalls: bool, mirror: Mirror)
      requires NotesIn(data.objects, beat) && Increasing(beat) && (after.Some? ==> after.value.Note?)
      modifies data`objects
      ensures Extends(old(data.objects), data.objects)
      ensures OnlyOneSaber ==> forall p :: 0 <= p < |beat| ==>
        data.objects[beat[p]] == OneSaberNote(old(data.objects)[beat[p]], rotation, data.NumberOfLines, mirror)
      ensures WalkKeeps(old(data.objects), data.objects, OnlyOneSaber)
      ensures Untouched(old(data.objects), data.objects, beat)
      ensures var reduced := data.objects[..|old(data.objects)|];
        data.objects == reduced +
          if WallGenerator && !containsCustomWalls && after.Some? &&
             forall o :: o in reduced ==> !Overlaps(o, beatStart, divided)
          then GeneratedWalls(Gather(reduced, beat), after.value, beatStart, divided, WallBackCut)
          else []
    {
      if OnlyOneSaber {
        OneSaber(data, beat, rotation, mirror);
      }
      assert WalkKeeps(old(data.objects), data.objects, OnlyOneSaber) by {
        forall x | 0 <= x < |old(data.objects)| && old(data.objects)[x].Obstacle? ensures x !in beat {
          assert forall p :: 0 <= p < |beat| ==> beat[p] != x;
        }
      }
      ghost var reduced := data.objects;
      if WallGenerator && !containsCustomWalls {
        NotesInExtends(old(data.objects), data.objects, beat);
        GenerateWalls(data, beat, after, beatStart, divided);
      }
      assert forall p :: 0 <= p < |beat| ==> data.objects[beat[p]] == reduced[beat[p]];
    }

    /** The local `Rotate` with the limit enabled, keeping what the run tracks. */
    method Commit(data: ModBeatmapData, planner: RotationPlanner, ghost events0: seq<BeatmapEvent>,
                  time: real, rotation: int)
      requires Tracks(data, planner, events0)
      modifies planner, data`events
      ensures Tracks(data, planner, events0)
      ensures planner.State() == Committed(old(planner.State()), rotation, LimitRotations, time)
      ensures planner.previousSpinTime == old(planner.previousSpinTime)
    {
      CommitKeepsBudgeted(events0, planner.wallCutMoments, planner.totalRotation, rotation,
                          LimitRotations, EnableSpin, time);
      planner.Rotate(data, time, rotation, true, LimitRotations);
    }

    /** The spin flourish for a bar that triggers it, toward the side more of its notes cut to. */
    method SpinBar(data: ModBeatmapData, planner: RotationPlanner, ghost events0: seq<BeatmapEvent>,
                   barNotes: seq<BeatmapObject>, first: real, barStart: real)
      requires Tracks(data, planner, events0) && EnableSpin
      modifies planner, data`events
      ensures Tracks(data, planner, events0)
      ensures planner.State() ==
        Spun(old(planner.State()), first + barStart, TotalSpinTime / SpinSteps as real,
             SpinDirection(Count(barNotes, CutsLeft), Count(barNotes, CutsRight), old(planner.previousDirection)),
             barStart)
    {
      var direction := SpinDirection(Count(barNotes, CutsLeft), Count(barNotes, CutsRight), planner.previousDirection);
      CommitSpin(data, planner, events0, first + barStart, direction, barStart);
    }

    /** The spin with the rotation limit disabled, keeping what the run tracks. */
    method CommitSpin(data: ModBeatmapData, planner: RotationPlanner, ghost events0: seq<BeatmapEvent>,
                      start: real, direction: int, barStart: real)
      requires Tracks(data, planner, events0) && EnableSpin && (direction == 1 || direction == -1)
      modifies planner, data`events
      ensures Tracks(data, planner, events0)
      ensures planner.State() == Spun(old(planner.State()), start, TotalSpinTime / SpinSteps as real, direction, barStart)
    {
      ghost var moments := planner.wallCutMoments;
      ghost var spin := SpinMoments(start, TotalSpinTime / SpinSteps as real, direction, SpinSteps);
      EventsExtend(events0, moments, spin);
      planner.Spin(data, start, TotalSpinTime, direction, barStart);
    }

    /**
     * The sub-beats of a bar divided into `divider` pieces: sub-beat `j`
     * takes the run of notes whose sub-beat index is `j`, and each non-empty
     * one is processed; the note after a sub-beat is the next note of the bar
     * or, after the bar's last sub-beat, the note `notes[i]` after the bar.
     */
    method WalkSubBeats(data: ModBeatmapData, planner: RotationPlanner, ghost events0: seq<BeatmapEvent>,
                        notes: seq<nat>, i: nat, bar: seq<nat>, first: real, barStart: real, barLength: real,
                        divider: nat, containsCustomWalls: bool, mirror: Mirror)
      requires Tracks(data, planner, events0)
      requires NotesIn(data.objects, notes) && i <= |notes| && (i < |notes| ==> notes[i] !in bar)
      requires NotesIn(data.objects, bar) && Increasing(bar) && divider > 0 && barLength > 0.0
      modifies planner, data`objects, data`events
      ensures Tracks(data, planner, events0)
      ensures Extends(old(data.objects), data.objects)
      ensures planner.State() ==
        SubBeatsTurns(Rotations(), Gather(old(data.objects), bar), if i < |notes| then Some(old(data.objects)[notes[i]]) else None,
                      first, barStart, barLength, divider, 0, 0, old(planner.State()))
      ensures WalkKeeps(old(data.objects), data.objects, OnlyOneSaber)
      ensures Untouched(old(data.objects), data.objects, bar)
    {
      ghost var objects0 := data.objects;
      ghost var barNotes := Gather(data.objects, bar);
      ghost var afterBar := if i < |notes| then Some(data.objects[notes[i]]) else None;
      var divided := barLength / divider as real;
      var j, k := 0, 0;
      while j < divider && k < |bar|
        invariant k <= |bar|
        invariant Tracks(data, planner, events0)
        invariant NotesIn(data.objects, notes) && NotesIn(data.objects, bar)
        invariant Extends(objects0, data.objects)
        invariant WalkKeeps(objects0, data.objects, OnlyOneSaber)
        invariant Untouched(objects0, data.objects, bar[..k])
        invariant SubBeatsTurns(Rotations(), barNotes, afterBar, first, barStart, barLength, divider, j, k, planner.State())
               == SubBeatsTurns(Rotations(), barNotes, afterBar, first, barStart, barLength, divider, 0, 0, old(planner.State()))
        decreases divider - j
      {
        k := SubBeatStep(data, planner, events0, notes, i, bar, first, barStart, barLength, divider, divided, j, k,
                         containsCustomWalls, mirror, objects0, afterBar);
        j := j + 1;
      }
      assert forall x :: x in bar[..k] ==> x in bar;
    }

    /**
     * Sub-beat `j` of a bar, from its note `k` on: its notes are collected
     * and, when there are any, processed; `next` is the bar's first note
     * after it.
     */
    method SubBeatStep(data: ModBeatmapData, planner: RotationPlanner, ghost events0: seq<BeatmapEvent>,
                       notes: seq<nat>, i: nat, bar: seq<nat>, first: real, barStart: real, barLength: real,
                       divider: nat, divided: real, j: nat, k: nat, containsCustomWalls: bool, mirror: Mirror,
                       ghost objects0: seq<BeatmapObject>, ghost afterBar: Option<BeatmapObject>)
      returns (next: nat)
      requires Tracks(data, planner, events0)
      requires NotesIn(data.objects, notes) && i <= |notes| && (i < |notes| ==> notes[i] !in bar)
      requires NotesIn(data.objects, bar) && Increasing(bar)
      requires divider > 0 && barLength > 0.0 && divided == barLength / divider as real && j < divider && k < |bar|
      requires NotesIn(objects0, notes) && NotesIn(objects0, bar)
      requires afterBar == if i < |notes| then Some(objects0[notes[i]]) else None
      requires Extends(objects0, data.objects) && WalkKeeps(objects0, data.objects, OnlyOneSaber)
      requires Untouched(objects0, data.objects, bar[..k])
      modifies planner, data`objects, data`events
      ensures k <= next <= |bar|
      ensures Tracks(data, planner, events0)
      ensures NotesIn(data.objects, notes) && NotesIn(data.objects, bar)
      ensures Extends(objects0, data.objects) && WalkKeeps(objects0, data.objects, OnlyOneSaber)
      ensures Untouched(objects0, data.objects, bar[..next])
      ensures SubBeatsTurns(Rotations(), Gather(objects0, bar), afterBar, first, barStart, barLength, divider, j + 1, next, planner.State())
           == SubBeatsTurns(Rotations(), Gather(objects0, bar), afterBar, first, barStart, barLength, divider, j, k, old(planner.State()))
    {
      ghost var barNotes := Gather(objects0, bar);
      ghost var t0 := planner.State();
      GatherUntouched(objects0, data.objects, bar, k);
      next := CollectBeat(data.objects, bar, k, first, barStart, divided, j);
      ghost var afterBeat := if next < |barNotes| then Some(barNotes[next]) else afterBar;
      SubBeatStepTurns(Rotations(), barNotes, afterBar, first, barStart, barLength, divider, j, k, next, t0);
      if next > k {
        var after :=
          if next < |bar| then Some(data.objects[bar[next]])
          else if i < |notes| then Some(data.objects[notes[i]])
          else None;
        assert after == afterBeat;
        BeatStep(data, planner, events0, notes, bar, k, next, after, first + barStart + j as real * divided,
                 barLength, divided, containsCustomWalls, mirror, objects0);
      }
    }

    /**
     * The non-empty sub-beat `bar[k..next]` of the bar walk, given the note
     * after it: it rewrites only its own notes, and its rotation is chosen
     * from the notes as they were before the walk.
     */
    method BeatStep(data: ModBeatmapData, planner: RotationPlanner, ghost events0: seq<BeatmapEvent>,
                    notes: seq<nat>, bar: seq<nat>, k: nat, next: nat, after: Option<BeatmapObject>, beatStart: real,
                    barLength: real, divided: real, containsCustomWalls: bool, mirror: Mirror,
                    ghost objects0: seq<BeatmapObject>)
      requires Tracks(data, planner, events0)
      requires NotesIn(data.objects, notes) && NotesIn(data.objects, bar) && Increasing(bar)
      requires k < next <= |bar| && (after.Some? ==> after.value.Note?)
      requires NotesIn(objects0, bar)
      requires Extends(objects0, data.objects) && WalkKeeps(objects0, data.objects, OnlyOneSaber)
      requires Untouched(objects0, data.objects, bar[..k])
      modifies planner, data`objects, data`events
      ensures Tracks(data, planner, events0)
      ensures NotesIn(data.objects, notes) && NotesIn(data.objects, bar)
      ensures Extends(objects0, data.objects) && WalkKeeps(objects0, data.objects, OnlyOneSaber)
      ensures Untouched(objects0, data.objects, bar[..next])
      ensures planner.State() == BeatTurns(Rotations(), Gather(objects0, bar)[k..next], after, barLength, old(planner.State()))
    {
      GatherUntouched(objects0, data.objects, bar, k);
      SliceFacts(data.objects, bar, k, next);
      GatherAgree(objects0, data.objects, bar, k, next);
      ghost var before := data.objects;
      ProcessBeat(data, planner, events0, bar[k..next], after, beatStart, barLength, divided, containsCustomWalls, mirror);
      UntouchedStep(objects0, before, data.objects, bar, k, next);
      KeepsStep(objects0, before, data.objects, OnlyOneSaber);
      NotesInExtends(before, data.objects, notes);
      NotesInExtends(before, data.objects, bar);
    }

    /**
     * One non-empty bar: the spin flourish when it triggers, otherwise the
     * bar divided into sub-beats by its note count (not at all from 58 notes on).
     */
    method ProcessBar(data: ModBeatmapData, planner: RotationPlanner, ghost events0: seq<BeatmapEvent>,
                      notes: seq<nat>, i: nat, bar: seq<nat>, first: real, barStart: real, barLength: real,
                      containsCustomWalls: bool, mirror: Mirror)
      requires Tracks(data, planner, events0)
      requires NotesIn(data.objects, notes) && i <= |notes| && (i < |notes| ==> notes[i] !in bar)
      requires NotesIn(data.objects, bar) && Increasing(bar) && barLength > 0.0
      modifies planner, data`objects, data`events
      ensures Tracks(data, planner, events0)
      ensures Extends(old(data.objects), data.objects)
      ensures planner.State() ==
        BarTurns(Rotations(), Gather(old(data.objects), bar), if i < |notes| then Some(old(data.objects)[notes[i]]) else None,
                 first, barStart, barLength, old(planner.State()))
      ensures SpinTriggers(EnableSpin, Gather(old(data.objects), bar), barStart, old(planner.previousSpinTime), SpinCooldown) ==>
        data.objects == old(data.objects)
      ensures BarDivider(|bar|) == 0 ==> data.objects == old(data.objects)
      ensures WalkKeeps(old(data.objects), data.objects, OnlyOneSaber)
      ensures Untouched(old(data.objects), data.objects, bar)
    {
      var barNotes := Gather(data.objects, bar);
      if SpinTriggers(EnableSpin, barNotes, barStart, planner.previousSpinTime, SpinCooldown) {
        SpinBar(data, planner, events0, barNotes, first, barStart);
        return;
      }
      var divider := BarDivider(|bar|);
      if divider > 0 {
        WalkSubBeats(data, planner, events0, notes, i, bar, first, barStart, barLength, divider,
                     containsCustomWalls, mirror);
      }
    }

    /**
     * The bar loop: from the first unconsumed note, the bar it falls in is
     * collected (which always consumes that note) and processed when it holds
     * a non-bomb note.
     */
    method WalkBars(data: ModBeatmapData, planner: RotationPlanner, ghost events0: seq<BeatmapEvent>,
                    notes: seq<nat>, barLength: real, containsCustomWalls: bool, mirror: Mirror)
      requires Tracks(data, planner, events0)
      requires NotesIn(data.objects, notes) && Increasing(notes) && |notes| > 0 && barLength > 0.0
      modifies planner, data`objects, data`events
      ensures Tracks(data, planner, events0)
      ensures WalkKeeps(old(data.objects), data.objects, OnlyOneSaber)
      ensures planner.State() ==
        BarsTurns(Rotations(), Gather(old(data.objects), notes), old(data.objects)[notes[0]].time, barLength, old(planner.State()))
    {
      ghost var objects0 := data.objects;
      var first := data.objects[notes[0]].time;
      var i := 0;
      while i < |notes|
        invariant i <= |notes|
        invariant Tracks(data, planner, events0)
        invariant NotesIn(data.objects, notes)
        invariant Extends(objects0, data.objects) && WalkKeeps(objects0, data.objects, OnlyOneSaber)
        invariant forall y :: i <= y < |notes| ==> data.objects[notes[y]] == objects0[notes[y]]
        invariant BarsTurns(Rotations(), Gather(objects0, notes)[i..], first, barLength, planner.State())
               == BarsTurns(Rotations(), Gather(objects0, notes), first, barLength, old(planner.State()))
        decreases |notes| - i
      {
        i := BarStep(data, planner, events0, notes, i, first, barLength, containsCustomWalls, mirror, objects0);
      }
    }

    /**
     * One bar of the bar loop, from the unconsumed note `i`: the bar that note
     * falls in is collected and, when it holds a non-bomb note, processed;
     * `next` is the first note after the bar.
     */
    method BarStep(data: ModBeatmapData, planner: RotationPlanner, ghost events0: seq<BeatmapEvent>,
                   notes: seq<nat>, i: nat, first: real, barLength: real, containsCustomWalls: bool, mirror: Mirror,
                   ghost objects0: seq<BeatmapObject>)
      returns (next: nat)
      requires Tracks(data, planner, events0)
      requires NotesIn(data.objects, notes) && Increasing(notes) && i < |notes| && barLength > 0.0
      requires NotesIn(objects0, notes)
      requires Extends(objects0, data.objects) && WalkKeeps(objects0, data.objects, OnlyOneSaber)
      requires forall y :: i <= y < |notes| ==> data.objects[notes[y]] == objects0[notes[y]]
      modifies planner, data`objects, data`events
      ensures i < next <= |notes|
      ensures Tracks(data, planner, events0)
      ensures NotesIn(data.objects, notes)
      ensures Extends(objects0, data.objects) && WalkKeeps(objects0, data.objects, OnlyOneSaber)
      ensures forall y :: next <= y < |notes| ==> data.objects[notes[y]] == objects0[notes[y]]
      ensures BarsTurns(Rotations(), Gather(objects0, notes)[next..], first, barLength, planner.State())
           == BarsTurns(Rotations(), Gather(objects0, notes)[i..], first, barLength, old(planner.State()))
    {
      ghost var rest := Gather(objects0, notes)[i..];
      ghost var t0 := planner.State();
      ghost var rot := Rotations();
      var head := data.objects[notes[i]];
      var offset := head.time - first;
      var barStart := BarStart(offset, barLength);
      var barEnd := BarEnd(barStart, barLength);
      BarEndCoversNote(offset, barLength);
      var bar;
      bar, next := CollectBar(data.objects, notes, i, first, barEnd);
      BarCollected(data.objects, objects0, notes, i, next, first, barEnd);
      BarNotes(data.objects, notes, i, next);
      ghost var barNotes := NonBombNotes(rest[..next - i]);
      ghost var afterBar := if next - i < |rest| then Some(rest[next - i]) else None;
      ghost var after := Gather(objects0, notes)[next..];
      assert rest[0] == head;
      assert after == rest[next - i..];
      assert afterBar == if next < |notes| then Some(objects0[notes[next]]) else None;
      WalkBar(data, planner, events0, notes, next, bar, first, barStart, barLength, containsCustomWalls, mirror,
              objects0, barNotes, afterBar);
      BarStartOf(offset, rest[0].time - first, barLength);
      BarsTurnsStep(rot, rest, after, first, barLength, barStart, barEnd, next - i, barNotes, afterBar, t0, planner.State());
    }

    /**
     * A collected bar of the bar loop, processed when it holds a non-bomb
     * note: its notes and the note after it are those before the walk, and
     * it rewrites none of the notes after it.
     */
    method WalkBar(data: ModBeatmapData, planner: RotationPlanner, ghost events0: seq<BeatmapEvent>,
                   notes: seq<nat>, next: nat, bar: seq<nat>, first: real, barStart: real, barLength: real,
                   containsCustomWalls: bool, mirror: Mirror, ghost objects0: seq<BeatmapObject>,
                   ghost barNotes: seq<BeatmapObject>, ghost afterBar: Option<BeatmapObject>)
      requires Tracks(data, planner, events0)
      requires NotesIn(data.objects, notes) && NotesIn(objects0, notes) && next <= |notes|
      requires NotesIn(data.objects, bar) && Increasing(bar) && barLength > 0.0
      requires forall y :: next <= y < |notes| ==> notes[y] !in bar && data.objects[notes[y]] == objects0[notes[y]]
      requires Extends(objects0, data.objects) && WalkKeeps(objects0, data.objects, OnlyOneSaber)
      requires Gather(data.objects, bar) == barNotes
      requires afterBar == if next < |notes| then Some(objects0[notes[next]]) else None
      modifies planner, data`objects, data`events
      ensures Tracks(data, planner, events0)
      ensures NotesIn(data.objects, notes)
      ensures Extends(objects0, data.objects) && WalkKeeps(objects0, data.objects, OnlyOneSaber)
      ensures forall y :: next <= y < |notes| ==> data.objects[notes[y]] == objects0[notes[y]]
      ensures planner.State() == if barNotes == [] then old(planner.State())
                                 else BarTurns(Rotations(), barNotes, afterBar, first, barStart, barLength, old(planner.State()))
    {
      if |bar| > 0 {
        ghost var before := data.objects;
        ProcessBar(data, planner, events0, notes, next, bar, first, barStart, barLength, containsCustomWalls, mirror);
        NotesInExtends(before, data.objects, notes);
        KeepsStep(objects0, before, data.objects, OnlyOneSaber);
        UntouchedAgree(objects0, before, data.objects, notes, next, bar);
      }
    }

    /** The passes after the bar loop: the wall worklist, bomb removal, and the final sort. */
    method FinalPasses(data: ModBeatmapData, moments: seq<Moment>) returns (ghost origin: seq<BeatmapObject>)
      requires WallFrontCut >= 0.0 && WallBackCut >= 0.0
      modifies data`objects, data`events
      ensures WallPass(old(data.objects), origin, moments, WallFrontCut, WallBackCut)
      ensures data.objects == SortedKept(ClearBombs(Finals(origin, moments, WallFrontCut, WallBackCut),
                                                    moments, WallFrontCut, WallBackCut))
      ensures data.events == SortByKey(old(data.events), EventTime)
      ensures SortedBy(data.objects, ObjectTime) && SortedBy(data.events, EventTime)
      ensures forall o :: o in data.objects ==> o.time > 0.0 && !(o.Obstacle? && o.duration == 0.0)
      ensures multiset(data.events) == multiset(old(data.events))
      ensures forall o :: o in data.objects && o.Obstacle? && Incompatible(o) ==> o.duration < 0.0 || moments == []
      ensures forall o :: o in data.objects && o.IsBomb() ==> !AnyBombHit(o, moments, WallFrontCut, WallBackCut)
    {
      ghost var objects0 := data.objects;
      origin := CutWalls(data, moments);
      ghost var cut := data.objects;
      FinalsFacts(objects0, origin, moments, WallFrontCut, WallBackCut);
      RemoveBombs(data, moments);
      ghost var cleared := data.objects;
      assert cleared == ClearBombs(cut, moments, WallFrontCut, WallBackCut);
      data.SortAndRemove();
      FinalPassFacts(cut, cleared, moments, WallFrontCut, WallBackCut);
    }

    /**
     * The bar loop over the notes of the beatmap with a fresh rotation
     * planner: it commits the moments of the walk over the notes as they were
     * before it, appends one rotation event per moment, and changes no wall
     * and, unless the one-saber reduction is on, no object it found.
     */
    method WalkNotes(data: ModBeatmapData, notes: seq<nat>, barLength: real, containsCustomWalls: bool, mirror: Mirror)
      returns (moments: seq<Moment>)
      requires notes == Indices(data.objects, IsNote) && |notes| > 0 && barLength > 0.0
      modifies data`objects, data`events
      ensures moments == WalkTurns(Rotations(), old(data.objects), barLength).moments
      ensures ValidMoments(moments) && data.events == old(data.events) + RotationEvents(moments)
      ensures !EnableSpin && LimitRotations >= 0 ==> WithinBudget(moments, LimitRotations)
      ensures WalkKeeps(old(data.objects), data.objects, OnlyOneSaber)
    {
      var planner := new RotationPlanner();
      IndicesIncreasing(data.objects, IsNote);
      WalkTurnsStart(Rotations(), data.objects, barLength);
      WalkBars(data, planner, data.events, notes, barLength, containsCustomWalls, mirror);
      moments := planner.wallCutMoments;
    }

    /**
     * The generator. Without any note the run fails before changing anything.
     * Otherwise the beatmap ends sorted with the removal convention applied;
     * its events are the original ones plus one rotation event per committed
     * moment; without spins the net rotation after every moment stays within
     * the limit; no incompatible wall of positive length survives once
     * anything rotated, and no surviving bomb is hit by a moment.
     */
    method Generate(data: ModBeatmapData, mirror: Mirror)
      returns (outcome: Outcome, ghost moments: seq<Moment>, ghost barLength: real)
      requires data.BeatsPerMinute > 0.0 && PreferredBarDuration > 0.0
      requires WallFrontCut >= 0.0 && WallBackCut >= 0.0
      modifies data`objects, data`events
      ensures outcome == NoNotes <==> forall o :: o in old(data.objects) ==> !o.Note?
      ensures outcome == NoNotes ==> data.objects == old(data.objects) && data.events == old(data.events)
      ensures outcome == Generated ==>
        && SortedBy(data.objects, ObjectTime) && SortedBy(data.events, EventTime)
        && (forall o :: o in data.objects ==> o.time > 0.0 && !(o.Obstacle? && o.duration == 0.0))
        && ValidMoments(moments)
        && multiset(data.events) == multiset(old(data.events) + RotationEvents(moments))
        && (!EnableSpin && LimitRotations >= 0 ==> WithinBudget(moments, LimitRotations))
        && (forall o :: o in data.objects && o.Obstacle? && Incompatible(o) ==> o.duration < 0.0 || moments == [])
        && (forall o :: o in data.objects && o.IsBomb() ==> !AnyBombHit(o, moments, WallFrontCut, WallBackCut))
      ensures outcome == Generated ==>
        && 0.75 * PreferredBarDuration <= barLength < 1.5 * PreferredBarDuration
        && (exists h: nat, d: nat {:trigger Scale(barLength, h), Scale(60.0 / data.BeatsPerMinute, d)} ::
              Scale(barLength, h) == Scale(60.0 / data.BeatsPerMinute, d))
        && moments == WalkTurns(Rotations(), old(data.objects), barLength).moments
      ensures outcome == Generated ==> data.events == SortByKey(old(data.events) + RotationEvents(moments), EventTime)
      ensures outcome == Generated ==>
        forall o :: o in old(data.objects) && o.Obstacle? && Kept(FinalWall(o, moments, WallFrontCut, WallBackCut)) ==>
          FinalWall(o, moments, WallFrontCut, WallBackCut) in data.objects
      ensures outcome == Generated && !OnlyOneSaber ==>
        forall o :: o in old(data.objects) && o.Note? && o.time > 0.0 && !(o.IsBomb() && AnyBombHit(o, moments, WallFrontCut, WallBackCut))
          ==> o in data.objects
    {
      var containsCustomWalls := Count(data.objects, IsCustomWall) > 12;
      var beatDuration := 60.0 / data.BeatsPerMinute;
      var length;
      ghost var halvings, doublings;
      length, halvings, doublings := SnapBarLength(beatDuration, PreferredBarDuration);
      barLength := length;
      var notes := Indices(data.objects, IsNote);
      IndicesComplete(data.objects, IsNote);
      if |notes| == 0 {
        return NoNotes, [], barLength;
      }
      assert data.objects[notes[0]] in old(data.objects);
      var wallCutMoments := WalkNotes(data, notes, length, containsCustomWalls, mirror);
      moments := wallCutMoments;
      ghost var walked := data.objects;
      ghost var origin := FinalPasses(data, wallCutMoments);
      PassesKeep(old(data.objects), walked, origin, moments, WallFrontCut, WallBackCut, OnlyOneSaber);
      assert Scale(barLength, halvings) == Scale(60.0 / data.BeatsPerMinute, doublings);
      outcome := Generated;
    }
  }
}
