# Beat-360fyer generator, modelled in Dafny

This project models the 360-degree generator of the Beat-360fyer library.
`Generator360.Generate` takes a standard Beat Saber beatmap and turns it into a 360-degree one:

1. It aligns a bar length to the song's beat.
2. It walks the notes bar by bar, splits each bar into sub-beats by its note density, and emits a rotation event (type `Event15`, value 0..7) at the end of each sub-beat.
3. Optionally it keeps the notes of one saber and adds side walls.
4. It cuts the walls the play space turns into and removes the bombs it turns into.
5. Finally `ModBeatmapData.SortAndRemove` drops the marked objects and sorts everything by time.

The model follows the source's structure:

- `ordering.dfy` (`TimeOrder`) is a stable sort by a real key. It stands for LINQ `OrderBy`, with its properties proved: sorted, a permutation, and equal keys kept in input order.
- `beatmap.dfy` (`ModBeatmap`) holds the object model:
  - the enums and the note/obstacle/event records as datatypes;
  - the beatmap as the class `ModBeatmapData`, whose `objects` and `events` lists are fields the methods reassign;
  - `SortAndRemove` and `CreateBomb`.
- `rotation.dfy` (`Rotation`) holds the arithmetic and decision tables of `Generate`:
  - the tolerant `Floor`, the bar-length alignment loops and the bar bounds;
  - the clamp and budget of the local `Rotate` and the rotation-event encoding with its inverse;
  - the bar-divider table, the rotation-count escalation, the direction choice and its later adjustments;
  - the spin direction and trigger, and the one-saber rewrite of a note.
- `walls.dfy` (`Walls`) covers the cut of one wall by one rotation moment and by all of them, and the termination measure of the wall worklist. It also holds bomb removal and the walls the wall generator adds.
- `planner.dfy` (`Planner`) holds the rotation state of one run as a class `RotationPlanner`: running total, previous direction, previous spin time, event count and wall-cut moments. It also holds the local `Rotate` and the 24-step spin as methods on it.
- `arena.dfy` (`Arena`) and `generator.dfy` (`Generator`) hold the object lists that share objects with the beatmap and the generator itself. `Generator360` is a class with the configuration properties as fields, and the loops of `Generate` are methods with loop invariants. Beside the class, `generator.dfy` defines the bar walk over values (`WalkTurns`, `BarsTurns`, `BarTurns`, `SubBeatsTurns`, `BeatTurns`): the rotation state that the bar loop reaches, computed from the input notes alone. Each loop of the class is proved to follow it step by step, so the moments `Generate` commits are exactly those of this walk.

C# objects are references: the note list, the notes of a bar and of a sub-beat, and the wall queue all share objects with `data.objects`. In the model the beatmap's object list is a sequence of values. Every other list is a sequence of indices into it, so an update made through one list (a note's time set to 0, a wall shortened) is seen through all of them.

Times are seconds, modelled as reals.

Some behaviours of the code are easy to misread. The model follows the code:

- The spin rotates toward the side more notes cut to: `leftCount > rightCount` gives -1 (Generator360.cs:144-153).
- The "no notes in this bar" test counts only notes that are not bombs (Generator360.cs:129-137). The note list that the first note is taken from includes bombs (Generator360.cs:112-117).
- The bottleneck and limit adjustments (Generator360.cs:271-287) change only `rotationCount`, after `rotation` is chosen (Generator360.cs:240-269). They never affect the emitted rotation.
- `SortAndRemove` drops an obstacle only when its duration is exactly 0 (ModBeatmap.cs:25). An obstacle of negative duration survives.
- Spin rotations are committed with the limit disabled (Generator360.cs:158). They do not count toward the running total, so the rotation limit does not bound them.

## Model

| member | source | states |
|---|---|---|
| Rotation.Truncate | LibBeatGenerator/Generator360.cs:56 | the C# `(int)` cast rounds toward zero: the result is within 1 of the input, below it for positive inputs and above it for negative ones |
| Rotation.Floor | LibBeatGenerator/Generator360.cs:54-58 | for a non-negative input, the result is the integer r with r - 0.001 <= f < r + 0.999 (a fraction of at least 0.999 rounds up); a negative input is truncated toward zero |
| Rotation.ScaleIsProduct | LibBeatGenerator/Generator360.cs:106-110 | n doublings of a length multiply it by the power of two 2^n |
| Rotation.ExponentBound | LibBeatGenerator/Generator360.cs:106-108 | the number of halvings is bounded by beat duration / (1.25 * preferred), so the halving loop terminates |
| Rotation.ExponentBoundBelow | LibBeatGenerator/Generator360.cs:109-110 | the number of doublings is bounded by 0.75 * preferred / start, so the doubling loop terminates |
| Rotation.HalveWhileLong | LibBeatGenerator/Generator360.cs:105-108 | the halving loop ends below 1.25 * preferred, at the beat duration halved `halvings` times; after a halving it is at least 0.625 * preferred; it leaves a shorter beat unchanged |
| Rotation.DoubleWhileShort | LibBeatGenerator/Generator360.cs:109-110 | the doubling loop ends at least at 0.75 * preferred, at the start doubled `doublings` times; after a doubling it is below 1.5 * preferred; it leaves a long enough start unchanged |
| Rotation.SnapBarLength | LibBeatGenerator/Generator360.cs:103-110 | the bar length is the beat duration times a power of two (barLength * 2^h == beat * 2^d) and lies in [0.75, 1.5) times the preferred duration; a beat already in [0.75, 1.25) of it is kept |
| Rotation.BarEnd | LibBeatGenerator/Generator360.cs:126 | corrected bar end: equal to the source's value for bars of at least 1 s; always strictly inside the bar |
| Rotation.BarEndCoversNote | LibBeatGenerator/Generator360.cs:123-134 | the bar computed from a note ends after that note, so collecting the bar consumes at least that note and the bar loop progresses |
| Rotation.BarStallsAsWritten | LibBeatGenerator/Generator360.cs:125-134 | with the source's fixed 1 ms tolerance, a 0.5 s bar computed from a note at 0.4992 s ends before that note |
| Rotation.Clamp | LibBeatGenerator/Generator360.cs:79-82 | the request clamped to [-4, 4]: unchanged inside, 4 above, -4 below |
| Rotation.CommittedAmount | LibBeatGenerator/Generator360.cs:75-94 | a zero request commits nothing; the result is in [-4, 4]; without the limit it is the clamped request |
| Rotation.CommittedAmountBudget | LibBeatGenerator/Generator360.cs:84-94 | with the limit enabled and the total within ±limit, the commit keeps the request's sign, is at most the clamped request, keeps the total within ±limit, equals the clamped request when it fits and otherwise lands exactly on the limit |
| Rotation.EventValue | LibBeatGenerator/Generator360.cs:100 | a committed amount is encoded in 0..7, with 4..7 exactly for right turns |
| Rotation.AmountOfEventValue | LibBeatGenerator/Generator360.cs:100 | every event value 0..7 decodes to a non-zero amount in [-4, 4] |
| Rotation.EventValueRoundTrip | LibBeatGenerator/Generator360.cs:100 | decoding the event value gives back the committed amount |
| Rotation.AmountOfEventValueRoundTrip | LibBeatGenerator/Generator360.cs:100 | encoding a decoded value gives back the value: the encoding is a bijection between the 8 amounts and 0..7 |
| Rotation.BarDivider | LibBeatGenerator/Generator360.cs:176-186 | each divider for exactly its note counts: 0 (no rotation) from 58 notes on, 1 for 38-57, 2 for 26-37, 4 for 8-25, 8 below 8 |
| Rotation.BarDividerAntitone | LibBeatGenerator/Generator360.cs:176-186 | a bar with more notes is never divided more finely |
| Rotation.RotationCount | LibBeatGenerator/Generator360.cs:223-238 | the count is 1, 2 or 3; 3 exactly when a sub-beat of at least two notes is followed by a note a bar or more later; at least 2 exactly when that gap is at least a quarter bar |
| Rotation.Count | LibBeatGenerator/Generator360.cs:220-221 | the number of matching notes is at most the list length, and 0 exactly when none matches |
| Rotation.ChooseRotation | LibBeatGenerator/Generator360.cs:240-269 | the rotation is ±count: toward the majority of the last notes; on a tie, back toward the centre once the total reached the bottleneck, otherwise in the previous direction |
| Rotation.NotesNear | LibBeatGenerator/Generator360.cs:217 | exactly the notes within 0.005 s of the given time, each as often as it occurs in the input |
| Rotation.BeatRotation | LibBeatGenerator/Generator360.cs:216-269 | the rotation after a sub-beat is ±1, ±2 or ±3: negative when more of its last notes lean left, positive when more lean right; ±3 exactly when at least two notes are followed by a note a bar or more after the last one |
| Rotation.AdjustRotationCount | LibBeatGenerator/Generator360.cs:271-287 | a zero count stays 0; a count above 1 at a total at or past the right bottleneck (below -1 at the left one) shrinks to ±1; otherwise only its sign may change; a positive count turns negative exactly when the total is within 1 of the right limit, a negative one turns positive exactly when within 1 of the left limit; `Rotation.BeatRotation` does not use it |
| Rotation.SpinDirection | LibBeatGenerator/Generator360.cs:144-153 | the spin direction is ±1: opposite to the previous direction on a tie, otherwise toward the side more notes cut to |
| Rotation.OneSaberNote | LibBeatGenerator/Generator360.cs:293-311 | a note of the dropped colour (A on a right turn, B otherwise) gets time 0; a kept colour-B note keeps its time and layer and takes the mirror's lane, direction and colour; any other note is unchanged; the rotation passed is the one `Rotation.BeatRotation` chooses for the sub-beat |
| Rotation.OneSaberLeftTurn | LibBeatGenerator/Generator360.cs:297-308 | on a left turn no note is mirrored: colour B is dropped and every other note stays |
| Walls.CutStep | LibBeatGenerator/Generator360.cs:378-433 | one moment on one wall: a wall of non-positive duration is untouched; an incompatible wall gets duration 0; a wall the turn goes away from, or whose window the moment misses, is untouched; otherwise no positive piece is left between the front and back margins, a split keeps the head at the wall's start clipped at length 0 and starts the tail at moment + front margin, a head longer than 0.01 s survives ending at moment - back margin, and a part after the front margin longer than 0.01 s survives as the wall or the tail; the wall never grows and a tail ends where the wall ended |
| Walls.CutAllFacts | LibBeatGenerator/Generator360.cs:376-434 | all moments on one wall: lane and kind kept; at most one tail per moment; an incompatible wall ends at duration 0 with no tail; every tail is shorter than the wall and inside it |
| Walls.CutShrinksWeight | LibBeatGenerator/Generator360.cs:407-420 | the tails one wall spawns weigh less than the wall (weight (moments+1)^level with level = duration in 0.01 s), the measure that makes the worklist terminate |
| Walls.ClearBomb | LibBeatGenerator/Generator360.cs:438-451 | a bomb that some moment hits (time in [moment - frontCut, moment + backCut), lanes 0-2 on a left turn, 1-3 on a right turn) gets time 0; every other object is unchanged |
| Walls.SideDuration | LibBeatGenerator/Generator360.cs:332-349 | a side wall keeps the incoming duration unless the next note is in its free lane; then it ends `WallBackCut` before that note, except when the inner lane is used and the next note is on the base layer |
| Walls.SideWall | LibBeatGenerator/Generator360.cs:330-355 | a wall is produced exactly when no note of the sub-beat uses the lane and the duration (`SideDuration`) is positive; it starts at the sub-beat start, is a `Top` wall exactly when the inner lane is used, and ends `WallBackCut` before the next note when that note is in the lane and not under a base-layer `Top` wall, otherwise has the incoming duration; that duration carries over to the next side |
| Walls.GeneratedWalls | LibBeatGenerator/Generator360.cs:314-357 | a right wall (lane 3) exists exactly when lane 3 is free and its `SideDuration` is positive, a left wall (lane 0) likewise with the duration carried over from the right side; each has that duration, width 1, the sub-beat start, and is `Top` exactly when the inner lane is used; right before left |
| Planner.RotationEvent | LibBeatGenerator/Generator360.cs:100 | the event of a moment has the moment's time, type `Event15`, a value in 0..7 that decodes to the moment's amount |
| Planner.RotationEvents | LibBeatGenerator/Generator360.cs:96-100 | one event per committed moment, in the same order |
| Planner.CommitKeepsBudget | LibBeatGenerator/Generator360.cs:84-94 | a limited commit keeps the net rotation after every moment within ±limit |
| Planner.SpinMomentsAt | LibBeatGenerator/Generator360.cs:155-159 | the k-th spin moment is at start + k * TotalSpinTime / 24 with the spin direction |
| Planner.RotationPlanner.constructor | LibBeatGenerator/Generator360.cs:63-71 | a run starts with total 0, previous direction right, previous spin time `float.MinValue`, no events and no moments |
| Planner.RotationPlanner.Rotate | LibBeatGenerator/Generator360.cs:75-101 | nothing changes when the committed amount is 0; otherwise one moment and one matching event are appended, the direction is recorded, and the total moves by the amount only when the limit is enabled |
| Planner.RotationPlanner.SpinUnit | LibBeatGenerator/Generator360.cs:158 | a unit spin rotation is always committed, leaving the total unchanged |
| Planner.RotationPlanner.Spin | LibBeatGenerator/Generator360.cs:155-162 | a spin appends exactly 24 unit moments and their events, leaves the total unchanged, records the direction and the bar start as previous spin time |
| Arena.Indices | LibBeatGenerator/Generator360.cs:112 | the listed positions hold objects of the filtered kind |
| Arena.IndicesComplete | LibBeatGenerator/Generator360.cs:112 | every object of the kind is listed |
| Arena.IndicesIncreasing | LibBeatGenerator/Generator360.cs:112 | the listed objects keep beatmap order, each once |
| Arena.NonBombsMembers | LibBeatGenerator/Generator360.cs:129-134 | the notes collected for a bar are exactly its notes that are not bombs |
| WallWorklist.WallPassStep | LibBeatGenerator/Generator360.cs:372-435 | one dequeued wall cut by all moments completes its position with its `FinalWall`, appends its tails to the beatmap, to the worklist and, uncut, to `origin`, keeps the worklist invariant (positions before the head done, walls from it on queued in order) and lowers the worklist weight |
| WallWorklist.CutSettles | LibBeatGenerator/Generator360.cs:390-395 | after the moments, a wall is no longer an incompatible wall of positive length unless there were no moments |
| Generator.CommitKeepsBudgeted | LibBeatGenerator/Generator360.cs:84-100 | a limited commit of a non-zero amount commits a valid amount, appends the matching event, keeps the total within ±limit and, without spins, equal to the net rotation with every prefix within the limit |
| WallWorklist.FinalPassFacts | LibBeatGenerator/Generator360.cs:437-456 | after bomb removal and sorting, no incompatible wall of positive length remains and no remaining bomb is hit by a moment |
| WallWorklist.FinalWall | LibBeatGenerator/Generator360.cs:376-434 | an object after the wall pass: a note is unchanged; a wall stays the same wall (lane and kind), starts no earlier and ends no later |
| WallWorklist.FinalsFacts | LibBeatGenerator/Generator360.cs:371-435 | after the wall pass the input objects keep their positions, notes unchanged, only walls are appended, and every wall is settled |
| WallWorklist.FinalObjectKept | LibBeatGenerator/Generator360.cs:371-456 | an input object whose cut, bomb-cleared image is kept is in the final sorted beatmap |
| Generator.PassesKeep | LibBeatGenerator/Generator360.cs:371-456 | every input wall whose cut remainder is kept, and without the one-saber reduction every input note with a positive time that is not a hit bomb, survives the final passes |
| Generator.Generator360.CutHead | LibBeatGenerator/Generator360.cs:374-434 | one iteration of the worklist loop keeps the worklist invariant and lowers the worklist weight |
| Generator.Generator360.CommitBeatRotation | LibBeatGenerator/Generator360.cs:216-291 | the committed rotation is `BeatRotation` of the sub-beat's notes, and the planner state becomes `BeatTurns`: that rotation committed with the limit 0.01 s after the last note (appended, added to the total and recorded as the direction unless it commits 0); the run's invariant and the previous spin time are kept |
| Generator.Generator360.ReduceAndWall | LibBeatGenerator/Generator360.cs:293-357 | with one saber every note of the sub-beat becomes its `OneSaberNote` image; then exactly the `GeneratedWalls` of the reduced sub-beat are appended when the wall generator is on, the beatmap has at most 12 custom walls, a note follows and no obstacle overlaps the sub-beat slot, and nothing otherwise; obstacles (with two sabers, all objects) and every object outside the sub-beat stay |
| Generator.Generator360.constructor | LibBeatGenerator/Generator360.cs:16-52 | the default configuration: 1.84 s bars, limit 28, bottleneck 14, no spin, 0.6 s spins, 10 s cooldown, 0.2 s front cut, 0.45 s back cut, no walls, two sabers |
| Generator.Generator360.Configured | LibBeatGenerator/Generator360.cs:16-52 | a generator configured before the run: each of the ten settings (bar duration, limit, bottleneck, spin switch, spin time, cooldown, front and back cut, wall generator, one saber) holds the value it was given, with no restriction |
| Generator.Generator360.CutObstacle | LibBeatGenerator/Generator360.cs:376-434 | the inner loop over the moments computes the fold `CutAll`: the cut wall and its tails in order |
| Generator.Generator360.CutWalls | LibBeatGenerator/Generator360.cs:371-435 | the worklist terminates; the result is every object of `origin` after the wall pass (`WallWorklist.FinalWall`), where `origin` is the input beatmap followed by the tails split off in order (`WallWorklist.WallPass`) |
| Generator.Generator360.ClearBombAgainst | LibBeatGenerator/Generator360.cs:440-450 | the loop over the moments computes `ClearBomb` for a bomb |
| Generator.Generator360.RemoveBombs | LibBeatGenerator/Generator360.cs:437-451 | every object becomes its `ClearBomb` image; the list keeps its length |
| Generator.Generator360.CollectBar | LibBeatGenerator/Generator360.cs:128-134 | consumes at least one note, exactly the notes before the bar end, and collects their non-bombs in order |
| Generator.Generator360.CollectBeat | LibBeatGenerator/Generator360.cs:197-201 | takes exactly the maximal run of notes in sub-beat j |
| Generator.Generator360.OneSaber | LibBeatGenerator/Generator360.cs:293-311 | every note of the sub-beat becomes its `OneSaberNote` image; every other object is unchanged |
| Generator.Generator360.WallFree | LibBeatGenerator/Generator360.cs:319-328 | true exactly when no obstacle overlaps [wallTime, wallTime + duration] |
| Generator.Generator360.GenerateWalls | LibBeatGenerator/Generator360.cs:314-357 | appends `GeneratedWalls` exactly when a next note exists and no obstacle overlaps; otherwise the objects are unchanged |
| Generator.Generator360.Commit | LibBeatGenerator/Generator360.cs:291 | the planner state becomes `Planner.Committed`: the limited commit of the request at the given time is appended, added to the total and recorded as the direction, unless it is 0, when nothing changes; the run's budget invariant and the previous spin time are kept |
| Generator.Generator360.CommitSpin | LibBeatGenerator/Generator360.cs:155-162 | the planner state becomes `Planner.Spun`: exactly the 24 spin moments `SpinMoments(start, TotalSpinTime / 24, direction)` appended, the total unchanged, the direction and the bar start (as previous spin time) recorded; the run's event invariant is kept |
| Generator.Generator360.ProcessBeat | LibBeatGenerator/Generator360.cs:213-357 | the planner state becomes `BeatTurns` of the sub-beat's notes (its `BeatRotation` committed with the limit 0.01 s after its last note); with one saber each of its notes becomes its `OneSaberNote` image for that rotation; the appended objects are exactly the `GeneratedWalls` under the conditions of `ReduceAndWall`; obstacles, with two sabers all old objects, and every object outside the sub-beat stay; the run's invariant and the previous spin time are kept |
| Generator.Generator360.SpinBar | LibBeatGenerator/Generator360.cs:139-163 | the planner state becomes `Planner.Spun`: the 24 moments from the bar start in the `SpinDirection` of the bar's left and right cut counts, the total unchanged, that direction and the bar start recorded; the run's invariant is kept |
| Generator.Generator360.WalkSubBeats | LibBeatGenerator/Generator360.cs:194-362 | the planner state becomes `SubBeatsTurns` of the bar's notes: for each j below the divider, the maximal run of notes in sub-beat j, when not empty, commits its `BeatTurns` given the next note of the bar or, after the bar's last note, the note after the bar; only the bar's notes are rewritten and objects are otherwise only appended; the run's invariant is kept |
| Generator.Generator360.ProcessBar | LibBeatGenerator/Generator360.cs:136-362 | the planner state becomes `BarTurns` of the bar's notes: `Spun` in the spin direction when `SpinTriggers` holds, unchanged from 58 notes on, otherwise `SubBeatsTurns` with the bar's divider; a spin bar and a bar of 58 or more notes change no object; only the bar's notes are rewritten; the run's invariant is kept |
| Generator.Generator360.WalkBars | LibBeatGenerator/Generator360.cs:123-368 | the bar loop terminates, and the planner state becomes `BarsTurns` of the notes (bombs included) as they were before the loop, with bars aligned to the first note: bar after bar, each consuming the notes that start before its end and processing its non-bomb notes when there are any; the run's invariant is kept |
| Generator.BarRun | LibBeatGenerator/Generator360.cs:128-134 | the notes the inner bar loop consumes: every counted note starts before the bar end and the note after them, if any, does not |
| Generator.BeatRun | LibBeatGenerator/Generator360.cs:197-201 | the notes the sub-beat loop takes: every counted note falls in sub-beat j and the note after them, if any, does not |
| Generator.BarSpan | LibBeatGenerator/Generator360.cs:123-134 | the bar computed from the head note consumes at least that note and at most all remaining notes |
| Generator.SubBeatEnd | LibBeatGenerator/Generator360.cs:195-201 | the sub-beat loop ends between its start and the end of the bar's notes |
| Generator.GatherNonBombs | LibBeatGenerator/Generator360.cs:128-134 | the notes collected for a bar, read from the beatmap, are the non-bomb notes among the consumed ones, in order |
| Generator.WalkTurnsStart | LibBeatGenerator/Generator360.cs:112-123 | the walk over the notes of a beatmap with a note starts at its first note in the initial rotation state |
| Generator.BarsTurnsStep | LibBeatGenerator/Generator360.cs:123-138 | one bar of the walk: it ends after `BarSpan` notes, and walking the rest from the state that bar leads to (unchanged when it has no non-bomb note) is walking all the notes |
| Generator.SubBeatStepTurns | LibBeatGenerator/Generator360.cs:195-213 | one sub-beat of the walk: it ends at `SubBeatEnd`, its state is unchanged when it is empty and `BeatTurns` of its notes otherwise, and the sub-beats after it continue from there |
| Generator.Generator360.SubBeatStep | LibBeatGenerator/Generator360.cs:195-357 | one iteration of the sub-beat loop consumes the notes up to `SubBeatEnd` and moves the planner one step along `SubBeatsTurns` of the bar's notes as they were before the walk; it rewrites only the bar's notes up to its end |
| Generator.Generator360.BeatStep | LibBeatGenerator/Generator360.cs:213-357 | a non-empty sub-beat moves the planner by `BeatTurns` of its notes as they were before the walk and rewrites only its own notes |
| Generator.Generator360.BarStep | LibBeatGenerator/Generator360.cs:123-138 | one iteration of the bar loop consumes at least one note and moves the planner one step along `BarsTurns` of the notes as they were before the loop; the notes after the bar are not rewritten |
| Generator.Generator360.WalkBar | LibBeatGenerator/Generator360.cs:136-137 | a collected bar moves the planner by `BarTurns` of its non-bomb notes and the note after it when it has a non-bomb note, and not at all otherwise; the notes after it are not rewritten |
| Generator.Generator360.WalkNotes | LibBeatGenerator/Generator360.cs:112-368 | with a fresh planner the moments are exactly those of `WalkTurns` of the input beatmap, one rotation event per moment is appended, without spins every prefix stays within the limit, and no wall and (with two sabers) no input object changes |
| Generator.Generator360.FinalPasses | LibBeatGenerator/Generator360.cs:371-456 | the objects become the stable time sort of the kept objects among the bomb-cleared wall-pass results (`SortedKept(ClearBombs(Finals(origin)))`) and the events their stable time sort; so: sorted, positive times, no zero-length wall, no incompatible wall of positive length, no hit bomb |
| Generator.Generator360.Generate | LibBeatGenerator/Generator360.cs:60-459 | fails without changes exactly when there is no note; otherwise the bar length lies in [0.75, 1.5) times the preferred one and is the beat duration times a power of two; the moments are exactly those of `WalkTurns`, the walk over the input notes; the events are the stable time sort of the old events plus one per moment; every input wall whose cut remainder is kept, and with two sabers every input note with a positive time that is not a hit bomb, is in the output; the output is sorted with no incompatible wall of positive length and no hit bomb; without spins the rotation stays within the limit after every moment |
| ModBeatmap.CreateBomb | LibBeatGenerator/ModBeatmap.cs:132-135 | a bomb is a note with no cut direction and no colour, at the given time and lane |
| ModBeatmap.FilterKept | LibBeatGenerator/ModBeatmap.cs:25 | keeps exactly the objects that are not zero-length obstacles and have a positive time |
| ModBeatmap.FilterKeptCount | LibBeatGenerator/ModBeatmap.cs:25 | a kept object survives with its multiplicity; a dropped one vanishes |
| ModBeatmap.SortedKeptFacts | LibBeatGenerator/ModBeatmap.cs:25 | the result is sorted by time, with positive times, no zero-length obstacle, a permutation of the kept objects, and equal times in input order |
| ModBeatmap.SortedKeptMember | LibBeatGenerator/ModBeatmap.cs:25 | every remaining object was a kept object of the input |
| ModBeatmap.SortedEventsFacts | LibBeatGenerator/ModBeatmap.cs:26 | events end sorted, a permutation of the input, with equal times in input order |
| ModBeatmap.ModBeatmapData.constructor | LibBeatGenerator/ModBeatmap.cs:13-18 | a new beatmap has the given lane count (fixed afterwards) and no objects or events |
| ModBeatmap.ModBeatmapData.SortAndRemove | LibBeatGenerator/ModBeatmap.cs:23-27 | objects become the stable time-sorted kept objects and events the stable time-sorted events: sorted, positive times, no zero-length obstacle, events a permutation |
| TimeOrder.SortByKeyFacts | LibBeatGenerator/ModBeatmap.cs:25-26 | the stable sort yields a sorted permutation that keeps equal keys in input order |

## Left out

- Logging (`Logger`, the `#if DEBUG` blocks and the `eventCount` report at Generator360.cs:458) produces no state the rest of the run reads. It is modelled only as the planner's counter.
- IEEE single-precision rounding: times and durations are reals, and `0.999f`, `0.001f`, `0.01f` are taken as exact decimals.
- `MirrorLineIndex` is not part of this model. It is a function parameter (`Rotation.Mirror`) that the one-saber reduction applies to colour-B notes.
- Obstacle custom data is reduced to one flag: whether it holds a `_position` key.
- Reference identity: the object lists hold positions in the beatmap's sequence. Two distinct C# objects with equal fields are distinct positions, so aliasing is captured, but object identity beyond list position is not.
- `ModBeatmap.cs` as shown lacks some members that `Generator360.cs` uses: `BeatsPerMinute`, an obstacle's `width`, `obstacleType` and `customData`, and a note's `noteLineLayer`. The model adds them as fields. The model's constructor also takes the tempo.
- The plugin variant of the generator (Beat-360fyer-Plugin/Generator360.cs) and the game-side conversion are not part of this model.
- Generator.Generator360.Generate requires a positive tempo and a positive preferred bar duration: otherwise the source's alignment loops do not terminate.
- Generator.Generator360.Generate requires non-negative `WallFrontCut` and `WallBackCut`: with negative margins a split tail can start before the wall, and the worklist is not shown to terminate.
- Generator.Generator360.Generate returns the outcome `NoNotes`, leaving the beatmap unchanged, where the source throws on `notes[0]` for a beatmap without notes.
- Generator.Generator360.Generate states the rotation budget only when spins are disabled: spin rotations bypass the running total (Generator360.cs:158), so the net rotation is not bounded by the limit when spins occur.
- The generator's configuration properties are fixed for the whole run: they are constant fields, set either to the defaults or, through `Generator360.Configured`, to any values, which is what setting the C# properties before a run does. Changing them between two runs on the same generator object is not modelled (a new generator is built instead), and neither is changing the tempo of a beatmap after it is built.
- Generator.Generator360.Generate states which objects the one-saber reduction rewrites and which walls the wall generator adds only per sub-beat, through `Generator.Generator360.ProcessBeat`; across the whole run it states what is kept (`WalkKeeps`) and what the final passes guarantee.
- Rotation.BarEnd is the corrected bar end that the generator uses (see Findings). For bars of at least 1 s it equals the source's value. For shorter bars it differs only on notes where the source loops forever.

## Findings

| source | as written | input that shows it | evidently intended | confidence | as-written member | corrected member |
|---|---|---|---|---|---|---|
| LibBeatGenerator/Generator360.cs:125-134 | the bar end subtracts a fixed 0.001 s while `Floor` rounds fractions of at least 0.999 of a bar up, so for bars shorter than 1 s a note can fall in a bar whose end is before it; the inner loop then collects nothing and the outer loop repeats on the same note forever | bar length 0.5 s (e.g. 120 bpm with a preferred bar of 0.5 s), first note at 0, next note 0.4992 s later: `Floor(0.9984) == 0`, bar end 0.499 < 0.4992 | the bar computed from a note contains that note (tolerance at most 0.1% of the bar). The corrected end uses 0.001 times the bar length for bars under 1 s. It consumes a note differently from the source only when that note's offset lies in [qL + L - 0.001, qL + L - 0.001L) for its bar q. On every such note the source stalls: the offset rounds down to bar q again and the bar collects nothing. So the correction changes only runs that the source never finishes. | not executed | Rotation.BarStallsAsWritten | Rotation.BarEndCoversNote |
