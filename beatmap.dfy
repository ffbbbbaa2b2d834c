/**
 * The timed object model of a beatmap difficulty: notes, obstacles (walls),
 * signal events, and the beatmap that owns them.
 *
 * The C# classes are reference objects kept in lists; here the beatmap's object
 * list is a sequence of values and every other list of objects (the note list
 * and the wall worklist of the generator) holds INDICES into it, so that a
 * change made through one list is seen through the others, as with references.
 */
module ModBeatmap {
  import opened TimeOrder

  datatype Option<T> = None | Some(value: T)

  datatype ColorType = ColorA | ColorB | NoColor

  datatype CutDirection =
    | Up | Down | Left | Right | UpLeft | UpRight | DownLeft | DownRight | Any | NoDirection

  datatype ObstacleType = FullHeight | Top

  datatype NoteLineLayer = Base | Upper | TopLayer

  /** The event type enumeration; only `Event15` (the rotation signal) is emitted here. */
  datatype EventType =
    | Event0 | Event1 | Event2 | Event3 | Event4 | Event5 | Event6 | Event7
    | Event8 | Event9 | Event10 | Event11 | Event12 | Event13 | Event14 | Event15
    | VoidEvent | Special0 | Special1 | Special2 | Special3

  /**
   * A beatmap object: a note or an obstacle. Both carry a time (seconds) and a
   * lane (`lineIndex`). `hasPosition` stands for "the obstacle's custom data
   * holds a `_position` key"; an obstacle without custom data has it false.
   */
  datatype BeatmapObject =
    | Note(time: real, lineIndex: int, noteLineLayer: NoteLineLayer,
           cutDirection: CutDirection, colorType: ColorType)
    | Obstacle(time: real, lineIndex: int, obstacleType: ObstacleType,
               duration: real, width: int, hasPosition: bool)
  {
    /** A bomb is a note without cut direction. */
    predicate IsBomb() { Note? && cutDirection == NoDirection }
  }

  /** The same object at another time. */
  function WithTime(o: BeatmapObject, time: real): (r: BeatmapObject)
    ensures r.time == time && r.lineIndex == o.lineIndex && r.Note? == o.Note?
  {
    match o
    case Note(_, lineIndex, layer, direction, color) => Note(time, lineIndex, layer, direction, color)
    case Obstacle(_, lineIndex, kind, duration, width, hasPosition) =>
      Obstacle(time, lineIndex, kind, duration, width, hasPosition)
  }

  /** The same obstacle moved to `time` with length `duration`. */
  function Resized(ob: BeatmapObject, time: real, duration: real): (r: BeatmapObject)
    requires ob.Obstacle?
    ensures r.Obstacle? && r.time == time && r.duration == duration
    ensures r.lineIndex == ob.lineIndex && r.obstacleType == ob.obstacleType
    ensures r.width == ob.width && r.hasPosition == ob.hasPosition
  {
    Obstacle(time, ob.lineIndex, ob.obstacleType, duration, ob.width, ob.hasPosition)
  }

  datatype BeatmapEvent = BeatmapEvent(time: real, eventType: EventType, value: int)

  function ObjectTime(o: BeatmapObject): real { o.time }

  function EventTime(e: BeatmapEvent): real { e.time }

  /** A bomb at `time` in lane `lineIndex` (a note with neither direction nor colour). */
  function CreateBomb(time: real, lineIndex: int): (n: BeatmapObject)
    ensures n.Note? && n.IsBomb() && n.colorType == NoColor
    ensures n.time == time && n.lineIndex == lineIndex
  {
    Note(time, lineIndex, Base, NoDirection, NoColor)
  }

  /**
   * The removal convention: an object survives the final pass unless it is an
   * obstacle of duration exactly 0 or its time is not positive.
   */
  predicate Kept(o: BeatmapObject)
  {
    !(o.Obstacle? && o.duration == 0.0) && o.time > 0.0
  }

  /** The kept objects, in their original order (LINQ `Where`). */
  function FilterKept(s: seq<BeatmapObject>): (r: seq<BeatmapObject>)
    ensures |r| <= |s|
    ensures forall o :: o in r <==> o in s && Kept(o)
  {
    if s == [] then []
    else if Kept(s[0]) then [s[0]] + FilterKept(s[1..])
    else FilterKept(s[1..])
  }

  /** A kept object survives with its multiplicity; a dropped one disappears. */
  lemma {:induction false} FilterKeptCount(s: seq<BeatmapObject>, o: BeatmapObject)
    ensures multiset(FilterKept(s))[o] == if Kept(o) then multiset(s)[o] else 0
  {
    if s != [] {
      FilterKeptCount(s[1..], o);
      assert s == [s[0]] + s[1..];
    }
  }

  /** The objects of the beatmap after `SortAndRemove`. */
  function SortedKept(s: seq<BeatmapObject>): seq<BeatmapObject>
  {
    SortByKey(FilterKept(s), ObjectTime)
  }

  /**
   * What `SortAndRemove` promises of the object list: time order, positive
   * times, no zero-length obstacle, and exactly the kept objects of the input
   * (with multiplicities), equal times in their input order.
   */
  lemma SortedKeptFacts(s: seq<BeatmapObject>)
    ensures SortedBy(SortedKept(s), ObjectTime)
    ensures forall o :: o in SortedKept(s) ==> o.time > 0.0 && !(o.Obstacle? && o.duration == 0.0)
    ensures forall o :: multiset(SortedKept(s))[o] == if Kept(o) then multiset(s)[o] else 0
    ensures forall v :: WithKey(SortedKept(s), ObjectTime, v) == WithKey(FilterKept(s), ObjectTime, v)
  {
    SortByKeyFacts(FilterKept(s), ObjectTime);
    forall o ensures multiset(SortedKept(s))[o] == if Kept(o) then multiset(s)[o] else 0 {
      FilterKeptCount(s, o);
    }
    forall o | o in SortedKept(s) ensures o.time > 0.0 && !(o.Obstacle? && o.duration == 0.0) {
      assert o in multiset(SortedKept(s));
      assert o in FilterKept(s);
    }
  }

  /** Every object left by `SortAndRemove` is a kept object of its input. */
  lemma SortedKeptMember(s: seq<BeatmapObject>, o: BeatmapObject)
    requires o in SortedKept(s)
    ensures o in s && Kept(o)
  {
    SortedKeptFacts(s);
    assert o in multiset(SortedKept(s));
  }

  /** Events are only reordered by `SortAndRemove`. */
  lemma SortedEventsFacts(s: seq<BeatmapEvent>)
    ensures SortedBy(SortByKey(s, EventTime), EventTime)
    ensures multiset(SortByKey(s, EventTime)) == multiset(s)
    ensures forall v :: WithKey(SortByKey(s, EventTime), EventTime, v) == WithKey(s, EventTime, v)
  {
    SortByKeyFacts(s, EventTime);
  }

  /**
   * A beatmap difficulty. `objects` and `events` are reassigned by the
   * generator; the lane count and the tempo are fixed at construction.
   */
  class ModBeatmapData {
    var objects: seq<BeatmapObject>
    var events: seq<BeatmapEvent>
    const NumberOfLines: int
    const BeatsPerMinute: real

    constructor (numberOfLines: int, beatsPerMinute: real)
      ensures NumberOfLines == numberOfLines && BeatsPerMinute == beatsPerMinute
      ensures objects == [] && events == []
    {
      NumberOfLines := numberOfLines;
      BeatsPerMinute := beatsPerMinute;
      objects := [];
      events := [];
    }

    /** Removes zero-length obstacles and objects at time <= 0, then sorts everything by time. */
    method SortAndRemove()
      modifies this`objects, this`events
      ensures objects == SortedKept(old(objects))
      ensures events == SortByKey(old(events), EventTime)
      ensures SortedBy(objects, ObjectTime) && SortedBy(events, EventTime)
      ensures forall o :: o in objects ==> o.time > 0.0 && !(o.Obstacle? && o.duration == 0.0)
      ensures multiset(events) == multiset(old(events))
    {
      SortedKeptFacts(objects);
      SortedEventsFacts(events);
      objects := SortedKept(objects);
      events := SortByKey(events, EventTime);
    }
  }
}
