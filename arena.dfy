/**
 * Lists of beatmap objects held by position. The generator keeps several
 * lists that share objects with the beatmap (all notes, the non-bomb notes of
 * a bar, the notes of a sub-beat, the wall worklist); here each such list is
 * a sequence of indices into the beatmap's object sequence, so an update
 * through one list is seen through every other.
 */
module Arena {
  import opened ModBeatmap

  /** Strictly increasing positions: each object is listed once, in beatmap order. */
  ghost predicate Increasing(s: seq<nat>)
  {
    forall a, b :: 0 <= a < b < |s| ==> s[a] < s[b]
  }

  /** Every listed position holds a note. */
  ghost predicate NotesIn(objects: seq<BeatmapObject>, idx: seq<nat>)
  {
    forall p :: 0 <= p < |idx| ==> idx[p] < |objects| && objects[idx[p]].Note?
  }

  /**
   * `after` is `before` with objects possibly changed in place and objects
   * appended, and no object changed from a note to an obstacle or back.
   */
  ghost predicate Extends(before: seq<BeatmapObject>, after: seq<BeatmapObject>)
  {
    |before| <= |after| && forall x :: 0 <= x < |before| ==> (after[x].Note? <==> before[x].Note?)
  }

  lemma NotesInExtends(before: seq<BeatmapObject>, after: seq<BeatmapObject>, idx: seq<nat>)
    requires NotesIn(before, idx) && Extends(before, after)
    ensures NotesIn(after, idx)
  {
  }

  /** The positions of the objects satisfying `p`, in order (LINQ `OfType`/`Where` over the object list). */
  function Indices(objects: seq<BeatmapObject>, p: BeatmapObject -> bool): (r: seq<nat>)
    ensures forall q :: 0 <= q < |r| ==> r[q] < |objects| && p(objects[r[q]])
  {
    if objects == [] then []
    else
      var last := |objects| - 1;
      var front := Indices(objects[..last], p);
      assert forall q :: 0 <= q < |front| ==> objects[..last][front[q]] == objects[front[q]];
      front + (if p(objects[last]) then [last] else [])
  }

  /** Every position whose object satisfies `p` is listed. */
  lemma {:induction false} IndicesComplete(objects: seq<BeatmapObject>, p: BeatmapObject -> bool)
    ensures forall x :: 0 <= x < |objects| && p(objects[x]) ==> x in Indices(objects, p)
  {
    if objects != [] {
      var last := |objects| - 1;
      IndicesComplete(objects[..last], p);
      assert forall x :: 0 <= x < last ==> objects[..last][x] == objects[x];
    }
  }

  /** The positions are listed once each, in beatmap order. */
  lemma {:induction false} IndicesIncreasing(objects: seq<BeatmapObject>, p: BeatmapObject -> bool)
    ensures Increasing(Indices(objects, p))
  {
    if objects != [] {
      var last := |objects| - 1;
      IndicesIncreasing(objects[..last], p);
    }
  }

  /** The objects at the listed positions. */
  function Gather(objects: seq<BeatmapObject>, idx: seq<nat>): (r: seq<BeatmapObject>)
    requires forall p :: 0 <= p < |idx| ==> idx[p] < |objects|
    ensures |r| == |idx| && forall p :: 0 <= p < |idx| ==> r[p] == objects[idx[p]]
  {
    seq(|idx|, p requires 0 <= p < |idx| => objects[idx[p]])
  }

  /** Gathering distributes over concatenation of position lists. */
  lemma GatherAppend(objects: seq<BeatmapObject>, a: seq<nat>, b: seq<nat>)
    requires forall p :: 0 <= p < |a| ==> a[p] < |objects|
    requires forall p :: 0 <= p < |b| ==> b[p] < |objects|
    ensures forall p :: 0 <= p < |a + b| ==> (a + b)[p] < |objects|
    ensures Gather(objects, a + b) == Gather(objects, a) + Gather(objects, b)
  {
    assert forall p :: 0 <= p < |a + b| ==> (a + b)[p] == if p < |a| then a[p] else b[p - |a|];
    var l, r := Gather(objects, a + b), Gather(objects, a) + Gather(objects, b);
    assert |l| == |r|;
    forall p | 0 <= p < |l| ensures l[p] == r[p] {
      if p < |a| { assert r[p] == Gather(objects, a)[p]; } else { assert r[p] == Gather(objects, b)[p - |a|]; }
    }
  }

  /** The positions `idx[lo]`, ..., `idx[hi - 1]` that do not hold a bomb, in order. */
  function NonBombs(objects: seq<BeatmapObject>, idx: seq<nat>, lo: nat, hi: nat): (r: seq<nat>)
    requires lo <= hi <= |idx| && forall p :: 0 <= p < |idx| ==> idx[p] < |objects|
    ensures |r| <= hi - lo
    decreases hi
  {
    if hi == lo then []
    else NonBombs(objects, idx, lo, hi - 1) + (if objects[idx[hi - 1]].IsBomb() then [] else [idx[hi - 1]])
  }

  /** The non-bombs of a range are exactly its positions that do not hold a bomb. */
  lemma {:induction false} NonBombsMembers(objects: seq<BeatmapObject>, idx: seq<nat>, lo: nat, hi: nat)
    requires lo <= hi <= |idx| && forall p :: 0 <= p < |idx| ==> idx[p] < |objects|
    decreases hi
    ensures forall b :: b in NonBombs(objects, idx, lo, hi) <==> b in idx[lo..hi] && !objects[b].IsBomb()
  {
    if hi > lo {
      NonBombsMembers(objects, idx, lo, hi - 1);
      assert idx[lo..hi] == idx[lo..hi - 1] + [idx[hi - 1]];
    }
  }

  /** The non-bombs of a list of notes are notes. */
  lemma {:induction false} NonBombsNotes(objects: seq<BeatmapObject>, idx: seq<nat>, lo: nat, hi: nat)
    requires lo <= hi <= |idx| && NotesIn(objects, idx)
    decreases hi
    ensures NotesIn(objects, NonBombs(objects, idx, lo, hi))
  {
    if hi > lo {
      NonBombsNotes(objects, idx, lo, hi - 1);
    }
  }

  /** The non-bombs of a range of positions below `bound` are below `bound`. */
  lemma {:induction false} NonBombsBounded(objects: seq<BeatmapObject>, idx: seq<nat>, lo: nat, hi: nat, bound: nat)
    requires lo <= hi <= |idx| && forall p :: 0 <= p < |idx| ==> idx[p] < |objects|
    requires forall y :: lo <= y < hi ==> idx[y] < bound
    decreases hi
    ensures forall p :: 0 <= p < |NonBombs(objects, idx, lo, hi)| ==> NonBombs(objects, idx, lo, hi)[p] < bound
  {
    if hi > lo {
      NonBombsBounded(objects, idx, lo, hi - 1, bound);
    }
  }

  /** The non-bombs of a list in beatmap order are in beatmap order. */
  lemma {:induction false} NonBombsIncreasing(objects: seq<BeatmapObject>, idx: seq<nat>, lo: nat, hi: nat)
    requires lo <= hi <= |idx| && (forall p :: 0 <= p < |idx| ==> idx[p] < |objects|) && Increasing(idx)
    decreases hi
    ensures Increasing(NonBombs(objects, idx, lo, hi))
  {
    if hi > lo {
      NonBombsIncreasing(objects, idx, lo, hi - 1);
      NonBombsBounded(objects, idx, lo, hi - 1, idx[hi - 1]);
    }
  }

  /** A slice of a list of notes in beatmap order is one too. */
  lemma SliceFacts(objects: seq<BeatmapObject>, idx: seq<nat>, lo: nat, hi: nat)
    requires NotesIn(objects, idx) && Increasing(idx) && lo <= hi <= |idx|
    ensures NotesIn(objects, idx[lo..hi]) && Increasing(idx[lo..hi])
  {
  }
}
