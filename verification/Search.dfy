/** Searching a growing sequence for a pattern.

    `IndexOf` is the index of the first occurrence, -1 if there is none. `Skip` is what a reader
    makes of the bytes that have come so far: all that follows the first occurrence if there is
    one, and otherwise the end of the bytes, in which an occurrence may still begin. The lemmas
    say how the two change when the sequence is cut at the front or grows at the end; the last
    ones join searches in a sequence that grows to one search in the whole.

    Nothing here depends on what the elements are. */
module Search {

  predicate OccursAt<T(==)>(w: seq<T>, s: seq<T>, i: nat) {
    i + |w| <= |s| && s[i..i + |w|] == w
  }

  ghost predicate IsFirst<T>(w: seq<T>, s: seq<T>, i: nat) {
    OccursAt(w, s, i) && forall j: nat :: j < i ==> !OccursAt(w, s, j)
  }

  ghost predicate Absent<T>(w: seq<T>, s: seq<T>) {
    forall j: nat :: !OccursAt(w, s, j)
  }

  /** QByteArray::indexOf: the first occurrence at or after `from`, or -1. */
  function IndexOf<T(==)>(w: seq<T>, s: seq<T>, from: nat): (r: int)
    ensures r == -1 ==> forall j: nat :: from <= j ==> !OccursAt(w, s, j)
    ensures r != -1 ==> r >= from && OccursAt(w, s, r) && forall j: nat :: from <= j < r ==> !OccursAt(w, s, j)
    decreases |s| - from
  {
    if |s| < from + |w| then -1
    else if OccursAt(w, s, from) then from
    else IndexOf(w, s, from + 1)
  }

  lemma OccursInSuffix<T>(w: seq<T>, s: seq<T>, d: nat, j: nat)
    requires d <= |s|
    ensures OccursAt(w, s[d..], j) <==> OccursAt(w, s, d + j)
  {
    if d + j + |w| <= |s| {
      assert s[d..][j..j + |w|] == s[d + j..d + j + |w|];
    }
  }

  lemma OccursInPrefix<T>(w: seq<T>, s: seq<T>, t: seq<T>, j: nat)
    requires j + |w| <= |s|
    ensures OccursAt(w, s, j) <==> OccursAt(w, s + t, j)
  {
    assert (s + t)[j..j + |w|] == s[j..j + |w|];
  }

  lemma IndexOfUnique<T>(w: seq<T>, s: seq<T>, i: nat)
    requires IsFirst(w, s, i)
    ensures IndexOf(w, s, 0) == i
  {
    assert OccursAt(w, s, i);
  }

  lemma FoundAppend<T>(w: seq<T>, s: seq<T>, y: seq<T>)
    requires IndexOf(w, s, 0) >= 0
    ensures IndexOf(w, s + y, 0) == IndexOf(w, s, 0)
  {
    var i := IndexOf(w, s, 0);
    forall j: nat | j < i ensures !OccursAt(w, s + y, j) { OccursInPrefix(w, s, y, j); }
    OccursInPrefix(w, s, y, i);
    IndexOfUnique(w, s + y, i);
  }

  /** Elements at which no occurrence begins can be dropped from the front. */
  lemma IndexOfSuffix<T>(w: seq<T>, s: seq<T>, d: nat)
    requires d <= |s| && forall j: nat :: j < d ==> !OccursAt(w, s, j)
    ensures IndexOf(w, s, 0) == if IndexOf(w, s[d..], 0) == -1 then -1 else d + IndexOf(w, s[d..], 0)
  {
    var k := IndexOf(w, s[d..], 0);
    forall j: nat | d <= j && (k == -1 || j < d + k) ensures !OccursAt(w, s, j) {
      OccursInSuffix(w, s, d, j - d);
    }
    if k != -1 {
      OccursInSuffix(w, s, d, k);
      IndexOfUnique(w, s, d + k);
    }
  }

  /** How much of a sequence without an occurrence can be dropped whatever follows it
      (one element less than is possible). */
  function Droppable<T>(w: seq<T>, s: seq<T>): nat {
    if |s| <= |w| then 0 else |s| - |w|
  }

  lemma NotFoundAppend<T>(w: seq<T>, s: seq<T>, y: seq<T>)
    requires w != [] && IndexOf(w, s, 0) == -1
    ensures
      var d := Droppable(w, s);
      var k := IndexOf(w, s[d..] + y, 0);
      IndexOf(w, s + y, 0) == if k == -1 then -1 else d + k
  {
    var d := Droppable(w, s);
    forall j: nat | j < d ensures !OccursAt(w, s + y, j) { OccursInPrefix(w, s, y, j); }
    assert s[d..] + y == (s + y)[d..];
    IndexOfSuffix(w, s + y, d);
  }

  /** Whether the pattern occurs, and what is left: what follows its first occurrence, or
      else all in which one could still begin. */
  function Skip<T(==)>(w: seq<T>, s: seq<T>): (bool, seq<T>) {
    SkipTo(w, s, IndexOf(w, s, 0))
  }

  function SkipTo<T>(w: seq<T>, s: seq<T>, i: int): (bool, seq<T>)
    requires i < 0 || i + |w| <= |s|
  {
    if i >= 0 then (true, s[i + |w|..]) else (false, s[Droppable(w, s)..])
  }

  lemma DropDrop<T>(s: seq<T>, a: nat, b: nat)
    requires a + b <= |s|
    ensures s[a..][b..] == s[a + b..]
  {
  }

  lemma DropAppend<T>(s: seq<T>, y: seq<T>, a: nat)
    requires a <= |s|
    ensures (s + y)[a..] == s[a..] + y
  {
  }

  lemma IndexAhead<T>(w: seq<T>, all: seq<T>, d: nat, front: seq<T>, back: seq<T>)
    requires d <= |all| && all[d..] == front + back && forall j: nat :: j < d ==> !OccursAt(w, all, j)
    requires IndexOf(w, front, 0) >= 0
    ensures IndexOf(w, all, 0) == d + IndexOf(w, front, 0) && IndexOf(w, front, 0) + |w| <= |front|
  {
    FoundAppend(w, front, back);
    IndexOfSuffix(w, all, d);
  }

  lemma SkipToFound<T>(w: seq<T>, all: seq<T>, d: nat, k: nat)
    requires d + k + |w| <= |all|
    ensures SkipTo(w, all, d + k) == (true, all[d..][k + |w|..])
  {
    DropDrop(all, d, k + |w|);
  }

  lemma IndexIsFirst<T>(w: seq<T>, s: seq<T>)
    requires IndexOf(w, s, 0) >= 0
    ensures IsFirst(w, s, IndexOf(w, s, 0))
  {
  }

  /** Searching on after more elements have come is searching the whole. */
  lemma SkipAppend<T>(w: seq<T>, s: seq<T>, y: seq<T>)
    requires w != []
    ensures Skip(w, s).0 ==> Skip(w, s + y) == (true, Skip(w, s).1 + y)
    ensures !Skip(w, s).0 ==> Skip(w, s + y) == Skip(w, Skip(w, s).1 + y)
  {
    if Skip(w, s).0 {
      FoundAppend(w, s, y);
      DropAppend(s, y, IndexOf(w, s, 0) + |w|);
    } else {
      SkipNotFound(w, s, y);
    }
  }

  lemma SkipNotFound<T>(w: seq<T>, s: seq<T>, y: seq<T>)
    requires w != [] && IndexOf(w, s, 0) == -1
    ensures Skip(w, s + y) == Skip(w, Skip(w, s).1 + y)
  {
    var d := Droppable(w, s);
    NotFoundAppend(w, s, y);
    DropAppend(s, y, d);
    SkipShift(w, s + y, d);
  }

  lemma SkipShift<T>(w: seq<T>, s: seq<T>, d: nat)
    requires d <= |s| && (d == 0 || |w| <= |s| - d)
    requires IndexOf(w, s, 0) == if IndexOf(w, s[d..], 0) == -1 then -1 else d + IndexOf(w, s[d..], 0)
    ensures Skip(w, s) == Skip(w, s[d..])
  {
    SkipToShift(w, s, d, IndexOf(w, s[d..], 0));
  }

  lemma SkipToShift<T>(w: seq<T>, s: seq<T>, d: nat, k: int)
    requires d <= |s| && (d == 0 || |w| <= |s| - d) && -1 <= k && (k == -1 || k + |w| <= |s| - d)
    ensures SkipTo(w, s, if k == -1 then -1 else d + k) == SkipTo(w, s[d..], k)
  {
    DropDrop(s, d, if k == -1 then Droppable(w, s[d..]) else k + |w|);
  }
}
