/**
 * Blockers (cars, pedestrians, bad-road patches) and the list pass that
 * AppCtrl.moveBlockers makes over them on every movement tick.
 *
 * The pass is a JavaScript `forEach` that calls `splice(index, 1)` on the very
 * array it walks. `forEach` fixes its index range when it starts and looks up
 * the element at each index as it reaches it, so after a removal at index i the
 * element that slides into i is never visited on that tick: it is neither
 * moved nor removed. `Moved` reproduces that exactly.
 */
module Blockers {

  datatype BlockerKind = Car | Pedestrian | Badroad

  /** `bottom` is the vertical offset (0..90), `left` the horizontal position. */
  datatype Blocker = Blocker(kind: BlockerKind, bottom: int, left: int)

  /** Position a new blocker is spawned at. */
  const SpawnLeft: int := 100
  /** A blocker visited at exactly this position is removed. */
  const RemoveAt: int := -10
  const MaxBottom: int := 90

  predicate InBounds(b: Blocker)
  {
    RemoveAt <= b.left <= SpawnLeft && 0 <= b.bottom <= MaxBottom
  }

  predicate AllInBounds(s: seq<Blocker>)
  {
    forall i :: 0 <= i < |s| ==> InBounds(s[i])
  }

  /** The controller's `blockerTypes` table. */
  const BlockerTypes: seq<BlockerKind> := [Car, Pedestrian, Badroad]

  /**
   * `blockerTypes[Math.floor(roll * 3)]`: each kind takes one third of the
   * range of the roll, so a uniform roll picks the kinds uniformly.
   */
  function SpawnKind(roll: real): (kind: BlockerKind)
    requires 0.0 <= roll < 1.0
    ensures kind == Car <==> roll < 1.0 / 3.0
    ensures kind == Badroad <==> roll >= 2.0 / 3.0
  {
    BlockerTypes[(roll * 3.0).Floor]
  }

  /** Every entry of the type table is spawned by some roll. */
  lemma EveryKindSpawns(k: BlockerKind)
    ensures exists roll: real :: 0.0 <= roll < 1.0 && SpawnKind(roll) == k
  {
    var roll := match k case Car => 0.0 case Pedestrian => 0.5 case Badroad => 0.9;
    assert SpawnKind(roll) == k;
  }

  /** Math.round(roll * 90): a vertical offset, always inside 0..90. */
  function SpawnBottom(roll: real): (bottom: int)
    requires 0.0 <= roll < 1.0
    ensures 0 <= bottom <= MaxBottom
    ensures (bottom as real) - 0.5 <= roll * 90.0 < (bottom as real) + 0.5
  {
    (roll * 90.0 + 0.5).Floor
  }

  /** The blocker that addBlocker pushes for the two random rolls. */
  function Spawned(kindRoll: real, bottomRoll: real): (b: Blocker)
    requires 0.0 <= kindRoll < 1.0 && 0.0 <= bottomRoll < 1.0
    ensures InBounds(b) && b.left == SpawnLeft
  {
    Blocker(SpawnKind(kindRoll), SpawnBottom(bottomRoll), SpawnLeft)
  }

  /**
   * The list after one `forEach` pass of moveBlockers: a visited blocker at
   * RemoveAt is spliced out (and its successor is then skipped), any other
   * visited blocker moves one unit to the left.
   */
  function Moved(s: seq<Blocker>): (r: seq<Blocker>)
    ensures |r| <= |s|
    ensures AllInBounds(s) ==> AllInBounds(r)
    decreases |s|
  {
    if s == [] then []
    else if s[0].left == RemoveAt then
      (if |s| == 1 then [] else [s[1]] + Moved(s[2..]))
    else
      [s[0].(left := s[0].left - 1)] + Moved(s[1..])
  }

  /** Unfolding Moved at a suffix whose first blocker is spliced out. */
  lemma MovedRemoving(s: seq<Blocker>, j: nat)
    requires j < |s| && s[j].left == RemoveAt
    ensures j + 1 == |s| ==> Moved(s[j..]) == []
    ensures j + 1 < |s| ==> Moved(s[j..]) == [s[j + 1]] + Moved(s[j + 2..])
  {
    assert s[j..][0] == s[j];
    if j + 1 < |s| {
      assert s[j..][1] == s[j + 1];
      assert s[j..][2..] == s[j + 2..];
    }
  }

  /** Unfolding Moved at a suffix whose first blocker moves left. */
  lemma MovedMoving(s: seq<Blocker>, j: nat)
    requires j < |s| && s[j].left != RemoveAt
    ensures Moved(s[j..]) == [s[j].(left := s[j].left - 1)] + Moved(s[j + 1..])
  {
    assert s[j..][0] == s[j];
    assert s[j..][1..] == s[j + 1..];
  }

  /**
   * Loop invariant of the in-place pass: `current` is the array part-way
   * through the `forEach`, `index` the next index it will look at and `j` the
   * position in `original` of the blocker now at `index`.
   */
  ghost predicate PassAt(current: seq<Blocker>, index: nat, original: seq<Blocker>, j: nat)
  {
    (index <= |current| ==>
      index <= j <= |original| &&
      current[index..] == original[j..] &&
      current[..index] + Moved(original[j..]) == Moved(original)) &&
    (index > |current| ==> current == Moved(original))
  }

  /** One visit of the pass keeps the invariant: a splice skips one original blocker. */
  lemma PassStep(current: seq<Blocker>, index: nat, original: seq<Blocker>, j: nat)
    requires PassAt(current, index, original, j) && index < |current|
    ensures current[index].left == RemoveAt ==>
              PassAt(current[..index] + current[index + 1..], index + 1, original, j + 2)
    ensures current[index].left != RemoveAt ==>
              PassAt(current[index := current[index].(left := current[index].left - 1)],
                     index + 1, original, j + 1)
  {
    assert current[index] == current[index..][0] == original[j];
    var done := current[..index];
    if current[index].left == RemoveAt {
      MovedRemoving(original, j);
      var next := current[..index] + current[index + 1..];
      if j + 1 < |original| {
        assert next[..index + 1] == done + [original[j + 1]];
        assert next[index + 1..] == current[index + 2..] == original[j + 2..];
      } else {
        assert next == done;
      }
    } else {
      MovedMoving(original, j);
      var next := current[index := current[index].(left := current[index].left - 1)];
      assert next[..index + 1] == done + [original[j].(left := original[j].left - 1)];
      assert next[index + 1..] == current[index + 1..] == original[j + 1..];
    }
  }

  /** An index past the end of the shrunken array visits nothing. */
  lemma PassPastEnd(current: seq<Blocker>, index: nat, original: seq<Blocker>, j: nat)
    requires PassAt(current, index, original, j) && index >= |current|
    ensures PassAt(current, index + 1, original, j)
  {
    if index == |current| {
      assert original[j..] == current[index..] == [];
      assert current[..index] == current;
    }
  }

  /** Once the index range of the pass is exhausted the array is `Moved(original)`. */
  lemma PassDone(current: seq<Blocker>, original: seq<Blocker>, j: nat)
    requires PassAt(current, |original|, original, j)
    ensures current == Moved(original)
  {
    if |original| <= |current| {
      assert current[|original|..] == original[j..];
      assert current[..|original|] == current;
    }
  }

  // An index-by-index reading of the same pass, independent of `Moved`.

  /** Whether the pass skips index i: it visited index i - 1 and spliced it out. */
  predicate Skipped(s: seq<Blocker>, i: nat)
    requires i < |s|
  {
    i > 0 && !Skipped(s, i - 1) && s[i - 1].left == RemoveAt
  }

  /** What the pass leaves of the blocker at index i: itself, moved, or nothing. */
  function Outcome(s: seq<Blocker>, i: nat): (r: seq<Blocker>)
    requires i < |s|
    ensures |r| <= 1
  {
    if Skipped(s, i) then [s[i]]
    else if s[i].left == RemoveAt then []
    else [s[i].(left := s[i].left - 1)]
  }

  /** The outcomes of indices i.. concatenated in list order. */
  function Reference(s: seq<Blocker>, i: nat): seq<Blocker>
    requires i <= |s|
    decreases |s| - i
  {
    if i == |s| then [] else Outcome(s, i) + Reference(s, i + 1)
  }

  lemma {:induction false} MovedFrom(s: seq<Blocker>, i: nat)
    requires i <= |s|
    requires i < |s| ==> !Skipped(s, i)
    ensures Moved(s[i..]) == Reference(s, i)
    decreases |s| - i
  {
    if i < |s| {
      assert s[i..][0] == s[i];
      if s[i].left == RemoveAt {
        if i + 1 < |s| {
          assert Skipped(s, i + 1);
          assert s[i..][1] == s[i + 1];
          assert s[i..][2..] == s[i + 2..];
          if i + 2 < |s| {
            assert !Skipped(s, i + 2);
          }
          MovedFrom(s, i + 2);
        }
      } else {
        assert s[i..][1..] == s[i + 1..];
        if i + 1 < |s| {
          assert !Skipped(s, i + 1);
        }
        MovedFrom(s, i + 1);
      }
    }
  }

  /**
   * `Moved` is exactly the index-by-index outcome: every blocker keeps its
   * place in the list order and is removed, moved one unit left, or (right
   * after a removed one) left untouched.
   */
  lemma MovedFollowsForEach(s: seq<Blocker>)
    ensures Moved(s) == Reference(s, 0)
  {
    assert s[0..] == s;
    MovedFrom(s, 0);
  }

  /** Only a blocker at RemoveAt can disappear, and the pass never changes kind or bottom. */
  lemma {:induction false} ReferenceOutcome(s: seq<Blocker>, i: nat)
    requires i < |s|
    ensures Outcome(s, i) == [] <==> (!Skipped(s, i) && s[i].left == RemoveAt)
    ensures Outcome(s, i) != [] ==>
              Outcome(s, i)[0].kind == s[i].kind &&
              Outcome(s, i)[0].bottom == s[i].bottom &&
              Outcome(s, i)[0].left == (if Skipped(s, i) then s[i].left else s[i].left - 1)
  {
  }

  /**
   * The skip: a blocker that follows one visited at RemoveAt comes through
   * the pass untouched, even if it is itself at RemoveAt.
   */
  lemma SkipExample(k: BlockerKind)
    ensures Moved([Blocker(k, 0, RemoveAt), Blocker(k, 5, 40)]) == [Blocker(k, 5, 40)]
    ensures Moved([Blocker(k, 0, RemoveAt), Blocker(k, 5, RemoveAt), Blocker(k, 9, 7)])
              == [Blocker(k, 5, RemoveAt), Blocker(k, 9, 6)]
  {
  }
}
