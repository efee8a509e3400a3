/**
 * Axis-aligned rectangles and the strict overlap test that AppCtrl.collideCheck
 * applies between a blocker and the bike. Coordinates are in percent of the
 * screen: x grows to the right, y grows downwards (y = 90 - bottom).
 */
module Geometry {

  datatype Rect = Rect(x: real, y: real, width: real, height: real)

  /** The four strict inequalities of collideCheck, rect1 being the blocker and rect2 the bike. */
  predicate Overlaps(rect1: Rect, rect2: Rect)
  {
    rect1.x < rect2.x + rect2.width &&
    rect1.x + rect1.width > rect2.x &&
    rect1.y < rect2.y + rect2.height &&
    rect1.height + rect1.y > rect2.y
  }

  /** Point p lies strictly inside the open interval (lo, lo + len). */
  predicate Inside(p: real, lo: real, len: real)
  {
    lo < p < lo + len
  }

  /** Open-interval intersection on one axis, an independent reading of the overlap test. */
  ghost predicate IntervalsMeet(lo1: real, len1: real, lo2: real, len2: real)
  {
    exists p: real :: Inside(p, lo1, len1) && Inside(p, lo2, len2)
  }

  /**
   * For rectangles of positive size the overlap test holds exactly when the
   * two open rectangles share a point, that is when both axes intersect.
   */
  lemma OverlapsMeansSharedPoint(rect1: Rect, rect2: Rect)
    requires rect1.width > 0.0 && rect1.height > 0.0
    requires rect2.width > 0.0 && rect2.height > 0.0
    ensures Overlaps(rect1, rect2) <==>
              IntervalsMeet(rect1.x, rect1.width, rect2.x, rect2.width) &&
              IntervalsMeet(rect1.y, rect1.height, rect2.y, rect2.height)
  {
    if Overlaps(rect1, rect2) {
      MeetWhenOverlapping(rect1.x, rect1.width, rect2.x, rect2.width);
      MeetWhenOverlapping(rect1.y, rect1.height, rect2.y, rect2.height);
    }
  }

  lemma MeetWhenOverlapping(lo1: real, len1: real, lo2: real, len2: real)
    requires len1 > 0.0 && len2 > 0.0
    requires lo1 < lo2 + len2 && lo1 + len1 > lo2
    ensures IntervalsMeet(lo1, len1, lo2, len2)
  {
    var lo := if lo1 < lo2 then lo2 else lo1;
    var hi := if lo1 + len1 < lo2 + len2 then lo1 + len1 else lo2 + len2;
    var p := (lo + hi) / 2.0;
    assert Inside(p, lo1, len1) && Inside(p, lo2, len2);
  }

  /** Bike at (10, 80, 5, 10): a blocker at (12, 82, 3, 10) hits it, one at x = 30 does not. */
  lemma OverlapExamples()
    ensures Overlaps(Rect(12.0, 82.0, 3.0, 10.0), Rect(10.0, 80.0, 5.0, 10.0))
    ensures !Overlaps(Rect(30.0, 82.0, 3.0, 10.0), Rect(10.0, 80.0, 5.0, 10.0))
  {
  }
}
