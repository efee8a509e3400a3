/**
 * AppCtrl: the game controller. Every interval callback and event handler of
 * the controller is a method of the class; each interval handle is a `Timer`
 * field that is either idle (never started or cancelled) or running a task at
 * a period. Cancelling is assigning `Idle`, so cancelling twice is the same as
 * cancelling once. When the controller overwrites a handle whose interval is
 * still running, nothing can cancel that interval any more: `orphans` counts
 * such intervals.
 */
module Game {
  import opened Geometry
  import opened Blockers
  import opened Difficulty
  import opened BikeMotion

  /** The callbacks an interval can run. */
  datatype Task = Spawning | BlockerMovement | CollisionCheck
                | BikeUp | BikeDown | BikeLeft | BikeRight

  datatype Timer = Idle | Every(task: Task, period: int)

  /** `$rootScope.collision`: the flag and the collision-check interval handle. */
  datatype Collision = Collision(happened: bool, check: Timer)

  /** The key of a keyboard event; every key that is not an arrow key is `OtherKey`. */
  datatype Key = ArrowUp | ArrowDown | ArrowLeft | ArrowRight | OtherKey

  /** Period, in milliseconds, of the movement, collision and bike intervals. */
  const TickPeriod: int := 50
  const RectHeight: real := 10.0

  /** 1 for an interval that is still running, 0 otherwise. */
  function Live(t: Timer): nat
  {
    if t.Every? then 1 else 0
  }

  /** Screen-derived widths of the three blocker kinds and of the bike. */
  datatype Widths = Widths(car: real, pedestrian: real, badroad: real, bike: real)
  {
    function Of(kind: BlockerKind): real
    {
      match kind
      case Car => car
      case Pedestrian => pedestrian
      case Badroad => badroad
    }
  }

  const CarRatio: real := 2.962962963
  const PedestrianRatio: real := 0.582781457
  const BadroadRatio: real := 0.896666667
  const BikeRatio: real := 1.62005277

  /** The widths init derives from the window size (innerWidth, innerHeight). */
  function WidthsFor(screenWidth: nat, screenHeight: nat): (w: Widths)
    requires screenWidth > 0
    ensures w.pedestrian >= 0.0 && w.bike >= 0.0
    ensures screenHeight > 0 ==> 0.0 < w.pedestrian < w.badroad < w.car && w.bike > 0.0
    ensures screenHeight == 0 ==> w == Widths(0.0, 0.0, 0.0, 0.0)
  {
    var h, sw := screenHeight as real, screenWidth as real;
    Widths(
      (h * 0.1 * CarRatio * 100.0) / sw,
      (h * 0.1 * PedestrianRatio * 100.0) / sw,
      (h * 0.1 * BadroadRatio * 100.0) / sw,
      (h * 10.0 * BikeRatio) / sw)
  }

  /** rect1 of collideCheck: the blocker's box. */
  function BlockerRect(b: Blocker, w: Widths): (r: Rect)
    ensures InBounds(b) ==> -10.0 <= r.x <= 100.0 && 0.0 <= r.y <= 90.0
  {
    Rect(b.left as real, (90 - b.bottom) as real, w.Of(b.kind), RectHeight)
  }

  /** rect2 of collideCheck: the bike's box. */
  function BikeRect(bike: Bike, w: Widths): (r: Rect)
    ensures 0 <= bike.altitude <= MaxAltitude && 0 <= bike.leftHalves <= MaxLeftHalves ==>
              0.0 <= r.x <= 90.0 && 0.0 <= r.y <= 90.0
  {
    Rect(LeftPosition(bike), (90 - bike.altitude) as real, w.bike, RectHeight)
  }

  /** The overlap test of collideCheck for one blocker. */
  predicate Hits(b: Blocker, bike: Bike, w: Widths)
  {
    Overlaps(BlockerRect(b, w), BikeRect(bike, w))
  }

  /**
   * A blocker can hit the bike only when their vertical offsets differ by
   * less than the common box height of 10.
   */
  lemma HitsOnlyNearby(b: Blocker, bike: Bike, w: Widths)
    requires Hits(b, bike, w)
    ensures -10 < b.bottom - bike.altitude < 10
  {
  }

  /** Some blocker of the list hits the bike. */
  predicate AnyHit(blockers: seq<Blocker>, bike: Bike, w: Widths)
  {
    exists i :: 0 <= i < |blockers| && Hits(blockers[i], bike, w)
  }

  /** The controller's whole state as one value, for stating what a method changes. */
  datatype Snapshot = Snapshot(
    bike: Bike, collision: Collision, score: nat, level: nat,
    blockers: seq<Blocker>, widths: Widths,
    spawn: Timer, movement: Timer, vertical: Timer, horizontal: Timer,
    orphans: nat)

  class AppCtrl {
    var bike: Bike
    var collision: Collision
    var score: nat
    var level: nat
    var blockers: seq<Blocker>
    /** blockerProperties and bike.width */
    var widths: Widths
    /** addBlockerPromise */
    var spawn: Timer
    /** blockersMovementPromise */
    var movement: Timer
    /** bikeVerticalMovementPromise */
    var vertical: Timer
    /** bikeHorizontalMovementPromise */
    var horizontal: Timer
    /** running intervals whose handle has been overwritten */
    var orphans: nat

    ghost function View(): Snapshot
      reads this
    {
      Snapshot(bike, collision, score, level, blockers, widths,
               spawn, movement, vertical, horizontal, orphans)
    }

    /** Each handle only ever runs the callback its field is for. */
    ghost predicate TimersTyped()
      reads this`spawn, this`level, this`movement, this`collision, this`vertical, this`horizontal
    {
      (spawn.Every? ==> spawn == Every(Spawning, SpawnPeriod(level))) &&
      (movement.Every? ==> movement == Every(BlockerMovement, TickPeriod)) &&
      (collision.check.Every? ==> collision.check == Every(CollisionCheck, TickPeriod)) &&
      (vertical.Every? ==> vertical in {Every(BikeUp, TickPeriod), Every(BikeDown, TickPeriod)}) &&
      (horizontal.Every? ==> horizontal in {Every(BikeLeft, TickPeriod), Every(BikeRight, TickPeriod)})
    }

    ghost predicate Valid()
      reads this
    {
      Steady() && AllInBounds(blockers)
    }

    /** The part of Valid() about the bike, the collision and the intervals. */
    ghost predicate Steady()
      reads this`spawn, this`level, this`movement, this`collision, this`vertical, this`horizontal, this`bike
    {
      TimersTyped() &&
      0 <= bike.altitude <= MaxAltitude &&
      0 <= bike.leftHalves <= MaxLeftHalves &&
      !(bike.movingUp && bike.movingDown) &&
      !(bike.movingLeft && bike.movingRight) &&
      // the collision check runs exactly while no collision has happened
      (collision.check.Every? <==> !collision.happened) &&
      // a collision has stopped both bike intervals
      (collision.happened ==> vertical == Idle && horizontal == Idle) &&
      // while playing, a direction flag means its interval is running
      (!collision.happened ==>
        (bike.movingUp ==> vertical == Every(BikeUp, TickPeriod)) &&
        (bike.movingDown ==> vertical == Every(BikeDown, TickPeriod)) &&
        (bike.movingLeft ==> horizontal == Every(BikeLeft, TickPeriod)) &&
        (bike.movingRight ==> horizontal == Every(BikeRight, TickPeriod)))
    }

    /** No handle of the controller runs anything. */
    ghost predicate Halted()
      reads this
    {
      spawn == Idle && movement == Idle && collision.check == Idle &&
      vertical == Idle && horizontal == Idle
    }

    /** Every interval still running, handled or orphaned. */
    function RunningTimers(): nat
      reads this
    {
      Live(spawn) + Live(movement) + Live(collision.check) +
      Live(vertical) + Live(horizontal) + orphans
    }

    /** Whether a keydown of `key` starts a bike movement. */
    ghost predicate Starts(key: Key)
      reads this
    {
      !collision.happened &&
      match key
      case ArrowUp | ArrowDown => !bike.movingUp && !bike.movingDown
      case ArrowLeft | ArrowRight => !bike.movingLeft && !bike.movingRight
      case OtherKey => false
    }

    /** Controller construction: default bike and collision, then init. */
    constructor (screenWidth: nat, screenHeight: nat)
      requires screenWidth > 0
      ensures Valid()
      ensures View() == Snapshot(
        DefaultBike, Collision(false, Every(CollisionCheck, TickPeriod)), 0, 0, [],
        WidthsFor(screenWidth, screenHeight),
        Every(Spawning, SpawnPeriod(0)), Every(BlockerMovement, TickPeriod), Idle, Idle, 0)
      ensures RunningTimers() == 3
    {
      bike := DefaultBike;
      collision := Collision(false, Idle);
      score, level := 0, 0;
      blockers := [];
      widths := Widths(0.0, 0.0, 0.0, 0.0);
      spawn, movement, vertical, horizontal := Idle, Idle, Idle, Idle;
      orphans := 0;
      new;
      Init(screenWidth, screenHeight);
    }

    /** init: score and level to 0, widths from the screen, start the three game intervals. */
    method Init(screenWidth: nat, screenHeight: nat)
      requires screenWidth > 0
      requires TimersTyped()
      requires bike == DefaultBike && collision == Collision(false, Idle) && blockers == []
      modifies this
      ensures Valid()
      ensures View() == old(View()).(
        score := 0, level := 0, widths := WidthsFor(screenWidth, screenHeight),
        spawn := Every(Spawning, SpawnPeriod(0)),
        movement := Every(BlockerMovement, TickPeriod),
        collision := Collision(false, Every(CollisionCheck, TickPeriod)),
        orphans := old(orphans) + Live(old(movement)))
    {
      score := 0;
      level := 0;
      widths := WidthsFor(screenWidth, screenHeight);
      SetBlockers();
      SetBlockersMovement();
      InitCollideCheck();
    }

    /**
     * restart: a fresh collision record and bike, no blockers, then init.
     * The old collision-check handle is dropped with the old record and the
     * movement handle is overwritten by init, so if either was still running
     * it becomes an orphan; the bike interval handles are left as they are.
     */
    method Restart(screenWidth: nat, screenHeight: nat)
      requires Valid()
      requires screenWidth > 0
      modifies this
      ensures Valid()
      ensures View() == old(View()).(
        bike := DefaultBike,
        collision := Collision(false, Every(CollisionCheck, TickPeriod)),
        score := 0, level := 0, blockers := [],
        widths := WidthsFor(screenWidth, screenHeight),
        spawn := Every(Spawning, SpawnPeriod(0)),
        movement := Every(BlockerMovement, TickPeriod),
        orphans := old(orphans) + Live(old(collision.check)) + Live(old(movement)))
      ensures old(Halted()) ==> RunningTimers() == old(RunningTimers()) + 3
      ensures old(collision.happened) && old(movement) == Idle ==> orphans == old(orphans)
      // a bike still climbing keeps its interval while its flag is cleared
      ensures old(!collision.happened && bike.movingUp) ==>
                vertical == Every(BikeUp, TickPeriod) && !bike.movingUp
    {
      orphans := orphans + Live(collision.check);
      collision := Collision(false, Idle);
      bike := DefaultBike;
      blockers := [];
      Init(screenWidth, screenHeight);
    }

    /** setBlockers: cancel the spawn interval and start it at the current level's period. */
    method SetBlockers()
      modifies this
      ensures View() == old(View()).(spawn := Every(Spawning, SpawnPeriod(level)))
    {
      spawn := Idle;
      spawn := Every(Spawning, SpawnPeriod(level));
    }

    /** setBlockersMovement: start the movement interval without cancelling the old one. */
    method SetBlockersMovement()
      modifies this
      ensures View() == old(View()).(
        movement := Every(BlockerMovement, TickPeriod),
        orphans := old(orphans) + Live(old(movement)))
    {
      orphans := orphans + Live(movement);
      movement := Every(BlockerMovement, TickPeriod);
    }

    /** initCollideCheck: start the collision-check interval. */
    method InitCollideCheck()
      modifies this
      ensures View() == old(View()).(
        collision := old(collision).(check := Every(CollisionCheck, TickPeriod)),
        orphans := old(orphans) + Live(old(collision.check)))
    {
      orphans := orphans + Live(collision.check);
      collision := collision.(check := Every(CollisionCheck, TickPeriod));
    }

    /**
     * scoreChanged: when the new score is a multiple of 100, go up one level
     * and restart the spawn interval at the faster period.
     */
    method ScoreChanged(newScore: int)
      requires Valid()
      modifies this
      ensures Valid()
      ensures RaisesLevel(newScore) ==>
        level == old(level) + 1 &&
        View() == old(View()).(level := level, spawn := Every(Spawning, SpawnPeriod(level)))
      ensures !RaisesLevel(newScore) ==> View() == old(View())
    {
      if RaisesLevel(newScore) {
        level := level + 1;
        SetBlockers();
      }
    }

    /**
     * addBlocker: push one blocker at the right edge, its kind and offset
     * drawn from the two random rolls.
     */
    method AddBlocker(kindRoll: real, bottomRoll: real)
      requires Valid()
      requires 0.0 <= kindRoll < 1.0 && 0.0 <= bottomRoll < 1.0
      modifies this
      ensures Valid()
      ensures |blockers| == |old(blockers)| + 1
      ensures blockers[..|old(blockers)|] == old(blockers)
      ensures blockers[|old(blockers)|] == Blocker(SpawnKind(kindRoll), SpawnBottom(bottomRoll), SpawnLeft)
      ensures View() == old(View()).(blockers := blockers)
    {
      blockers := blockers + [Spawned(kindRoll, bottomRoll)];
    }

    /**
     * moveBlockers: one `forEach` pass over the list, splicing out each
     * visited blocker at RemoveAt and moving every other visited one left,
     * then one point of score.
     */
    method MoveBlockers()
      requires Valid()
      modifies this
      ensures Valid()
      ensures blockers == Moved(old(blockers))
      ensures score == old(score) + 1
      ensures View() == old(View()).(blockers := blockers, score := score)
    {
      ghost var original := blockers;
      // forEach fixes the index range before the first callback
      var n := |blockers|;
      var index := 0;
      // position in `original` of the blocker now at `index`
      ghost var j := 0;
      while index < n
        invariant index <= n == |original|
        invariant PassAt(blockers, index, original, j)
        modifies this`blockers
      {
        var current := blockers;
        if index < |current| {
          PassStep(current, index, original, j);
          if current[index].left == RemoveAt {
            blockers := current[..index] + current[index + 1..];
            j := j + 2;
          } else {
            blockers := current[index := current[index].(left := current[index].left - 1)];
            j := j + 1;
          }
        } else {
          PassPastEnd(current, index, original, j);
        }
        index := index + 1;
      }
      PassDone(blockers, original, j);
      score := score + 1;
    }

    /**
     * One tick of the movement interval as the page runs it: moveBlockers,
     * then the score watcher calls scoreChanged with the new score.
     */
    method MovementTick()
      requires Valid()
      modifies this
      ensures Valid()
      ensures blockers == Moved(old(blockers))
      ensures score == old(score) + 1
      ensures level == old(level) + Boundaries(old(score), score)
      ensures spawn == if RaisesLevel(score) then Every(Spawning, SpawnPeriod(level)) else old(spawn)
      ensures View() == old(View()).(blockers := blockers, score := score, level := level, spawn := spawn)
    {
      MoveBlockers();
      ScoreChanged(score);
    }

    /** stopBlockers: cancel the movement and spawn intervals. */
    method StopBlockers()
      modifies this
      ensures View() == old(View()).(movement := Idle, spawn := Idle)
    {
      movement := Idle;
      spawn := Idle;
    }

    /** initCollide: cancel the collision check, mark the collision, cancel both bike intervals. */
    method InitCollide()
      modifies this
      ensures View() == old(View()).(
        collision := Collision(true, Idle), vertical := Idle, horizontal := Idle)
    {
      collision := collision.(check := Idle);
      collision := collision.(happened := true);
      vertical := Idle;
      horizontal := Idle;
    }

    /**
     * collideCheck: test every blocker against the bike; each hit stops the
     * blockers and marks the collision. Further hits in the same pass change
     * nothing more.
     */
    method CollideCheck()
      requires Valid()
      modifies this
      ensures Valid()
      ensures collision.happened <==> old(collision.happened) || AnyHit(blockers, bike, widths)
      ensures AnyHit(old(blockers), old(bike), old(widths)) ==>
        Halted() && collision.happened &&
        View() == old(View()).(
          collision := Collision(true, Idle), spawn := Idle, movement := Idle,
          vertical := Idle, horizontal := Idle)
      ensures !AnyHit(old(blockers), old(bike), old(widths)) ==> View() == old(View())
    {
      var i := 0;
      while i < |blockers|
        invariant 0 <= i <= |blockers|
        invariant blockers == old(blockers) && bike == old(bike) && widths == old(widths)
        invariant orphans == old(orphans) && score == old(score) && level == old(level)
        invariant (exists k :: 0 <= k < i && Hits(blockers[k], bike, widths)) ==>
          View() == old(View()).(
            collision := Collision(true, Idle), spawn := Idle, movement := Idle,
            vertical := Idle, horizontal := Idle)
        invariant !(exists k :: 0 <= k < i && Hits(blockers[k], bike, widths)) ==>
          View() == old(View())
      {
        if Overlaps(BlockerRect(blockers[i], widths), BikeRect(bike, widths)) {
          StopBlockers();
          InitCollide();
        }
        i := i + 1;
      }
    }

    /** moveBikeUp */
    method MoveBikeUp()
      requires Valid()
      modifies this
      ensures Valid()
      ensures View() == old(View()).(bike := old(bike).(altitude := StepUp(old(bike.altitude))))
    {
      if bike.altitude != MaxAltitude {
        bike := bike.(altitude := bike.altitude + 1);
      }
    }

    /** moveBikeDown */
    method MoveBikeDown()
      requires Valid()
      modifies this
      ensures Valid()
      ensures View() == old(View()).(bike := old(bike).(altitude := StepDown(old(bike.altitude))))
    {
      if bike.altitude != 0 {
        bike := bike.(altitude := bike.altitude - 1);
      }
    }

    /** moveBikeLeft */
    method MoveBikeLeft()
      requires Valid()
      modifies this
      ensures Valid()
      ensures View() == old(View()).(bike := old(bike).(leftHalves := StepLeft(old(bike.leftHalves))))
    {
      if bike.leftHalves != 0 {
        bike := bike.(leftHalves := bike.leftHalves - 1);
      }
    }

    /** moveBikeRight */
    method MoveBikeRight()
      requires Valid()
      modifies this
      ensures Valid()
      ensures View() == old(View()).(bike := old(bike).(leftHalves := StepRight(old(bike.leftHalves))))
    {
      if bike.leftHalves != MaxLeftHalves {
        bike := bike.(leftHalves := bike.leftHalves + 1);
      }
    }

    /**
     * handleKeydown: for an arrow key, suppress the default action; unless a
     * collision has happened, start the key's movement interval when neither
     * direction of its axis is moving. `prevented` tells whether the default
     * action was suppressed.
     */
    method HandleKeydown(key: Key) returns (prevented: bool)
      requires Valid()
      modifies this
      ensures Valid()
      ensures prevented <==> key != OtherKey
      ensures !old(Starts(key)) ==> View() == old(View())
      ensures old(Starts(key)) && key == ArrowUp ==>
        View() == old(View()).(
          bike := old(bike).(movingUp := true, movingDown := false),
          vertical := Every(BikeUp, TickPeriod),
          orphans := old(orphans) + Live(old(vertical)))
      ensures old(Starts(key)) && key == ArrowDown ==>
        View() == old(View()).(
          bike := old(bike).(movingUp := false, movingDown := true),
          vertical := Every(BikeDown, TickPeriod),
          orphans := old(orphans) + Live(old(vertical)))
      ensures old(Starts(key)) && key == ArrowRight ==>
        View() == old(View()).(
          bike := old(bike).(movingLeft := false, movingRight := true),
          horizontal := Every(BikeRight, TickPeriod),
          orphans := old(orphans) + Live(old(horizontal)))
      ensures old(Starts(key)) && key == ArrowLeft ==>
        View() == old(View()).(
          bike := old(bike).(movingLeft := true, movingRight := false),
          horizontal := Every(BikeLeft, TickPeriod),
          orphans := old(orphans) + Live(old(horizontal)))
    {
      prevented := false;
      if key != OtherKey {
        prevented := true;
        if collision.happened {
          return;
        }
        if key == ArrowUp && !bike.movingUp && !bike.movingDown {
          orphans := orphans + Live(vertical);
          vertical := Every(BikeUp, TickPeriod);
          bike := bike.(movingUp := true, movingDown := false);
        } else if key == ArrowDown && !bike.movingUp && !bike.movingDown {
          orphans := orphans + Live(vertical);
          vertical := Every(BikeDown, TickPeriod);
          bike := bike.(movingUp := false, movingDown := true);
        } else if key == ArrowRight && !bike.movingRight && !bike.movingLeft {
          orphans := orphans + Live(horizontal);
          horizontal := Every(BikeRight, TickPeriod);
          bike := bike.(movingLeft := false, movingRight := true);
        } else if key == ArrowLeft && !bike.movingLeft && !bike.movingRight {
          orphans := orphans + Live(horizontal);
          horizontal := Every(BikeLeft, TickPeriod);
          bike := bike.(movingLeft := true, movingRight := false);
        }
      }
    }

    /**
     * handleKeyup: for an arrow key, clear both flags of its axis, even after
     * a collision; cancel that axis's interval only while no collision has
     * happened. Other keys change nothing.
     */
    method HandleKeyup(key: Key) returns (prevented: bool)
      requires Valid()
      modifies this
      ensures Valid()
      ensures prevented <==> key != OtherKey
      ensures key == OtherKey ==> View() == old(View())
      ensures key == ArrowUp || key == ArrowDown ==>
        View() == old(View()).(
          bike := old(bike).(movingUp := false, movingDown := false),
          vertical := if old(collision.happened) then old(vertical) else Idle)
      ensures key == ArrowLeft || key == ArrowRight ==>
        View() == old(View()).(
          bike := old(bike).(movingLeft := false, movingRight := false),
          horizontal := if old(collision.happened) then old(horizontal) else Idle)
    {
      prevented := false;
      if key == ArrowUp || key == ArrowDown {
        prevented := true;
        bike := bike.(movingUp := false, movingDown := false);
        if collision.happened {
          return;
        }
        vertical := Idle;
      } else if key == ArrowRight || key == ArrowLeft {
        prevented := true;
        bike := bike.(movingLeft := false, movingRight := false);
        if collision.happened {
          return;
        }
        horizontal := Idle;
      }
    }
  }
}
