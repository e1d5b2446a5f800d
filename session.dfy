/** The game state that MainActivity keeps in its fields, and the handlers that change it:
    the spawn tick, the end of an obstacle's fall, the collision check, the collision
    counter with its game-over path, and the restart. */
module Session {
  import opened Geometry
  import opened Views
  import opened Scan
  import opened Lanes

  class GameSession {
    // The views the activity looks up in its layout; resetGame puts them back in this order.
    const background: View
    const centreButton: View
    const rightButton: View
    const leftButton: View
    const tom: View
    const jerry: View
    /** The end screen inflated on game over. */
    const endScreen: View

    var score: nat
    var highscore: nat
    var collisionCount: nat
    /** The obstacles already resolved by a collision; the scan passes over them. */
    var checkedObstacles: set<View>
    /** The root layout's children, in order. */
    var children: seq<View>
    /** The obstacles whose fall animation is running; its end action removes the obstacle. */
    var falling: set<View>
    /** How many spawn callbacks (each re-posts itself 1000 ms after it runs) the handler
        holds pending. */
    var spawnLoops: nat
    /** How many collision-check callbacks (each re-posts itself 100 ms after it runs) the
        handler holds pending. */
    var checkLoops: nat
    /** The id View.generateViewId hands out next. */
    var nextId: int
    var screenWidth: int
    var leftEnd: int
    var center: int
    var rightEnd: int

    /** The children resetGame puts back. */
    function BaseLayout(): seq<View>
    {
      [background, centreButton, rightButton, leftButton, tom, jerry]
    }

    /** `margin` is the left margin of one of the three spawn columns. */
    predicate IsLane(margin: int)
      reads this
    {
      margin == leftEnd || margin == center || margin == rightEnd
    }

    /** The children among `kids` whose animator stopObstacles cancels: all but the right and
        left buttons and the ImageViews. */
    function Cancelled(kids: seq<View>): set<View>
    {
      set v | v in kids && !Skipped(v, rightButton.id, leftButton.id)
    }

    /** What one collision check reads, with the player's box and a box for every child. */
    function ScanFrame(player: Box, boxes: seq<Box>): Frame
      reads this
    {
      Frame(player, children, boxes, rightButton.id, leftButton.id, checkedObstacles)
    }

    /** The invariant of the session. */
    ghost predicate Valid()
      reads this
    {
      && Consistent()
      // once the second collision is counted no spawn callback is pending, and at most the
      // check callback that was running when the game ended has re-posted itself
      && (collisionCount >= 2 ==> spawnLoops == 0 && checkLoops <= 1)
    }

    /** Once the game is over, no callback of either kind is pending. */
    ghost predicate Quiet()
      reads this
    {
      collisionCount >= 2 ==> spawnLoops == 0 && checkLoops == 0
    }

    /** The part of the invariant that holds also while the game-over path runs. */
    ghost predicate Consistent()
      reads this
    {
      && background.kind == Image && tom.kind == Image && jerry.kind == Image
      && centreButton.kind == Button && rightButton.kind == Button && leftButton.kind == Button
      && endScreen.kind == Layout
      && NoDuplicates(BaseLayout())
      && NoDuplicates(children)
      // generated ids never reach the ids the build gave the right and left buttons
      && 1 <= nextId <= GeneratedIdLimit
      && rightButton.id >= GeneratedIdLimit && leftButton.id >= GeneratedIdLimit
      // every obstacle on screen was spawned in one of the three columns, and the scan tests it
      && (forall v :: v in children && v.kind.Obstacle? ==>
            v.id < nextId && IsLane(v.kind.leftMargin) && !Skipped(v, rightButton.id, leftButton.id))
      && (forall v :: v in falling ==> v.kind.Obstacle? && v.id < nextId)
    }

    /** The call counted the second collision, so the game-over path ran. */
    twostate predicate GameEnded()
      reads this
    {
      old(collisionCount) < 2 <= collisionCount
    }

    /** The effect of one counted collision (handleCollision) on everything but the handler:
        the counter goes up by one; on reaching 2 the on-screen obstacles stop falling, the
        end screen replaces every child and the high score takes the larger of itself and the
        score. */
    twostate predicate CollisionCounted()
      reads this
    {
      && collisionCount == old(collisionCount) + 1
      && score == old(score)
      && (collisionCount == 2 ==>
            && falling == old(falling) - Cancelled(old(children))
            && children == [endScreen]
            && highscore >= old(highscore) && highscore >= score
            && (highscore == old(highscore) || highscore == score))
      && (collisionCount != 2 ==>
            && falling == old(falling)
            && children == old(children)
            && highscore == old(highscore))
    }

    /** The effect of one collision scan over `boxes` on everything but the handler: with no
        child reported the score goes up by one and nothing else changes; otherwise exactly
        the reported child is resolved and the collision is counted. */
    twostate predicate ScanApplied(player: Box, boxes: seq<Box>)
      reads this
    {
      && old(|boxes| == |children|)
      && (old(FirstHit(ScanFrame(player, boxes), 0)).None? ==>
            && score == old(score) + 1
            && collisionCount == old(collisionCount)
            && checkedObstacles == old(checkedObstacles)
            && falling == old(falling) && children == old(children) && highscore == old(highscore))
      && (old(FirstHit(ScanFrame(player, boxes), 0)).Some? ==>
            && CollisionCounted()
            && checkedObstacles == old(checkedObstacles) + {old(children[FirstHit(ScanFrame(player, boxes), 0).value])})
    }

    /** onCreate: the lane columns are fixed from the screen width and one spawn callback and
        one check callback are posted over the activity's layout. */
    constructor (width: int, tomWidth: int, layout: seq<View>,
                 background: View, centreButton: View, rightButton: View, leftButton: View,
                 tom: View, jerry: View, endScreen: View)
      requires background.kind == Image && tom.kind == Image && jerry.kind == Image
      requires centreButton.kind == Button && rightButton.kind == Button && leftButton.kind == Button
      requires endScreen.kind == Layout
      requires NoDuplicates([background, centreButton, rightButton, leftButton, tom, jerry])
      requires rightButton.id >= GeneratedIdLimit && leftButton.id >= GeneratedIdLimit
      requires NoDuplicates(layout) && forall v :: v in layout ==> !v.kind.Obstacle?
      ensures Valid()
      ensures this.background == background && this.centreButton == centreButton
      ensures this.rightButton == rightButton && this.leftButton == leftButton
      ensures this.tom == tom && this.jerry == jerry && this.endScreen == endScreen
      ensures score == 0 && highscore == 0 && collisionCount == 0 && checkedObstacles == {}
      ensures children == layout && falling == {} && nextId == 1
      ensures spawnLoops == 1 && checkLoops == 1
      ensures screenWidth == width
      ensures leftEnd == LeftEnd() && center == Center(width, tomWidth) && rightEnd == RightEnd(width)
    {
      this.background, this.centreButton := background, centreButton;
      this.rightButton, this.leftButton := rightButton, leftButton;
      this.tom, this.jerry, this.endScreen := tom, jerry, endScreen;
      score, highscore, collisionCount := 0, 0, 0;
      checkedObstacles := {};
      children := layout;
      falling := {};
      nextId := 1;
      spawnLoops, checkLoops := 1, 1;
      new;
      CalculatePositions(width, tomWidth);
    }

    /** calculatePositions: the three spawn columns, with Java's truncating division. */
    method CalculatePositions(width: int, tomWidth: int)
      modifies this`screenWidth, this`leftEnd, this`center, this`rightEnd
      ensures screenWidth == width
      ensures leftEnd == LeftEnd() && center == Center(width, tomWidth) && rightEnd == RightEnd(width)
    {
      screenWidth := width;
      leftEnd := 0;
      center := JavaDiv(screenWidth, 3) - tomWidth;
      rightEnd := JavaDiv(screenWidth, 2) + 250;
    }

    /** spawnObstacle: a new obstacle with a fresh id, its left margin the column that
        `choice` (the value of Random.nextInt(3)) selects, is appended to the children and
        starts falling. */
    method SpawnObstacle(choice: nat) returns (obstacle: View)
      requires Valid() && choice < 3 && nextId < GeneratedIdLimit
      modifies this`children, this`falling, this`nextId
      ensures Valid()
      ensures obstacle.kind.Obstacle? && IsLane(obstacle.kind.leftMargin)
      ensures !Skipped(obstacle, rightButton.id, leftButton.id)
      ensures obstacle.kind.leftMargin == [leftEnd, center, rightEnd][choice]
      ensures obstacle.id == old(nextId) && nextId == old(nextId) + 1
      ensures obstacle !in old(children) && obstacle !in old(falling)
      ensures children == old(children) + [obstacle]
      ensures falling == old(falling) + {obstacle}
    {
      var marginOptions := [leftEnd, center, rightEnd];
      var randomMarginLeft := marginOptions[choice];
      obstacle := View(nextId, Obstacle(randomMarginLeft));
      nextId := nextId + 1;
      children := children + [obstacle];
      falling := falling + {obstacle};
    }

    /** One run of the spawn callback: a pending one is taken off the handler, spawns an
        obstacle and posts itself again. It only runs while the game is on. */
    method SpawnTick(choice: nat) returns (obstacle: View)
      requires Valid() && spawnLoops >= 1 && choice < 3 && nextId < GeneratedIdLimit
      modifies this`children, this`falling, this`nextId, this`spawnLoops
      ensures Valid() && collisionCount < 2
      ensures spawnLoops == old(spawnLoops)
      ensures obstacle.kind.Obstacle? && obstacle.kind.leftMargin == [leftEnd, center, rightEnd][choice]
      ensures !Skipped(obstacle, rightButton.id, leftButton.id)
      ensures obstacle.id == old(nextId) && nextId == old(nextId) + 1
      ensures obstacle !in old(children) && obstacle !in old(falling)
      ensures children == old(children) + [obstacle]
      ensures falling == old(falling) + {obstacle}
    {
      spawnLoops := spawnLoops - 1;
      obstacle := SpawnObstacle(choice);
      spawnLoops := spawnLoops + 1;
    }

    /** The end action of an obstacle's fall: the obstacle leaves the children and the
        resolved set; no other child and no other resolved obstacle is affected. */
    method FinishFall(obstacle: View)
      requires Valid() && obstacle in falling
      modifies this`children, this`checkedObstacles, this`falling
      ensures Valid()
      ensures children == Remove(old(children), obstacle)
      ensures obstacle !in children
      ensures forall v :: v != obstacle ==> (v in children <==> v in old(children))
      ensures checkedObstacles == old(checkedObstacles) - {obstacle}
      ensures falling == old(falling) - {obstacle}
    {
      RemoveOnlyThatChild(children, obstacle);
      children := Remove(children, obstacle);
      checkedObstacles := checkedObstacles - {obstacle};
      falling := falling - {obstacle};
    }

    /** checkCollision: scans the children in order, passing over the filtered-out ones and
        the resolved ones, and stops at the first that collides with the player; that one is
        counted as a collision and resolved. When no child collides the score goes up by one. */
    method CheckCollision(player: Box, boxes: seq<Box>)
      requires Valid() && |boxes| == |children|
      modifies this`score, this`collisionCount, this`checkedObstacles
      modifies this`spawnLoops, this`checkLoops, this`falling, this`children, this`highscore
      ensures Valid()
      ensures ScanApplied(player, boxes)
      ensures GameEnded() ==> spawnLoops == 0 && checkLoops == 0
      ensures !GameEnded() ==> spawnLoops == old(spawnLoops) && checkLoops == old(checkLoops)
    {
      ghost var f := ScanFrame(player, boxes);
      var collisionDetected := false;
      for i := 0 to |children|
        invariant !collisionDetected
        invariant unchanged(this)
        invariant forall j :: 0 <= j < i ==> !HitAt(f, j)
      {
        var candidate := children[i];
        if Skipped(candidate, rightButton.id, leftButton.id) {
          continue;
        }
        if candidate in checkedObstacles {
          continue;
        }
        if Collides(player, boxes[i]) {
          FirstHitIsFirstCollision(f, i);
          HandleCollision();
          collisionDetected := true;
          checkedObstacles := checkedObstacles + {candidate};
          break;
        }
      }
      if !collisionDetected {
        score := score + 1;
      }
    }

    /** One run of the check callback as written: a pending one is taken off the handler,
        checks for a collision and then posts itself again, whatever the check did. When
        that check ended the game, the callback it re-posts is the one the game-over path
        could not remove, so a check stays pending after game over. */
    method CheckTick(player: Box, boxes: seq<Box>)
      requires Valid() && checkLoops >= 1 && |boxes| == |children|
      modifies this`score, this`collisionCount, this`checkedObstacles
      modifies this`spawnLoops, this`checkLoops, this`falling, this`children, this`highscore
      ensures Valid()
      ensures ScanApplied(player, boxes)
      ensures GameEnded() ==> spawnLoops == 0 && checkLoops == 1 && !Quiet()
      ensures !GameEnded() ==> spawnLoops == old(spawnLoops) && checkLoops == old(checkLoops)
    {
      checkLoops := checkLoops - 1;
      CheckCollision(player, boxes);
      checkLoops := checkLoops + 1;
    }

    /** The check callback as it is evidently meant to behave: it posts itself again only
        while the game is on, so that once the game is over no callback is pending. */
    method GuardedCheckTick(player: Box, boxes: seq<Box>)
      requires Valid() && checkLoops >= 1 && |boxes| == |children|
      modifies this`score, this`collisionCount, this`checkedObstacles
      modifies this`spawnLoops, this`checkLoops, this`falling, this`children, this`highscore
      ensures Valid()
      ensures ScanApplied(player, boxes)
      ensures GameEnded() ==> spawnLoops == 0 && checkLoops == 0
      ensures !GameEnded() && collisionCount >= 2 ==>
        spawnLoops == old(spawnLoops) && checkLoops == old(checkLoops) - 1
      ensures collisionCount < 2 ==> spawnLoops == old(spawnLoops) && checkLoops == old(checkLoops)
      ensures old(Quiet()) ==> Quiet()
    {
      checkLoops := checkLoops - 1;
      CheckCollision(player, boxes);
      if collisionCount < 2 {
        checkLoops := checkLoops + 1;
      }
    }

    /** handleCollision: counts the collision; the second one ends the game. */
    method HandleCollision()
      requires Valid()
      modifies this`collisionCount, this`spawnLoops, this`checkLoops, this`falling, this`children, this`highscore
      ensures Valid()
      ensures CollisionCounted()
      ensures GameEnded() ==> spawnLoops == 0 && checkLoops == 0
      ensures !GameEnded() ==> spawnLoops == old(spawnLoops) && checkLoops == old(checkLoops)
    {
      collisionCount := collisionCount + 1;
      if collisionCount == 1 {
        // only Tom's sprite moves: a visual cue
      } else if collisionCount == 2 {
        StopObstacles();
        ShowEndScreen();
      }
    }

    /** stopObstacles: drops every pending callback (removeCallbacksAndMessages; a callback
        that is running is not pending) and cancels the fall of every child that is not
        filtered out, so that no end action of theirs runs. */
    method StopObstacles()
      requires Consistent()
      modifies this`spawnLoops, this`checkLoops, this`falling
      ensures Valid()
      ensures spawnLoops == 0 && checkLoops == 0
      ensures falling == old(falling) - Cancelled(children)
    {
      spawnLoops, checkLoops := 0, 0;
      for i := 0 to |children|
        invariant spawnLoops == 0 && checkLoops == 0
        invariant falling == old(falling) - Cancelled(children[..i])
      {
        var child := children[i];
        if !Skipped(child, rightButton.id, leftButton.id) {
          falling := falling - {child};
        }
        assert children[..i + 1] == children[..i] + [child];
      }
      assert children[..|children|] == children;
    }

    /** showEndScreen: the end screen replaces every child and the high score becomes the
        larger of itself and the score. */
    method ShowEndScreen()
      requires Valid()
      modifies this`children, this`highscore
      ensures Valid()
      ensures children == [endScreen]
      ensures highscore >= old(highscore) && highscore >= score
      ensures highscore == old(highscore) || highscore == score
    {
      children := [endScreen];
      if score > highscore {
        highscore := score;
      }
    }

    /** resetGame: the counter, the score and the resolved set are cleared, the layout is
        rebuilt from the base views and one more spawn callback and check callback are posted,
        beside any still pending; the high score is kept. */
    method ResetGame()
      requires Valid()
      modifies this`collisionCount, this`score, this`checkedObstacles, this`children
      modifies this`spawnLoops, this`checkLoops
      ensures Valid()
      ensures collisionCount == 0 && score == 0 && checkedObstacles == {}
      ensures children == BaseLayout()
      ensures spawnLoops == old(spawnLoops) + 1 && checkLoops == old(checkLoops) + 1
    {
      collisionCount := 0;
      score := 0;
      checkedObstacles := {};
      children := BaseLayout();
      spawnLoops, checkLoops := spawnLoops + 1, checkLoops + 1;
    }

    /** The end screen's restart button: resetGame, then the end screen is removed from a
        layout that no longer holds it. */
    method RestartFromEndScreen()
      requires Valid()
      modifies this`collisionCount, this`score, this`checkedObstacles, this`children
      modifies this`spawnLoops, this`checkLoops
      ensures Valid()
      ensures collisionCount == 0 && score == 0 && checkedObstacles == {}
      ensures children == BaseLayout()
      ensures spawnLoops == old(spawnLoops) + 1 && checkLoops == old(checkLoops) + 1
    {
      ResetGame();
      assert endScreen !in children;
      children := Remove(children, endScreen);
    }
  }
}
