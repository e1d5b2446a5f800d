module Scenarios {
  import opened Geometry
  import opened Views
  import opened Scan
  import opened Session

  /** A fresh game whose layout holds Tom and Jerry, with two obstacles spawned in the
      middle column. The layout's views carry build-time ids; the obstacles carry the first
      two generated ids. */
  method TwoObstaclesInMiddleColumn() returns (game: GameSession, first: View, second: View)
    ensures fresh(game) && game.Valid()
    ensures game.rightButton.id == 0x7f08_0003 && game.leftButton.id == 0x7f08_0004
    ensures game.endScreen == View(0x7f08_0007, Layout)
    ensures first == View(1, Obstacle(360)) && second == View(2, Obstacle(360))
    ensures game.children == [View(0x7f08_0005, Image), View(0x7f08_0006, Image), first, second]
    ensures game.score == 0 && game.highscore == 0 && game.collisionCount == 0
    ensures game.checkedObstacles == {}
    ensures game.spawnLoops == 1 && game.checkLoops == 1
  {
    var background, centre := View(0x7f08_0001, Image), View(0x7f08_0002, Button);
    var right, left := View(0x7f08_0003, Button), View(0x7f08_0004, Button);
    var tom, jerry := View(0x7f08_0005, Image), View(0x7f08_0006, Image);
    var end := View(0x7f08_0007, Layout);
    game := new GameSession(1080, 0, [tom, jerry],
                            background, centre, right, left, tom, jerry, end);
    first := game.SpawnObstacle(1);
    second := game.SpawnObstacle(1);
  }

  /** Two check ticks over the two obstacles in Jerry's column: a clear tick scores one
      point, then the first obstacle reaches Jerry and is counted. The boxes returned have
      the second obstacle reaching Jerry too. */
  method OneHitAfterOneClearTick() returns (game: GameSession, player: Box, boxes: seq<Box>)
    ensures fresh(game) && game.Valid()
    ensures game.rightButton.id == 0x7f08_0003 && game.leftButton.id == 0x7f08_0004
    ensures game.endScreen == View(0x7f08_0007, Layout)
    ensures game.children == [View(0x7f08_0005, Image), View(0x7f08_0006, Image),
                              View(1, Obstacle(360)), View(2, Obstacle(360))]
    ensures game.score == 1 && game.highscore == 0 && game.collisionCount == 1
    ensures game.checkedObstacles == {View(1, Obstacle(360))}
    ensures game.spawnLoops == 1 && game.checkLoops == 1
    ensures player == Box(360, 1500, 100, 100)
    ensures boxes == [player, player, Box(360, 1450, 80, 80), Box(360, 1450, 80, 80)]
  {
    var first, second;
    game, first, second := TwoObstaclesInMiddleColumn();
    // Jerry in the middle column, the obstacles high above him
    player := Box(360, 1500, 100, 100);
    boxes := [player, player, Box(360, 0, 80, 80), Box(360, 0, 80, 80)];
    var f := game.ScanFrame(player, boxes);
    assert FirstHit(f, 0).None? by {
      forall j | 0 <= j < 4 ensures !HitAt(f, j) { }
    }
    game.CheckTick(player, boxes);

    // the first obstacle reaches Jerry
    boxes := boxes[2 := Box(360, 1450, 80, 80)];
    f := game.ScanFrame(player, boxes);
    assert FirstHit(f, 0) == Some(2) by {
      forall j | 0 <= j < 2 ensures !HitAt(f, j) { }
      FirstHitIsFirstCollision(f, 2);
    }
    game.CheckTick(player, boxes);
    boxes := boxes[3 := Box(360, 1450, 80, 80)];
  }

  /** With the check callback re-posting itself only while the game is on, the second hit
      ends the game with no callback pending, and records the score of 1 as the high score. */
  method TwoHitsInOneColumnEndTheGame() returns (collisions: nat, spawns: nat, checks: nat, best: nat)
    ensures collisions == 2 && spawns == 0 && checks == 0 && best == 1
  {
    var game, player, boxes := OneHitAfterOneClearTick();
    var f := game.ScanFrame(player, boxes);
    assert FirstHit(f, 0) == Some(3) by {
      forall j | 0 <= j < 3 ensures !HitAt(f, j) { }
      FirstHitIsFirstCollision(f, 3);
    }
    game.GuardedCheckTick(player, boxes);
    collisions, spawns, checks, best := game.collisionCount, game.spawnLoops, game.checkLoops, game.highscore;
  }

  /** The same second hit on the check callback as written: the game is over, the end
      screen is the only child, and one check callback is still pending. */
  method GameOverOnPlainTick() returns (game: GameSession)
    ensures fresh(game) && game.Valid()
    ensures game.rightButton.id == 0x7f08_0003 && game.leftButton.id == 0x7f08_0004
    ensures game.endScreen == View(0x7f08_0007, Layout)
    ensures game.children == [game.endScreen]
    ensures game.score == 1 && game.highscore == 1 && game.collisionCount == 2
    ensures game.checkedObstacles == {View(1, Obstacle(360)), View(2, Obstacle(360))}
    ensures game.spawnLoops == 0 && game.checkLoops == 1
  {
    var player, boxes;
    game, player, boxes := OneHitAfterOneClearTick();
    var f := game.ScanFrame(player, boxes);
    assert FirstHit(f, 0) == Some(3) by {
      forall j | 0 <= j < 3 ensures !HitAt(f, j) { }
      FirstHitIsFirstCollision(f, 3);
    }
    game.CheckTick(player, boxes);
  }

  /** After game over the surviving check callback keeps running over the end screen: the
      end screen is neither a right/left button nor an ImageView, so once its box covers
      Jerry it is counted as a third collision, and the tick after that adds a point. */
  method CheckLoopSurvivesGameOver() returns (pendingChecks: nat, collisions: nat, points: nat)
    ensures pendingChecks == 1 && collisions == 3 && points == 2
  {
    var game := GameOverOnPlainTick();
    var player := Box(360, 1500, 100, 100);
    var boxes := [Box(0, 0, 1080, 2000)];
    var f := game.ScanFrame(player, boxes);
    assert FirstHit(f, 0) == Some(0) by {
      FirstHitIsFirstCollision(f, 0);
    }
    game.CheckTick(player, boxes);
    f := game.ScanFrame(player, boxes);
    assert FirstHit(f, 0).None? by {
      assert !HitAt(f, 0);
    }
    game.CheckTick(player, boxes);
    pendingChecks, collisions, points := game.checkLoops, game.collisionCount, game.score;
  }

  /** Restarting from the end screen after that game over leaves two check callbacks
      pending beside one spawn callback, so collisions are checked twice as often. */
  method RestartAfterPlainGameOverChecksTwice() returns (spawns: nat, checks: nat)
    ensures spawns == 1 && checks == 2
  {
    var game := GameOverOnPlainTick();
    game.RestartFromEndScreen();
    spawns, checks := game.spawnLoops, game.checkLoops;
  }
}
