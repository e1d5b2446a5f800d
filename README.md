# Cheese chase: the game state of a three-lane dodge game

The game is a single Android activity. Jerry moves between three columns to dodge falling
obstacles, and Tom follows him. A handler runs two ticks. One spawns an obstacle every
second. The other checks for collisions every 100 ms. Each check either counts one
collision or adds a point. The second collision ends the game and updates the high score.
The restart button resets the game.

This project models that integer game state as a Dafny class, `Session.GameSession`. Its
fields are the activity's `score`, `highscore`, `collisionCount` and `checkedObstacles`, the
root layout's children in order, and the three spawn columns. Two more fields stand for
things the activity leaves to the Android runtime:

- `falling` is the set of obstacles whose fall animation is still running.
- `spawnLoops` and `checkLoops` count the spawn callbacks and the collision-check
  callbacks the handler holds pending. Each callback re-posts itself after it runs.

Each handler of the activity is a method of the class:

- `SpawnTick` is one run of the spawn callback. It calls `SpawnObstacle`.
- `CheckTick` is one run of the collision-check callback. It calls `CheckCollision`, which
  is also the end action of Jerry's lateral move.
- `FinishFall` is the end action of one obstacle's fall.
- `ResetGame` is the restart button.

Every method is proved against a contract that states the whole new state.

The pure parts are modules of their own:

- `Geometry`: integer boxes and the collision test.
- `Scan`: which child one collision scan reports (`FirstHit`), specified as "the first child
  that passes the filter and collides".
- `Views`: the layout's `indexOfChild` and `removeView` on a list of children.
- `Lanes`: Java's truncating division and the spawn-column formulas.

`Scenarios` plays a short game through the contracts alone.

Positions enter the model as integer boxes, one per child, passed to each collision check.
The random column choice enters as a parameter in 0..2. So do the screen width and Tom's
width.

The model follows the code in these behaviours, some of which a player would not expect:

- The scan filter passes over the right and left buttons (by id) and every `ImageView`.
  It does not pass over the centre button or any other non-`ImageView` child. Those are
  tested for collision like obstacles, although only obstacles are meant to be hit.
- An obstacle is resolved (added to `checkedObstacles`) only when it collides. A tick with
  no collision adds a point and resolves nothing.
- `collisionCount` is not capped at 2, and nothing refuses a third count.
- `removeCallbacksAndMessages` drops only the pending callbacks. When the second collision
  is found by a check callback, that callback is running, not pending: it re-posts itself
  after the game-over path. So one check callback survives game over. It keeps scanning the
  end screen, can count a third collision and keeps adding points (see "## Findings").
  `Valid` keeps `collisionCount >= 2 ==> spawnLoops == 0 && checkLoops <= 1`. No callback
  survives when the second collision is found by the end action of a lateral move.
- `resetGame` does not move Jerry back to the middle column.
- `resetGame` does not cancel the falls of the obstacles it takes off the screen. Their end
  actions still run later. The model shows they change nothing (`Remove` of a missing
  child is the identity).
- `resetGame` posts one more spawn callback and one more check callback beside those still
  pending. Pressed mid-game, it leaves two of each. Restarting from the end screen leaves
  one spawn callback and, after a game over found by a check callback, two check callbacks.
- Game over leaves the last obstacle hit in `checkedObstacles` until the next reset.

## Model

| member | source | states |
|---|---|---|
| Geometry.CollidesIffOverlapOrTouchFromAbove | app/src/main/java/com/example/myapplication/MainActivity.java:166-170 | For boxes of non-negative height, an obstacle collides exactly when it overlaps Jerry horizontally and either overlaps him strictly in height or its bottom edge lies on his top edge. The "bottom crosses top" clause adds only that touching case. |
| Geometry.SeparateColumnsNeverCollide | app/src/main/java/com/example/myapplication/MainActivity.java:166-170 | An obstacle whose column does not meet Jerry's never collides, whatever the heights. |
| Geometry.AboveWithoutTouchingNeverCollides | app/src/main/java/com/example/myapplication/MainActivity.java:167-170 | An obstacle whose bottom edge is still above Jerry's top edge never collides. |
| Geometry.Collides | app/src/main/java/com/example/myapplication/MainActivity.java:166-170 | Every collision needs the two columns to overlap. Boxes that overlap strictly in both directions always collide. |
| Views.IndexOf | app/src/main/java/com/example/myapplication/MainActivity.java:109 | The index found is that of the first occurrence of the view. The result is None exactly when the view is not a child. |
| Views.Remove | app/src/main/java/com/example/myapplication/MainActivity.java:109 | removeView takes out exactly one occurrence, so the multiset of children loses that one view. Removing a view that is not a child changes nothing. |
| Views.RemoveOnlyThatChild | app/src/main/java/com/example/myapplication/MainActivity.java:108-111 | On a duplicate-free list of children, the removed view is gone, every other view keeps its membership, and the list stays duplicate-free. |
| Scan.Skipped | app/src/main/java/com/example/myapplication/MainActivity.java:153-155 | An obstacle is passed over exactly when its id equals the right or the left button's id. A button other than those two, such as the centre button, is tested. |
| Scan.HitAt | app/src/main/java/com/example/myapplication/MainActivity.java:153-170 | A child the scan counts is not an ImageView, is not already resolved, and overlaps Jerry's column. |
| Scan.FirstHit | app/src/main/java/com/example/myapplication/MainActivity.java:150-175 | The reported position is a child that is not filtered out, is not in checkedObstacles, and collides. Every earlier such child does not collide. No report means no child passes the filter and collides. |
| Scan.FirstHitIsFirstCollision | app/src/main/java/com/example/myapplication/MainActivity.java:150-175 | Both directions: the scan reports position k exactly when child k passes the filter and collides and no earlier child does. |
| Scan.ReportedChildIsFresh | app/src/main/java/com/example/myapplication/MainActivity.java:153-159 | The reported child is never a right/left button or an ImageView, and never an already resolved obstacle. |
| Scan.NextScanSkipsResolved | app/src/main/java/com/example/myapplication/MainActivity.java:157-173 | After the reported child is added to checkedObstacles, a scan over the same positions reports the next colliding child after it, never the same one again. |
| Lanes.JavaDiv | app/src/main/java/com/example/myapplication/MainActivity.java:69-70 | The quotient is truncated toward zero, as Java's int division is. It is bounded by the dividend on both sides. |
| Lanes.Center | app/src/main/java/com/example/myapplication/MainActivity.java:69 | For a non-negative screen width, center plus Tom's width is the width divided by 3, rounded down. |
| Lanes.RightEnd | app/src/main/java/com/example/myapplication/MainActivity.java:70 | For a non-negative screen width, rightEnd less 250 is the width divided by 2, rounded down. |
| Lanes.RightColumnIsRightmost | app/src/main/java/com/example/myapplication/MainActivity.java:68-70 | For non-negative widths, rightEnd is at least 250 and strictly right of leftEnd and center. center equals leftEnd exactly when Tom is a third of the screen wide. |
| Session.GameSession.constructor | app/src/main/java/com/example/myapplication/MainActivity.java:34-51 | onCreate: the counters are zero, nothing is resolved or falling, the columns are set, and one spawn callback and one check callback are pending. The right and left buttons have build-time ids, above the range of generated ids. |
| Session.GameSession.CalculatePositions | app/src/main/java/com/example/myapplication/MainActivity.java:63-71 | leftEnd = 0, center = width/3 - tomWidth and rightEnd = width/2 + 250, with truncating division. |
| Session.GameSession.SpawnObstacle | app/src/main/java/com/example/myapplication/MainActivity.java:83-96 | The new obstacle has a fresh id, which is never a button's id, so the scan tests it. Its left margin is the chosen one of leftEnd, center, rightEnd, so it is in a lane. It is appended to the children and starts falling. The invariant that every on-screen obstacle is in a lane and is tested by the scan is kept. |
| Session.GameSession.SpawnTick | app/src/main/java/com/example/myapplication/MainActivity.java:73-81 | A spawn callback only runs while the game is on. It spawns one obstacle as SpawnObstacle states and leaves one spawn callback pending in its place. |
| Session.GameSession.FinishFall | app/src/main/java/com/example/myapplication/MainActivity.java:108-111 | The obstacle leaves the children, checkedObstacles and the falling set. No other view's membership in any of them changes. |
| Session.GameSession.CheckCollision | app/src/main/java/com/example/myapplication/MainActivity.java:142-181 | If the scan reports nothing, the score rises by exactly 1 and nothing else changes. If it reports a child, the score is unchanged, exactly that child is added to checkedObstacles, and the collision is counted once (as HandleCollision states). Every pending callback is dropped exactly when this call counts the second collision. |
| Session.GameSession.CheckTick | app/src/main/java/com/example/myapplication/MainActivity.java:132-140 | The check has the effect CheckCollision states. When it ends the game, no spawn callback but one check callback is pending afterwards, so the game is not quiet. Otherwise the pending callbacks are as before. |
| Session.GameSession.GuardedCheckTick | app/src/main/java/com/example/myapplication/MainActivity.java:132-140 | The corrected check callback has the same effect on the game. It re-posts itself only while the game is on, so when it ends the game nothing is pending, and a game with no callback pending after game over stays that way. |
| Session.GameSession.HandleCollision | app/src/main/java/com/example/myapplication/MainActivity.java:183-195 | collisionCount rises by exactly 1. On reaching 2, every pending callback is dropped, the on-screen obstacles stop falling, the end screen replaces the children, and highscore becomes max(highscore, score). Otherwise nothing else changes. |
| Session.GameSession.StopObstacles | app/src/main/java/com/example/myapplication/MainActivity.java:197-210 | No spawn or check callback remains pending. Every child that is not a right/left button or an ImageView leaves the falling set. |
| Session.GameSession.ShowEndScreen | app/src/main/java/com/example/myapplication/MainActivity.java:212-237 | The children become the end screen alone. The new highscore is at least the old one and at least the score, and equals one of them, so it never decreases. |
| Session.GameSession.ResetGame | app/src/main/java/com/example/myapplication/MainActivity.java:239-255 | collisionCount and score are 0 and checkedObstacles is empty. The children are the six base views. One more spawn callback and one more check callback are pending. highscore is outside its frame, so it is unchanged. |
| Session.GameSession.RestartFromEndScreen | app/src/main/java/com/example/myapplication/MainActivity.java:229-232 | The same state as ResetGame. Removing the end screen afterwards is a no-op. |
| Scenarios.TwoObstaclesInMiddleColumn | app/src/main/java/com/example/myapplication/MainActivity.java:83-96 | Two spawns with choice 1 on a 1080-pixel screen give two distinct obstacles at margin 360, after Tom and Jerry in the layout. |
| Scenarios.OneHitAfterOneClearTick | app/src/main/java/com/example/myapplication/MainActivity.java:132-195 | A clear check tick scores 1. A tick with the first obstacle on Jerry counts one collision and resolves that obstacle. |
| Scenarios.TwoHitsInOneColumnEndTheGame | app/src/main/java/com/example/myapplication/MainActivity.java:132-237 | With the corrected check callback, the second obstacle's hit ends the game. collisionCount is 2, no callback is pending, and the high score is the score of 1. |
| Scenarios.GameOverOnPlainTick | app/src/main/java/com/example/myapplication/MainActivity.java:132-237 | The same hit on the check callback as written ends the game with the end screen alone on screen and one check callback still pending. |
| Scenarios.CheckLoopSurvivesGameOver | app/src/main/java/com/example/myapplication/MainActivity.java:132-175 | After that game over, the surviving callback counts the end screen as a third collision and then adds a point to the final score. |
| Scenarios.RestartAfterPlainGameOverChecksTwice | app/src/main/java/com/example/myapplication/MainActivity.java:229-255 | Restarting after that game over leaves one spawn callback and two check callbacks pending. |

## Findings

| source | as written | input that shows it | evidently intended | confidence | as-written member | corrected member |
|---|---|---|---|---|---|---|
| app/src/main/java/com/example/myapplication/MainActivity.java:135-137 | The check callback re-posts itself after every run, even when that run counted the second collision and `removeCallbacksAndMessages` has just cleared the handler. | Two obstacles reach Jerry on two check ticks. Then the end screen's box covers Jerry: the surviving callback counts a third collision, and the tick after adds a point. | Once the game is over, no callback is pending, so nothing is checked or scored until a restart. | not executed | Session.GameSession.CheckTick | Session.GameSession.GuardedCheckTick |

`Scenarios.GameOverOnPlainTick`, `Scenarios.CheckLoopSurvivesGameOver` and
`Scenarios.RestartAfterPlainGameOverChecksTwice` play out the input above on the check callback as
written. `Scenarios.TwoHitsInOneColumnEndTheGame` plays the same hits on the corrected one.

## Left out

- Scheduling (the 100 ms start delay, the 1000 ms spawn period and the 100 ms check period)
  is left out. The handler's queue is reduced to the counts `spawnLoops` and `checkLoops`.
  Each run of a callback is a method call, in whatever order the caller chooses.
- Animation (`ViewPropertyAnimator`, the 5000 ms fall and the 300 ms lateral move) is
  float motion over time. Positions enter the scan as integer boxes instead. The cast of
  `getX`/`getY` to int happens before the model.
- Jerry's lateral moves (the button listeners, `startHorizontalAnimation`, and
  `jerry.animate().cancel()` at game over) are left out. Only their effect, Jerry's box at
  the next check, enters the model. The end action of a lateral move calls the same
  collision check that the model has.
- Tom's vertical nudges and every text, layout inflation, `finish()` and exit are visual
  or lifecycle calls with no effect on the state.
- `Random.nextInt(3)` is the parameter `choice < 3`. `DisplayMetrics` and `getWidth` are
  parameters.
- `View.generateViewId` is modelled as a counter starting at 1. Views are compared by id
  and kind, not by object identity.
- Session.GameSession.SpawnObstacle: requires the counter to be below 0x01000000. The
  wrap-around of `generateViewId` back to 1 after 0x00FFFFFF ids is not modelled.
- Session.GameSession.StopObstacles: does not model the `animator != null` test. It removes
  every child that is not filtered out from `falling`, which holds only obstacles, and
  every obstacle carries its animator.
- Java's 32-bit `int` overflow of `score`, `collisionCount` and the box edges is not
  modelled. The model's integers are unbounded.
