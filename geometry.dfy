/** Integer bounding boxes of the player sprite (Jerry) and of the children of the game
    layout, and the collision test that MainActivity.checkCollision applies to each pair. */
module Geometry {

  /** A box as the collision check reads it off a view: left edge (getX) and top edge (getY),
      already truncated to int, and the view's width and height. */
  datatype Box = Box(left: int, top: int, width: int, height: int)
  {
    function Right(): int { left + width }
    function Bottom(): int { top + height }
  }

  /** The horizontal extents of the two boxes overlap; both comparisons are strict. */
  predicate HorizontalOverlap(player: Box, obstacle: Box)
  {
    player.left < obstacle.Right() && player.Right() > obstacle.left
  }

  /** The vertical extents of the two boxes overlap; both comparisons are strict. */
  predicate VerticalOverlap(player: Box, obstacle: Box)
  {
    player.top < obstacle.Bottom() && player.Bottom() > obstacle.top
  }

  /** The obstacle's bottom edge has reached the player's top edge (non-strictly) while the
      obstacle's top edge is still above it, and the two overlap horizontally. */
  predicate BottomCrossesTop(player: Box, obstacle: Box)
  {
    obstacle.Bottom() >= player.top && obstacle.top < player.top && HorizontalOverlap(player, obstacle)
  }

  /** The collision test of one obstacle against the player. Every collision needs the two
      columns to overlap, and boxes that overlap in both directions always collide. */
  predicate Collides(player: Box, obstacle: Box)
    ensures Collides(player, obstacle) ==> HorizontalOverlap(player, obstacle)
    ensures HorizontalOverlap(player, obstacle) && VerticalOverlap(player, obstacle) ==> Collides(player, obstacle)
  {
    (HorizontalOverlap(player, obstacle) && VerticalOverlap(player, obstacle))
    || BottomCrossesTop(player, obstacle)
  }

  /** For boxes of non-negative height the "bottom crosses top" clause adds exactly one case
      to the strict overlap test: an obstacle whose bottom edge lies on the player's top edge.
      Every collision needs horizontal overlap. */
  lemma CollidesIffOverlapOrTouchFromAbove(player: Box, obstacle: Box)
    requires player.height >= 0 && obstacle.height >= 0
    ensures Collides(player, obstacle) <==>
      HorizontalOverlap(player, obstacle) &&
      (VerticalOverlap(player, obstacle) || (obstacle.Bottom() == player.top && obstacle.height > 0))
  {
  }

  /** An obstacle whose column does not meet the player's column never collides, whatever
      the vertical positions: a player in another lane is safe. */
  lemma SeparateColumnsNeverCollide(player: Box, obstacle: Box)
    requires obstacle.Right() <= player.left || player.Right() <= obstacle.left
    ensures !Collides(player, obstacle)
  {
  }

  /** An obstacle whose bottom edge is still above the player's top edge never collides. */
  lemma AboveWithoutTouchingNeverCollides(player: Box, obstacle: Box)
    requires obstacle.Bottom() < player.top
    ensures !Collides(player, obstacle)
  {
  }
}
