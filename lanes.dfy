/** The three spawn columns that MainActivity.calculatePositions fixes from the screen width. */
module Lanes {

  /** Java's `/` on int: the quotient truncated toward zero (Dafny's own `/` is Euclidean). */
  function JavaDiv(a: int, b: int): (q: int)
    requires b > 0
    ensures a >= 0 ==> q >= 0 && q * b <= a < q * b + b
    ensures a < 0 ==> q <= 0 && q * b - b < a <= q * b
  {
    if a >= 0 then a / b else -((-a) / b)
  }

  /** Left margin of the left column. */
  function LeftEnd(): int { 0 }

  /** Left margin of the middle column: a third of the screen width, rounded down, less
      Tom's width. */
  function Center(screenWidth: int, tomWidth: int): (r: int)
    ensures screenWidth >= 0 ==> 3 * (r + tomWidth) <= screenWidth < 3 * (r + tomWidth) + 3
  {
    JavaDiv(screenWidth, 3) - tomWidth
  }

  /** Left margin of the right column: half the screen width, rounded down, plus 250 pixels. */
  function RightEnd(screenWidth: int): (r: int)
    ensures screenWidth >= 0 ==> 2 * (r - 250) <= screenWidth < 2 * (r - 250) + 2
  {
    JavaDiv(screenWidth, 2) + 250
  }

  /** On a screen of non-negative width, with a sprite of non-negative width, the right
      column lies strictly to the right of both other columns, at least 250 pixels in. The
      left and middle columns coincide exactly when Tom is a third of the screen wide. */
  lemma RightColumnIsRightmost(screenWidth: int, tomWidth: int)
    requires screenWidth >= 0 && tomWidth >= 0
    ensures RightEnd(screenWidth) >= LeftEnd() + 250
    ensures RightEnd(screenWidth) > Center(screenWidth, tomWidth)
    ensures Center(screenWidth, tomWidth) == LeftEnd() <==> tomWidth == JavaDiv(screenWidth, 3)
  {
  }
}
