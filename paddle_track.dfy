/**
 * How the client paddles slide along their side: `move` adds the step to
 * the paddle's fraction along the side and clamps it so the whole paddle
 * stays on the side (client/src/game/Paddle.ts and
 * client/src/game/classic/ClassicPaddle.ts share the statement).
 */
module PaddleTrack {
  import opened RealMath

  /** `Math.max(halfWidth, Math.min(1 - halfWidth, position + delta))` with `halfWidth = widthRatio / 2`. */
  function Slide(position: real, delta: real, widthRatio: real): real {
    var halfWidth := widthRatio / 2.0;
    Max(halfWidth, Min(1.0 - halfWidth, position + delta))
  }

  /**
   * A paddle no wider than its side ends with both of its ends on the side;
   * a step that keeps it there is taken in full; and a paddle pinned at an
   * end does not move when pushed further out.
   */
  lemma SlideFacts(position: real, delta: real, widthRatio: real)
    ensures var half := widthRatio / 2.0;
      var r := Slide(position, delta, widthRatio);
      && (widthRatio <= 1.0 ==> half <= r <= 1.0 - half)
      && (half <= position + delta <= 1.0 - half ==> r == position + delta)
      && (widthRatio <= 1.0 && position == 1.0 - half && delta >= 0.0 ==> r == position)
      && (widthRatio <= 1.0 && position == half && delta <= 0.0 ==> r == position)
  {
  }
}
