/** Field layout derived from the canvas size: the inset play rectangle, its
    corner radius, the centre line, the two goal mouths on the top and bottom
    edges, and the two half-field zones. */
module Geometry {
  import opened JsMath

  /** A goal mouth: the segment from `x1` to `x2` on the horizontal line `y`. */
  datatype GoalLine = GoalLine(x1: real, x2: real, y: real)

  /** An axis-aligned rectangle with its top-left corner at (`x`, `y`). */
  datatype Zone = Zone(x: real, y: real, width: real, height: real)

  datatype FieldGeometry = FieldGeometry(
    playX: real,
    playY: real,
    playWidth: real,
    playHeight: real,
    cornerRadius: real,
    midY: real,
    goalWidth: real,
    topGoal: GoalLine,
    bottomGoal: GoalLine,
    playerZone: Zone,
    opponentZone: Zone)

  /** The inset between canvas and play rectangle: 5% of the shorter canvas side, rounded. */
  function Margin(canvasWidth: real, canvasHeight: real): int
  {
    Round(Min(canvasWidth, canvasHeight) * 0.05)
  }

  /** Both goal mouths span the same x-range, exactly `goalWidth` wide and
      centred on the play rectangle, and lie on its top and bottom edges. */
  predicate GoalsCentred(g: FieldGeometry)
  {
    && g.topGoal.x2 - g.topGoal.x1 == g.goalWidth
    && g.topGoal.x1 - g.playX == (g.playX + g.playWidth) - g.topGoal.x2
    && g.bottomGoal.x1 == g.topGoal.x1
    && g.bottomGoal.x2 == g.topGoal.x2
    && g.topGoal.y == g.playY
    && g.bottomGoal.y == g.playY + g.playHeight
  }

  /** The opponent zone (top) and the player zone (bottom) each cover the full
      play width and half its height, meeting at the centre line `midY`. */
  predicate ZonesPartition(g: FieldGeometry)
  {
    && g.midY == g.playY + g.playHeight / 2.0
    && g.opponentZone.x == g.playX && g.playerZone.x == g.playX
    && g.opponentZone.width == g.playWidth && g.playerZone.width == g.playWidth
    && g.opponentZone.height == g.playHeight / 2.0
    && g.playerZone.height == g.playHeight / 2.0
    && g.opponentZone.y == g.playY
    && g.opponentZone.y + g.opponentZone.height == g.midY
    && g.playerZone.y == g.midY
    && g.playerZone.y + g.playerZone.height == g.playY + g.playHeight
  }

  /** `computeFieldGeometry`: total on all inputs, like the original. */
  function ComputeFieldGeometry(canvasWidth: real, canvasHeight: real): (g: FieldGeometry)
    ensures g.playX == g.playY == Margin(canvasWidth, canvasHeight) as real
    ensures g.playWidth == canvasWidth - 2.0 * g.playX
    ensures g.playHeight == canvasHeight - 2.0 * g.playY
    // cornerRadius and goalWidth are whole numbers within one half of 6% of the
    // shorter play side and of 35% of the play width
    ensures g.cornerRadius == g.cornerRadius.Floor as real
    ensures Min(g.playWidth, g.playHeight) * 0.06 - 0.5 < g.cornerRadius <= Min(g.playWidth, g.playHeight) * 0.06 + 0.5
    ensures g.goalWidth == g.goalWidth.Floor as real
    ensures g.playWidth * 0.35 - 0.5 < g.goalWidth <= g.playWidth * 0.35 + 0.5
    ensures GoalsCentred(g)
    ensures ZonesPartition(g)
  {
    var margin := Margin(canvasWidth, canvasHeight) as real;
    var playX := margin;
    var playY := margin;
    var playWidth := canvasWidth - margin * 2.0;
    var playHeight := canvasHeight - margin * 2.0;
    var cornerRadius := Round(Min(playWidth, playHeight) * 0.06) as real;
    var midY := playY + playHeight / 2.0;
    var goalWidth := Round(playWidth * 0.35) as real;
    var gx1 := playX + (playWidth - goalWidth) / 2.0;
    var gx2 := gx1 + goalWidth;
    var topGoalY := playY;
    var bottomGoalY := playY + playHeight;
    var playerZone := Zone(playX, midY, playWidth, playHeight / 2.0);
    var opponentZone := Zone(playX, playY, playWidth, playHeight / 2.0);
    FieldGeometry(
      playX, playY, playWidth, playHeight, cornerRadius, midY, goalWidth,
      GoalLine(gx1, gx2, topGoalY), GoalLine(gx1, gx2, bottomGoalY),
      playerZone, opponentZone)
  }

  /** For any positive canvas size the layout is non-degenerate: a non-negative
      margin, a play rectangle of positive size, a goal mouth strictly narrower
      than the play width and inside it, a centre line strictly between the edges, and a
      corner radius between 0 and half the shorter play side. */
  lemma {:induction false} FieldGeometryBounds(canvasWidth: real, canvasHeight: real)
    requires canvasWidth > 0.0 && canvasHeight > 0.0
    ensures var g := ComputeFieldGeometry(canvasWidth, canvasHeight);
      && 0.0 <= g.playX
      && 0.0 < g.playWidth && 0.0 < g.playHeight
      && g.playX + g.playWidth <= canvasWidth && g.playY + g.playHeight <= canvasHeight
      && 0.0 <= g.goalWidth < g.playWidth
      && g.playX <= g.topGoal.x1 <= g.topGoal.x2 <= g.playX + g.playWidth
      && g.playY < g.midY < g.playY + g.playHeight
      && 0.0 <= g.cornerRadius <= Min(g.playWidth, g.playHeight) / 2.0
  {
    var g := ComputeFieldGeometry(canvasWidth, canvasHeight);
    MarginBounds(canvasWidth, canvasHeight);
    GoalWidthFits(g.playWidth);
    CornerRadiusFits(Min(g.playWidth, g.playHeight));
  }

  /** The margin is non-negative and leaves a positive play extent on both axes. */
  lemma MarginBounds(canvasWidth: real, canvasHeight: real)
    requires canvasWidth > 0.0 && canvasHeight > 0.0
    ensures 0 <= Margin(canvasWidth, canvasHeight)
    ensures 2.0 * Margin(canvasWidth, canvasHeight) as real < Min(canvasWidth, canvasHeight)
  {
    var m := Min(canvasWidth, canvasHeight);
    if m < 10.0 {
      assert Margin(canvasWidth, canvasHeight) == 0;
    }
  }

  /** 35% of a non-negative width, rounded, is a whole number between 0 and that
      width, and strictly below it when the width is positive. */
  lemma GoalWidthFits(d: real)
    requires 0.0 <= d
    ensures 0 <= Round(d * 0.35)
    ensures Round(d * 0.35) as real <= d
    ensures 0.0 < d ==> Round(d * 0.35) as real < d
  {
    if d * 0.35 < 0.5 {
      assert Round(d * 0.35) == 0;
    }
  }

  /** 6% of a non-negative extent, rounded, is a whole number between 0 and half that extent. */
  lemma CornerRadiusFits(d: real)
    requires 0.0 <= d
    ensures 0 <= Round(d * 0.06)
    ensures Round(d * 0.06) as real <= d / 2.0
  {
    if d * 0.06 < 0.5 {
      assert Round(d * 0.06) == 0;
    }
  }
}
