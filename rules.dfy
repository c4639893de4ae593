/** Goal detection: classifies a puck position against the field's goal lines. */
module Rules {
  import opened Geometry

  /** Who scores: `NoGoal` stands for the original's `null`. Crossing the top
      line is credited to the player and crossing the bottom line to the
      opponent; that attribution is the game's own convention. */
  datatype GoalSide = Player | Opponent | NoGoal

  /** The puck's x lies in the mouth `[topGoal.x1, topGoal.x2]`, bounds included. */
  predicate WithinMouth(puckX: real, geom: FieldGeometry)
  {
    geom.topGoal.x1 <= puckX <= geom.topGoal.x2
  }

  /** The puck's body has reached the top line (its centre is at most one radius below it). */
  predicate ReachedTopLine(puckY: real, puckRadius: real, geom: FieldGeometry)
  {
    puckY <= geom.topGoal.y + puckRadius
  }

  /** The puck's body has reached the bottom edge of the play rectangle. */
  predicate ReachedBottomLine(puckY: real, puckRadius: real, geom: FieldGeometry)
  {
    puckY >= geom.playY + geom.playHeight - puckRadius
  }

  /** `detectGoal`: a goal only inside the mouth; the top line is tested first,
      so it wins when both lines are reached. */
  function DetectGoal(puckX: real, puckY: real, puckRadius: real, geom: FieldGeometry): (side: GoalSide)
    ensures side != NoGoal ==> WithinMouth(puckX, geom)
    ensures side == Player <==> WithinMouth(puckX, geom) && ReachedTopLine(puckY, puckRadius, geom)
    ensures side == Opponent <==>
      && WithinMouth(puckX, geom)
      && !ReachedTopLine(puckY, puckRadius, geom)
      && ReachedBottomLine(puckY, puckRadius, geom)
  {
    var topLine := geom.topGoal.y;
    var bottomLine := geom.playY + geom.playHeight;
    var withinMouth := puckX >= geom.topGoal.x1 && puckX <= geom.topGoal.x2;
    if !withinMouth then NoGoal
    else if puckY <= topLine + puckRadius then Player
    else if puckY >= bottomLine - puckRadius then Opponent
    else NoGoal
  }

  /** A puck strictly between the two lines, one radius clear of each, is no goal
      wherever it is horizontally. */
  lemma ClearOfBothLinesIsNoGoal(puckX: real, puckY: real, puckRadius: real, geom: FieldGeometry)
    requires geom.topGoal.y + puckRadius < puckY < geom.playY + geom.playHeight - puckRadius
    ensures DetectGoal(puckX, puckY, puckRadius, geom) == NoGoal
  {
  }

  /** Whether the puck has crossed goal mouth `line`, `towardsLow` saying on which
      side of the line the goal lies (towards smaller y for the top mouth). */
  predicate CrossedMouth(puckX: real, puckY: real, puckRadius: real, line: GoalLine, towardsLow: bool)
  {
    && line.x1 <= puckX <= line.x2
    && (if towardsLow then puckY <= line.y + puckRadius else puckY >= line.y - puckRadius)
  }

  /** On a field built by ComputeFieldGeometry, detection agrees with testing the
      puck against each goal mouth as a segment of its own: the original reads
      only the top mouth's x-range and the play rectangle's bottom edge, and
      those coincide with the bottom mouth's. */
  lemma {:induction false} DetectGoalMatchesMouths(canvasWidth: real, canvasHeight: real, puckX: real, puckY: real, puckRadius: real)
    ensures var g := ComputeFieldGeometry(canvasWidth, canvasHeight);
      var side := DetectGoal(puckX, puckY, puckRadius, g);
      && (side == Player <==> CrossedMouth(puckX, puckY, puckRadius, g.topGoal, true))
      && (side == Opponent <==>
            && !CrossedMouth(puckX, puckY, puckRadius, g.topGoal, true)
            && CrossedMouth(puckX, puckY, puckRadius, g.bottomGoal, false))
  {
    var g := ComputeFieldGeometry(canvasWidth, canvasHeight);
    assert GoalsCentred(g);
  }

  /** When the field is more than one puck diameter tall, a puck cannot reach
      both lines at once, so the bottom mouth alone decides an opponent goal. */
  lemma {:induction false} OpponentGoalOnTallField(canvasWidth: real, canvasHeight: real, puckX: real, puckY: real, puckRadius: real)
    requires 2.0 * puckRadius < ComputeFieldGeometry(canvasWidth, canvasHeight).playHeight
    ensures var g := ComputeFieldGeometry(canvasWidth, canvasHeight);
      DetectGoal(puckX, puckY, puckRadius, g) == Opponent <==> CrossedMouth(puckX, puckY, puckRadius, g.bottomGoal, false)
  {
    DetectGoalMatchesMouths(canvasWidth, canvasHeight, puckX, puckY, puckRadius);
  }

  /** At the centre of the mouth of any computed field, one unit past the top line
      scores for the player, and one unit past the bottom line scores for the
      opponent provided the field is tall enough that the top line is not reached. */
  lemma {:induction false} GoalAtMouthCentre(canvasWidth: real, canvasHeight: real, puckRadius: real)
    requires canvasWidth > 0.0 && canvasHeight > 0.0
    ensures var g := ComputeFieldGeometry(canvasWidth, canvasHeight);
      var mouthX := (g.topGoal.x1 + g.topGoal.x2) / 2.0;
      && DetectGoal(mouthX, g.topGoal.y - 1.0 + puckRadius, puckRadius, g) == Player
      && (2.0 * puckRadius < g.playHeight + 1.0 ==>
            DetectGoal(mouthX, g.playY + g.playHeight + 1.0 - puckRadius, puckRadius, g) == Opponent)
  {
    FieldGeometryBounds(canvasWidth, canvasHeight);
  }

  /** Once the puck has scored at some height, it still scores for the same side
      when it lies further past that line. */
  lemma DetectGoalMonotone(puckX: real, y1: real, y2: real, puckRadius: real, geom: FieldGeometry)
    requires y1 <= y2
    ensures DetectGoal(puckX, y2, puckRadius, geom) == Player ==> DetectGoal(puckX, y1, puckRadius, geom) == Player
    ensures DetectGoal(puckX, y1, puckRadius, geom) == Opponent ==> DetectGoal(puckX, y2, puckRadius, geom) == Opponent
  {
  }
}
