/** The repository's unit-test scenarios, stated as lemmas about concrete
    inputs. Each lemma pins down the full result the model gives there. */
module Scenarios {
  import opened JsMath
  import opened Geometry
  import opened Rules
  import opened Ai

  /** The 800 x 1600 canvas: margin 40, a 720 x 1520 play rectangle, a 252-wide
      goal mouth from x = 274 to x = 526, and the centre line at y = 800. */
  lemma Field800x1600()
    ensures ComputeFieldGeometry(800.0, 1600.0) == FieldGeometry(
      40.0, 40.0, 720.0, 1520.0, 43.0, 800.0, 252.0,
      GoalLine(274.0, 526.0, 40.0), GoalLine(274.0, 526.0, 1560.0),
      Zone(40.0, 800.0, 720.0, 760.0), Zone(40.0, 40.0, 720.0, 760.0))
  {
    assert Margin(800.0, 1600.0) == 40;
    assert Round(720.0 * 0.06) == 43;
    assert Round(720.0 * 0.35) == 252;
  }

  /** The goal-width check in the geometry test expects 90% of the play width,
      while the code takes 35%: on the 800 x 1600 canvas the two disagree. */
  lemma GoalWidthIsNotNinetyPercent()
    ensures ComputeFieldGeometry(800.0, 1600.0).goalWidth != Round(ComputeFieldGeometry(800.0, 1600.0).playWidth * 0.9) as real
  {
    Field800x1600();
    assert Round(720.0 * 0.9) == 648;
  }

  /** The 600 x 1200 canvas: the zones meet at y = 600 and are 570 high each. */
  lemma Field600x1200()
    ensures ComputeFieldGeometry(600.0, 1200.0) == FieldGeometry(
      30.0, 30.0, 540.0, 1140.0, 32.0, 600.0, 189.0,
      GoalLine(205.5, 394.5, 30.0), GoalLine(205.5, 394.5, 1170.0),
      Zone(30.0, 600.0, 540.0, 570.0), Zone(30.0, 30.0, 540.0, 570.0))
  {
    assert Margin(600.0, 1200.0) == 30;
    assert Round(540.0 * 0.06) == 32;
    assert Round(540.0 * 0.35) == 189;
  }

  /** Goal detection at the mouth's centre (x = 400) with a radius of 20: one unit
      past the top line scores for the player, one unit past the bottom line for
      the opponent, and a puck left of the play rectangle never scores. */
  lemma GoalScenarios()
    ensures DetectGoal(400.0, 40.0 - 1.0 + 20.0, 20.0, ComputeFieldGeometry(800.0, 1600.0)) == Player
    ensures DetectGoal(400.0, 1560.0 + 1.0 - 20.0, 20.0, ComputeFieldGeometry(800.0, 1600.0)) == Opponent
    ensures DetectGoal(40.0 - 10.0, 40.0, 20.0, ComputeFieldGeometry(800.0, 1600.0)) == NoGoal
  {
    Field800x1600();
  }

  /** Opponent targeting on the 800 x 1600 field with a radius of 40 and a lead of
      0.12 s: a puck at x = 100 moving at 500 per second is aimed at x = 160; a
      puck just below the centre line holds the defensive line y = 680; a puck
      near the top edge is tracked at the floor y = 90. */
  lemma TargetScenarios()
    ensures ComputeOpponentTarget(AITargetParams(100.0, 200.0, 500.0, 0.0, ComputeFieldGeometry(800.0, 1600.0), 40.0, 0.12))
      == Target(160.0, 200.0)
    ensures ComputeOpponentTarget(AITargetParams(400.0, 800.0 + 10.0, 0.0, 0.0, ComputeFieldGeometry(800.0, 1600.0), 40.0, 0.12))
      == Target(400.0, 680.0)
    ensures ComputeOpponentTarget(AITargetParams(400.0, 40.0 + 5.0, 0.0, 0.0, ComputeFieldGeometry(800.0, 1600.0), 40.0, 0.12))
      == Target(400.0, 90.0)
  {
    Field800x1600();
  }
}
