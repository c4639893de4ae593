/** Opponent targeting: where the computer-controlled paddle aims, predicted
    from the puck's position and velocity. */
module Ai {
  import opened JsMath
  import opened Geometry

  /** The inputs of `computeOpponentTarget`. `velY` is accepted but never read. */
  datatype AITargetParams = AITargetParams(
    puckX: real,
    puckY: real,
    velX: real,
    velY: real,
    geom: FieldGeometry,
    paddleRadius: real,
    leadSeconds: real)

  datatype Target = Target(x: real, y: real)

  /** `clamp(v, a, b)`, written as `max(a, min(b, v))`: when `a <= b` the point
      of `[a, b]` nearest to `v`; when `a > b` the lower bound `a` wins. */
  function Clamp(v: real, a: real, b: real): (r: real)
    ensures a <= r
    ensures a <= b ==> r <= b
    ensures a <= v <= b ==> r == v
    ensures v <= a || b <= a ==> r == a
    ensures a <= b <= v ==> r == b
  {
    Max(a, Min(b, v))
  }

  /** Clamping twice into the same ordered interval changes nothing further. */
  lemma ClampIdempotent(v: real, a: real, b: real)
    requires a <= b
    ensures Clamp(Clamp(v, a, b), a, b) == Clamp(v, a, b)
  {
  }

  /** Within an ordered interval, the clamped value is at least as close to `v`
      as any other point of the interval. */
  lemma ClampIsNearest(v: real, a: real, b: real, u: real)
    requires a <= u <= b
    ensures Dist(Clamp(v, a, b), v) <= Dist(u, v)
  {
  }

  /** Clamping into an ordered interval never moves two values further apart. */
  lemma ClampNonExpansive(u: real, v: real, a: real, b: real)
    requires a <= b
    ensures Dist(Clamp(u, a, b), Clamp(v, a, b)) <= Dist(u, v)
  {
  }

  function Dist(p: real, q: real): real
  {
    if p <= q then q - p else p - q
  }

  function Abs(x: real): real
  {
    if x < 0.0 then -x else x
  }

  /** The x-range a paddle's centre may occupy: one radius inside each side wall. */
  function MinTargetX(p: AITargetParams): real { p.geom.playX + p.paddleRadius }
  function MaxTargetX(p: AITargetParams): real { p.geom.playX + p.geom.playWidth - p.paddleRadius }

  /** The bounds for tracking the puck's y deep in the opponent half: 10 units
      below the top of the opponent zone and 40 units above the centre line,
      each one radius in. */
  function MinTrackY(p: AITargetParams): real { p.geom.opponentZone.y + p.paddleRadius + 10.0 }
  function MaxTrackY(p: AITargetParams): real { p.geom.midY - p.paddleRadius - 40.0 }

  /** The puck is deep in the opponent half: more than 40 units above the centre line. */
  predicate PuckIsDeep(p: AITargetParams) { p.puckY < p.geom.midY - 40.0 }

  /** Where the puck would be horizontally after `leadSeconds` of straight travel. */
  function PredictedX(p: AITargetParams): real { p.puckX + p.velX * p.leadSeconds }

  /** `computeOpponentTarget` */
  function ComputeOpponentTarget(p: AITargetParams): (t: Target)
    // x: the predicted x, pulled back within the paddle's reach
    ensures MinTargetX(p) <= MaxTargetX(p) ==> MinTargetX(p) <= t.x <= MaxTargetX(p)
    ensures MinTargetX(p) <= PredictedX(p) <= MaxTargetX(p) ==> t.x == PredictedX(p)
    ensures PredictedX(p) <= MinTargetX(p) ==> t.x == MinTargetX(p)
    ensures MinTargetX(p) <= MaxTargetX(p) <= PredictedX(p) ==> t.x == MaxTargetX(p)
    ensures MaxTargetX(p) < MinTargetX(p) ==> t.x == MinTargetX(p)
    // y: the defensive line unless the puck is deep, then the puck's own y pulled within range
    ensures !PuckIsDeep(p) ==> t.y == p.geom.midY - 120.0
    ensures PuckIsDeep(p) ==> MinTrackY(p) <= t.y
    ensures PuckIsDeep(p) && MinTrackY(p) <= MaxTrackY(p) ==> t.y <= MaxTrackY(p)
    ensures PuckIsDeep(p) && MinTrackY(p) <= p.puckY <= MaxTrackY(p) ==> t.y == p.puckY
    ensures PuckIsDeep(p) && p.puckY <= MinTrackY(p) ==> t.y == MinTrackY(p)
    ensures PuckIsDeep(p) && MinTrackY(p) <= MaxTrackY(p) <= p.puckY ==> t.y == MaxTrackY(p)
    ensures PuckIsDeep(p) && MaxTrackY(p) < MinTrackY(p) ==> t.y == MinTrackY(p)
  {
    var predictedX := PredictedX(p);
    var desiredX := Clamp(predictedX, MinTargetX(p), MaxTargetX(p));
    var defLine := p.geom.midY - 120.0;
    var desiredY := if PuckIsDeep(p) then Clamp(p.puckY, MinTrackY(p), MaxTrackY(p)) else defLine;
    Target(desiredX, desiredY)
  }

  /** Tracking a deep puck keeps the aim strictly above the centre line (for a
      non-negative radius) and never above the tracking floor. */
  lemma DeepTargetStaysInOpponentHalf(p: AITargetParams)
    requires PuckIsDeep(p) && 0.0 <= p.paddleRadius && MinTrackY(p) <= MaxTrackY(p)
    ensures MinTrackY(p) <= ComputeOpponentTarget(p).y < p.geom.midY
  {
  }

  /** The aim x depends continuously on the lead time: two calls that differ
      only in `leadSeconds` aim at most `|velX|` times the difference apart. */
  lemma {:induction false} TargetXLeadSensitivity(p: AITargetParams, lead: real)
    ensures Dist(ComputeOpponentTarget(p).x, ComputeOpponentTarget(p.(leadSeconds := lead)).x)
      <= Abs(p.velX) * Abs(p.leadSeconds - lead)
  {
    var q := p.(leadSeconds := lead);
    var lo, hi := MinTargetX(p), MaxTargetX(p);
    calc {
      Dist(ComputeOpponentTarget(p).x, ComputeOpponentTarget(q).x);
      Dist(Clamp(PredictedX(p), lo, hi), Clamp(PredictedX(q), lo, hi));
    <= { PredictionGap(p, lead);
         ClampKeepsWithin(PredictedX(p), PredictedX(q), lo, hi, Abs(p.velX) * Abs(p.leadSeconds - lead)); }
      Abs(p.velX) * Abs(p.leadSeconds - lead);
    }
  }

  /** Clamping two values into the same bounds, ordered or not, keeps them
      within any distance they were already within. */
  lemma ClampKeepsWithin(u: real, w: real, a: real, b: real, d: real)
    requires Dist(u, w) <= d
    ensures Dist(Clamp(u, a, b), Clamp(w, a, b)) <= d
  {
    if a <= b {
      ClampNonExpansive(u, w, a, b);
    }
  }

  /** Changing only the lead time moves the predicted x by `|velX|` times the change. */
  lemma PredictionGap(p: AITargetParams, lead: real)
    ensures Dist(PredictedX(p), PredictedX(p.(leadSeconds := lead)))
      == Abs(p.velX) * Abs(p.leadSeconds - lead)
  {
    LeadDifference(p.puckX, p.velX, p.leadSeconds, lead);
    AbsOfProduct(p.velX, p.leadSeconds - lead);
  }

  /** Two predictions from the same x and velocity over lead times `s` and `t`
      lie `|v * (s - t)|` apart. */
  lemma LeadDifference(x: real, v: real, s: real, t: real)
    ensures Dist(x + v * s, x + v * t) == Abs(v * (s - t))
  {
    assert (x + v * s) - (x + v * t) == v * (s - t);
  }

  lemma AbsOfProduct(x: real, y: real)
    ensures Abs(x * y) == Abs(x) * Abs(y)
  {
    if x < 0.0 && y < 0.0 {
      assert x * y == (-x) * (-y);
    } else if x < 0.0 {
      assert -(x * y) == (-x) * y;
    } else if y < 0.0 {
      assert -(x * y) == x * (-y);
    }
  }

  /** Every x in the paddle's reach is the aim for some puck x (all else equal),
      so the x-bounds of ComputeOpponentTarget are tight. */
  lemma TargetXCoversReach(p: AITargetParams, x: real)
    requires MinTargetX(p) <= x <= MaxTargetX(p)
    ensures exists puckX: real :: ComputeOpponentTarget(p.(puckX := puckX)).x == x
  {
    var puckX := x - p.velX * p.leadSeconds;
    assert PredictedX(p.(puckX := puckX)) == x;
    assert ComputeOpponentTarget(p.(puckX := puckX)).x == x;
  }

  /** For a paddle of positive radius, every y in the tracking range is the aim
      for some deep puck y (all else equal), so the y-bounds are tight too. */
  lemma TargetYCoversTrackingRange(p: AITargetParams, y: real)
    requires 0.0 < p.paddleRadius && MinTrackY(p) <= y <= MaxTrackY(p)
    ensures exists puckY: real :: PuckIsDeep(p.(puckY := puckY)) && ComputeOpponentTarget(p.(puckY := puckY)).y == y
  {
    assert PuckIsDeep(p.(puckY := y));
    assert ComputeOpponentTarget(p.(puckY := y)).y == y;
  }

  /** The target does not depend on the puck's vertical velocity. */
  lemma TargetIgnoresVelY(p: AITargetParams, velY: real)
    ensures ComputeOpponentTarget(p.(velY := velY)) == ComputeOpponentTarget(p)
  {
  }

  /** The target x is a function of the puck's x, its x-velocity, the lead time,
      the paddle radius and the play rectangle's horizontal extent alone. */
  lemma TargetXDependsOnlyOnHorizontal(p: AITargetParams, q: AITargetParams)
    requires p.puckX == q.puckX && p.velX == q.velX && p.leadSeconds == q.leadSeconds
    requires p.paddleRadius == q.paddleRadius
    requires p.geom.playX == q.geom.playX && p.geom.playWidth == q.geom.playWidth
    ensures ComputeOpponentTarget(p).x == ComputeOpponentTarget(q).x
  {
  }

  /** The target y is a function of the puck's y, the paddle radius, the centre
      line and the top of the opponent zone alone. */
  lemma TargetYDependsOnlyOnVertical(p: AITargetParams, q: AITargetParams)
    requires p.puckY == q.puckY && p.paddleRadius == q.paddleRadius
    requires p.geom.midY == q.geom.midY && p.geom.opponentZone.y == q.geom.opponentZone.y
    ensures ComputeOpponentTarget(p).y == ComputeOpponentTarget(q).y
  {
  }

  /** On a field built by ComputeFieldGeometry, a deep puck is tracked at least
      10 units plus one radius below the top edge of the play rectangle. */
  lemma {:induction false} DeepTargetBelowTopEdge(p: AITargetParams, canvasWidth: real, canvasHeight: real)
    requires p.geom == ComputeFieldGeometry(canvasWidth, canvasHeight)
    requires PuckIsDeep(p)
    ensures p.geom.playY + p.paddleRadius + 10.0 <= ComputeOpponentTarget(p).y
  {
    assert ZonesPartition(p.geom);
  }
}
