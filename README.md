# Air-hockey rules layer in Dafny

This project models the deterministic rules layer of a two-paddle air-hockey
game: the pure functions that the game's scenes call to lay out the field,
decide whether the puck has scored, and choose where the computer-controlled
paddle aims. All quantities are exact reals. JavaScript's `Math.round` is
`(x + 0.5).Floor`, because it rounds halves toward +infinity. `Math.min` and
`Math.max` are plain conditionals.

- `jsmath.dfy`, module `JsMath`: `Math.round`, `Math.min` and `Math.max`.
- `geometry.dfy`, module `Geometry`: the `FieldGeometry` record and
  `computeFieldGeometry`. The layout is an inset play rectangle with a margin
  of 5% of the shorter canvas side, rounded. The corner radius is 6% of the
  shorter play side, rounded. The centre line is `midY`. Two goal mouths, each
  35% of the play width (rounded), are centred on the top and bottom edges.
  The top zone (opponent) and bottom zone (player) meet at `midY`.
- `rules.dfy`, module `Rules`: `detectGoal`. A goal counts only when the puck's
  x is inside the top mouth's x-range. Reaching the top line credits the
  player and reaching the bottom line credits the opponent. This attribution
  is the game's convention and is kept as it is. The top line is tested
  first.
- `ai.dfy`, module `Ai`: `computeOpponentTarget` and its private `clamp`. The
  target x is the puck's x extrapolated by `leadSeconds`, clamped to the
  paddle's reach. The target y is the defensive line `midY - 120`. When the
  puck is more than 40 units above the centre line, the target y is instead
  the puck's own y, clamped.
- `scenarios.dfy`, module `Scenarios`: the repository's unit-test scenarios as
  lemmas about concrete inputs.

The canvas size is a real number and `ComputeFieldGeometry` has no
precondition, like the original. Positivity of the canvas appears only as a
hypothesis of the lemmas that need it. The same holds for `leadSeconds` and
the radii: the code has no guards on them, so the model has none either.

The geometry unit test (`src/game/__tests__/geometry.test.ts:13`) expects the
goal width to be 90% of the play width, while the code uses
35%. The model follows the code. `Scenarios.GoalWidthIsNotNinetyPercent`
shows that the two values differ on the test's own 800 x 1600 canvas (252
against 648), so that assertion of the test cannot hold.

## Model

| member | source | states |
|---|---|---|
| `JsMath.Round` | src/game/geometry.ts:19 | `Math.round`: the result is the integer within (x - 1/2, x + 1/2], so halves go up |
| `JsMath.Min` | src/game/geometry.ts:19 | `Math.min`: the result is one of the two arguments and is no larger than either |
| `JsMath.Max` | src/game/ai.ts:35 | `Math.max`: the result is one of the two arguments and is no smaller than either |
| `Geometry.ComputeFieldGeometry` | src/game/geometry.ts:15-51 | `playX == playY ==` margin; `playWidth == w - 2*margin` and `playHeight == h - 2*margin`; corner radius and goal width are whole numbers within 1/2 of 6% of the shorter play side and of 35% of the play width; both mouths are exactly `goalWidth` wide, share `x1`/`x2`, are horizontally centred and lie on `playY` and `playY + playHeight`; the zones are full width, half height, and partition the play rectangle at `midY = playY + playHeight/2` |
| `Geometry.FieldGeometryBounds` | src/game/geometry.ts:19-36 | for every positive canvas size: margin >= 0; play width and height > 0 and inside the canvas; `0 <= goalWidth < playWidth`; `playX <= x1 <= x2 <= playX + playWidth`; `midY` strictly between the top and bottom edges; `0 <= cornerRadius <=` half the shorter play side |
| `Geometry.MarginBounds` | src/game/geometry.ts:19-23 | for a positive canvas, the margin is >= 0 and twice the margin is less than the shorter side |
| `Geometry.GoalWidthFits` | src/game/geometry.ts:28 | 35% of a non-negative width, rounded, lies between 0 and that width, strictly below a positive width |
| `Geometry.CornerRadiusFits` | src/game/geometry.ts:24 | 6% of a non-negative extent, rounded, lies between 0 and half that extent |
| `Rules.DetectGoal` | src/game/rules.ts:5-19 | non-null only inside `[topGoal.x1, topGoal.x2]`; `Player` iff inside the mouth and `puckY <= topGoal.y + r`; `Opponent` iff inside the mouth, not at the top line, and `puckY >= playY + playHeight - r`; so the top line takes precedence when both hold |
| `Rules.ClearOfBothLinesIsNoGoal` | src/game/rules.ts:16-18 | a puck with `topLine + r < puckY < bottomLine - r` is no goal, whatever its x |
| `Rules.DetectGoalMatchesMouths` | src/game/rules.ts:11-17 | on a computed field, reading only the top mouth's x-range and the play rectangle's bottom edge is the same as testing the top mouth and then the bottom mouth as segments of their own |
| `Rules.OpponentGoalOnTallField` | src/game/rules.ts:16-17 | when the play height exceeds the puck's diameter, `Opponent` iff the puck crossed the bottom mouth |
| `Rules.GoalAtMouthCentre` | src/game/rules.ts:14-17 | for every positive canvas size, at the mouth's centre x, `topGoal.y - 1 + r` scores `Player`; `bottomLine + 1 - r` scores `Opponent` whenever `2r < playHeight + 1` |
| `Rules.DetectGoalMonotone` | src/game/rules.ts:16-17 | a puck further past the top line still scores for the player; a puck further past the bottom line still scores for the opponent |
| `Ai.Clamp` | src/game/ai.ts:34-36 | result >= a; when `a <= b` it is at most b, and equals v for v in [a, b]; it is a when v <= a or b <= a; it is b when `a <= b <= v` |
| `Ai.ClampIdempotent` | src/game/ai.ts:34-36 | clamping twice into the same ordered interval equals clamping once |
| `Ai.ClampIsNearest` | src/game/ai.ts:34-36 | in an ordered interval, the clamped value is the interval's point nearest to v |
| `Ai.ClampNonExpansive` | src/game/ai.ts:34-36 | clamping into an ordered interval never moves two values further apart |
| `Ai.ClampKeepsWithin` | src/game/ai.ts:34-36 | clamping two values into the same bounds, ordered or not, keeps them within any distance they were already within |
| `Ai.ComputeOpponentTarget` | src/game/ai.ts:13-32 | x is `puckX + velX*leadSeconds` when that lies in `[playX + r, playX + playWidth - r]`, the lower bound at or below it, the upper bound at or above it, and the lower bound when the range is out of order (so x always lies in an ordered range); y is `midY - 120` unless `puckY < midY - 40`; otherwise y is `puckY` inside `[opponentZone.y + r + 10, midY - r - 40]`, the floor at or below it, the ceiling at or above it, and the floor when the bounds are out of order |
| `Ai.DeepTargetStaysInOpponentHalf` | src/game/ai.ts:21-29 | with a non-negative radius and ordered bounds, a deep puck's target y lies in `[opponentZone.y + r + 10, midY)` |
| `Ai.TargetXLeadSensitivity` | src/game/ai.ts:14-19 | changing only `leadSeconds` by d moves the aim x by at most abs(`velX`) times abs(d) |
| `Ai.PredictionGap` | src/game/ai.ts:14 | changing only `leadSeconds` moves the predicted x by exactly abs(`velX`) times the change |
| `Ai.TargetXCoversReach` | src/game/ai.ts:14-19 | every x in `[playX + r, playX + playWidth - r]` is the aim x for some puck x, the other inputs unchanged, so the reach bounds are tight |
| `Ai.TargetYCoversTrackingRange` | src/game/ai.ts:21-29 | for a positive radius, every y in `[opponentZone.y + r + 10, midY - r - 40]` is the aim y for some deep puck y, so the tracking bounds are tight |
| `Ai.TargetIgnoresVelY` | src/game/ai.ts:13 | changing only `velY` leaves the target unchanged |
| `Ai.TargetXDependsOnlyOnHorizontal` | src/game/ai.ts:14-19 | x depends only on `puckX`, `velX`, `leadSeconds`, `r`, `playX` and `playWidth` |
| `Ai.TargetYDependsOnlyOnVertical` | src/game/ai.ts:21-29 | y depends only on `puckY`, `r`, `midY` and `opponentZone.y` |
| `Ai.DeepTargetBelowTopEdge` | src/game/ai.ts:23-29 | on a computed field, a deep puck is tracked at least `r + 10` below the play rectangle's top edge |
| `Scenarios.Field800x1600` | src/game/__tests__/geometry.test.ts:5-17 | the whole layout of the 800 x 1600 canvas: margin 40, play area 720 x 1520, mouth 274..526, `midY` 800 |
| `Scenarios.GoalWidthIsNotNinetyPercent` | src/game/__tests__/geometry.test.ts:13 | the computed goal width (252) differs from 90% of the play width rounded (648) |
| `Scenarios.Field600x1200` | src/game/__tests__/geometry.test.ts:19-25 | the whole layout of the 600 x 1200 canvas; the zones meet at y = 600 and are 570 high each |
| `Scenarios.GoalScenarios` | src/game/__tests__/rules.test.ts:6-25 | one unit past the top line scores `Player`, one unit past the bottom line scores `Opponent`, and x left of the mouth gives no goal |
| `Scenarios.TargetScenarios` | src/game/__tests__/ai.test.ts:5-29 | lead aim x = 160 for the leading test; defensive line y = 680; a puck near the top is tracked at the floor y = 90 |

## Left out

- Scenes, rendering, texture generation, pointer input, the event bus and the application bootstrap (`src/scenes/*`, `src/main.ts`, `vite.config.ts`). They are engine integration around a third-party game framework whose code is not part of this model.
- Physics and collision response. These are delegated to the engine's arcade colliders (`src/scenes/GameScene.ts:44-45`), so there is no rule code to model.
- Entity creation (`src/game/entities.ts`) and sound effects (`src/game/sfx.ts`). These are thin wrappers over engine and audio APIs.
- Friction, stuck-puck recovery, impulse transfer, speed clamping, paddle smoothing and the match state machine (countdown, timer, pause, scoring, restart). None of them is implemented in the code, so none is modelled.
- Input guards. The code has no guards against non-positive canvas sizes or a negative lead time and accepts any numbers, and the model follows the code.
- IEEE-754 doubles. Values are exact reals, so a rounding at an exact half, or a product such as `velX * leadSeconds`, may differ from the double result in its last bits. NaN and infinities are not modelled.
