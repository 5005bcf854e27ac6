# 3d-sequencer: player movement and proximity music, in Dafny

The scene is a first-person walk through a three.js world. Tone.js music changes
as the player comes near one of three spheres (the landmarks). This project
models the part of it that is sequential logic:

- `helpers.dfy`, module `Helpers`: the arithmetic helpers of `src/helpers.js`.
  These are `lerp`, the linear range remap `map` and the Euclidean distance
  `getDistance`, all over mathematical reals.
- `game.dfy`, module `Game`: the keyboard handlers and the per-frame `update()`
  of `src/index.js`.
  - The keyboard handlers set and clear four movement flags. Space gives a jump
    impulse of 350 when a jump is allowed.
  - The frame update damps and accelerates the horizontal velocity and applies
    a gravity of 9.8 × 100. A player standing on an object stops falling. The
    height is clamped to the floor at 10, which allows a jump again.
  - Then the landmark rule runs. It is an if / else-if chain, so only the first
    of landmarks 1, 2, 3 within distance 50 retunes the music. That landmark
    sets the sequence's playback rate (the distance remapped from [20, 50] onto
    the landmark's rate range), the delay time, the delay feedback and the
    synth's harmonicity. If the player stands on it, the feedback becomes 0 and
    the note list is replaced by the landmark's own tune.

The pure functions of `Game` (`OnKeyDown`, `OnKeyUp`, `Move`, `Retune`, `Step`)
are the specification. They work on a `State` value that holds the flags, the
body (height, velocity, jump allowed) and the audio parameters. Class
`Game.Player` keeps the same state in mutable fields, as the scene keeps its
module-level variables. Each method of the class is proved to change the fields
exactly as the matching function says. The lemmas state what the source
promises about those functions.

Three things are inputs rather than computed:

- Whether the downward ray hits a landmark (`onObject`). The ray is cast at
  the start of the frame, before the player moves (`src/index.js:360-365`).
- The three distances to the landmarks (`d1`, `d2`, `d3`). They are measured
  after this frame's horizontal move and floor clamp, because the position
  they are read from is the one `src/index.js:391-399` has just moved.
- The length of the raw movement direction (`len`). It is tied to the held
  keys by `IsLength`.

The distance itself is a relation, `Helpers.IsDistance(p, q, d)`: `d` is
non-negative and `d * d` is the squared distance. Square roots have no
definition here, so no function computes it.

## Notes on the code

- `map` clamps nothing. Closer than 20 the rate falls below the range's low
  end, and for landmark 3 at distance 10 it is negative (`Game.RateBelowNear`).
- `src/index.js:230` sets `mesh2.position` a second time where `mesh3` was
  evidently meant. So landmark 2 ends at (250, 30, -250) and landmark 3 stays at
  the origin. The model keeps these positions (`Game.Mesh1Pos`, `Game.Mesh2Pos`,
  `Game.Mesh3Pos`, which `Game.PlaceLandmarks` is proved to produce). All
  three landmarks are at least 250 apart along x. So no point is within 50 of
  two of them, and the priority order of the chain never has to decide
  (`Game.AtMostOneLandmarkInRange`).
- `makeKalimba()` is called three times (`src/index.js:89-92`). The synth whose
  harmonicity is written, the delay whose time and feedback are written, and the
  sequence whose rate and notes are written therefore belong to three different
  instrument chains. The model treats them as plain fields, as the update writes them.

## Model

| member | source | states |
|---|---|---|
| `Helpers.Lerp` | src/helpers.js:19-21 | lerp gives `start` at 0 and `end` at 1, and gives that value when `start == end` |
| `Helpers.LerpCoversFraction` | src/helpers.js:19-21 | lerp moves the fraction `amt` of the way from `start` to `end` |
| `Helpers.Map` | src/helpers.js:23-25 | map sends `inMin` to `outMin` and `inMax` to `outMax`; an empty input range is an unguarded division by zero, so it is excluded |
| `Helpers.MapAffine` | src/helpers.js:23-25 | map is affine in `num` with slope (outMax − outMin) / (inMax − inMin) |
| `Helpers.MapIdentity` | src/helpers.js:23-25 | mapping a range onto itself is the identity |
| `Helpers.MapRoundTrip` | src/helpers.js:23-25 | mapping back with the ranges swapped recovers the input |
| `Helpers.MapMonotone` | src/helpers.js:23-25 | with increasing ranges, map never decreases as `num` grows |
| `Helpers.MapWithin` | src/helpers.js:23-25 | an input in [inMin, inMax) maps into [outMin, outMax) |
| `Helpers.MapUnclamped` | src/helpers.js:23-25 | inputs below or above the input range map below or above the output range |
| `Helpers.SquaredDistance` | src/helpers.js:27-31 | the sum of squared coordinate differences is non-negative |
| `Helpers.SqrtUnique` | src/helpers.js:31 | a number has at most one non-negative square root, so getDistance is determined by the two positions |
| `Helpers.DistanceProperties` | src/helpers.js:27-32 | getDistance is non-negative, symmetric, and 0 exactly when the positions are equal |
| `Helpers.DistanceBelow` | src/helpers.js:27-32 | a distance is below a radius exactly when the squared distance is below the squared radius |
| `Helpers.CoordinatesWithin` | src/helpers.js:27-32 | within a radius of a point, every coordinate difference is within that radius |
| `Game.KeyDownSetsOnlyItsFlag` | src/index.js:286-313 | a key press raises exactly the flag its code maps to; no other flag and no audio changes; only Space touches the body; unmapped codes change nothing |
| `Game.KeyUpClearsOnlyItsFlag` | src/index.js:315-337 | a key release lowers exactly the matching flag; Space and unmapped codes change nothing |
| `Game.Jump` | src/index.js:308-311 | Space adds exactly 350 to the vertical velocity when a jump is allowed and nothing otherwise, always leaves jumping forbidden, and changes nothing else: height, horizontal velocity, flags and audio are kept |
| `Game.KeyDownIdempotent` | src/index.js:286-313 | a repeated key press changes nothing more: a second Space before landing adds no impulse |
| `Game.PressThenRelease` | src/index.js:286-337 | releasing a key after pressing it leaves the flags as releasing it alone |
| `Game.NormalizedIsUnit` | src/index.js:377-379 | the normalised direction has length 1 when the held keys give a non-zero direction, and 0 when none is held or opposite keys cancel |
| `Game.AccelerationMagnitude` | src/index.js:377-382 | the acceleration from the held keys has magnitude exactly 400 × delta when they give a direction, so a diagonal is no faster than a straight line, and 0 when none is held or opposite keys cancel |
| `Game.DampShrinks` | src/index.js:372-373 | damping that removes at most twice a velocity component never increases its size |
| `Game.DampingSlowsDown` | src/index.js:372-373 | with no key held and a frame of at most 0.2 s, both horizontal velocity components do not grow |
| `Game.DampFlipsAtFifth` | src/index.js:372-373 | at a frame of exactly 0.2 s with no key held, vx keeps its size and flips its sign, so it never decays |
| `Game.DampAmplifiesLongFrame` | src/index.js:372-373 | a one-second frame with no key held turns a velocity of 1 into −9 along x and into a size above 1 along z: the damping overshoots on long frames |
| `Game.FallVelocity` | src/index.js:375-389 | standing on an object leaves a non-negative vertical velocity, and that rule never makes the fall faster than gravity alone |
| `Game.Move` | src/index.js:372-401 | after the movement part of a frame the player is never below the floor at 10 |
| `Game.FloorClamp` | src/index.js:394-401 | when the fall would end below 10, the height becomes 10, the vertical velocity 0 and a jump is allowed; otherwise the fall is kept; a jump is allowed exactly when it was, or the player stands on an object, or the clamp fired |
| `Game.StandingOnObject` | src/index.js:385-394 | standing on an object allows a jump, leaves a non-negative vertical velocity and never lowers the player |
| `Game.RestingOnFloor` | src/index.js:375-401 | a player at rest on the floor stays on the floor at rest, able to jump |
| `Game.FirstInRange` | src/index.js:403-443 | the search returns the first landmark index within 50, with every earlier one out of range, or none when all are out of range |
| `Game.RetuneIsFirstMatch` | src/index.js:403-443 | the if / else-if chain equals the first-match search over the landmark table: at most one landmark acts, the first in priority order within range |
| `Game.OutOfRangeKeepsMusic` | src/index.js:403-443 | with no landmark within 50, the rate, delay time, feedback, harmonicity and events are all unchanged |
| `Game.ApproachSets` | src/index.js:403-416 | the acting landmark sets the remapped rate, its delay time and harmonicity, and either its feedback with the events kept or feedback 0 with its tune |
| `Game.RateWithinRange` | src/index.js:403-437 | for each landmark and a distance in [20, 50), the rate lies in the landmark's half-open rate range, and is its low end at 20 |
| `Game.RateBelowNear` | src/index.js:432-434 | closer than 20 the rate is below the range's low end; for landmark 3 at distance 10 it is negative |
| `Game.FirstLandmarkAt35` | src/index.js:403-416 | at distance 35 from landmark 1 the rate is exactly 2, the delay a sixteenth note and the harmonicity 1; not standing on it, the feedback is 0.3 and the notes are kept; standing on it, the feedback is 0 and landmark 1's tune plays |
| `Game.OnThirdLandmark` | src/index.js:432-442 | standing on landmark 3 with the others out of range plays the single note c4 with feedback 0 |
| `Game.PlaceLandmarks` | src/index.js:183-232 | the set-up leaves the landmarks at `Mesh1Pos` (-250, 30, 0), `Mesh2Pos` (250, 30, -250) and `Mesh3Pos` (the origin) |
| `Game.NotBothInRange` | src/helpers.js:27-32 | two points 100 or more apart along x are never both within 50 of one position |
| `Game.AtMostOneLandmarkInRange` | src/index.js:403-443 | with the landmarks at the positions `PlaceLandmarks` produces, at most one is within 50 of the player |
| `Game.Step` | src/index.js:356-453 | a frame never changes the flags, and keeps a player who was on or above the floor there |
| `Game.StepLockGate` | src/index.js:359-452 | without the pointer lock a frame changes nothing; with it the player ends on or above the floor |
| `Game.Player.constructor` | src/index.js:130 | the player starts still at height 100 with no key held, jumping forbidden, and the instrument's initial settings |
| `Game.Player.KeyDown` | src/index.js:286-313 | the fields change exactly as `OnKeyDown` says, and the player stays on or above the floor |
| `Game.Player.KeyUp` | src/index.js:315-337 | the fields change exactly as `OnKeyUp` says |
| `Game.Player.Update` | src/index.js:356-453 | the fields change exactly as `Step` says, and the player stays on or above the floor |
| `Game.Player.Accelerate` | src/index.js:371-382 | the horizontal velocity becomes the damped and accelerated one |
| `Game.Player.Fall` | src/index.js:375-401 | height, vertical velocity and jump flag become those of the fall and floor clamp, never below the floor |
| `Game.Player.RetuneMusic` | src/index.js:403-443 | the audio fields change exactly as the first-match landmark rule says, and nothing else changes |

## Left out

- The horizontal position. `controls.moveRight` and `controls.moveForward` move the camera in its own facing frame. The model keeps the horizontal velocity but not x and z.
- The downward ray test (`Raycaster.intersectObjects`). Its result is the input `onObject`.
- The distance computations in the frame update. They are the inputs `d1`, `d2`, `d3`. `Game.AtMostOneLandmarkInRange` links them to the landmark positions through `Helpers.IsDistance`.
- `Math.sqrt` and the length inside `Vector3.normalize`. A square root is given by the relation `Helpers.IsSqrt`, and the length of the movement direction is the input `len`.
- Helpers.IsDistance: getDistance is stated as a relation and not computed, because a square root has no definition here.
- Floating-point behaviour. Numbers are exact reals, so `9.8 * 100.0` is exactly 980 (in doubles it is 980.0000000000001), and no rounding is modelled.
- `clock.getDelta()`. The frame time is the input `delta`.
- Scene, camera, lights, renderer, grid, wall and window-resize code. This is declarative set-up with no logic. Only the landmark positions are kept.
- Asynchronous audio loading and `PositionalAudio` configuration, and `promisifyLoader` and `params` in `src/helpers.js`. They are promise and callback I/O.
- The pointer-lock lifecycle, the blocker and instructions elements, `Tone.Transport.start`/`stop`, the dat.GUI/anime panel, Stats and the debug globals. They are UI and foreign calls.
- `src/instruments.js` (`makeKalimba`, `deep_dispose`). The synth, the delay and the sequence are plain fields. Their starting values (harmonicity 8, delay time "8n", feedback 0.3, the starting pattern) come from there. The starting playback rate of 1 is the sequencer library's default.
- Game.DampingSlowsDown: proves only that speed does not grow with no key held, for frames of at most 0.2 s, and not convergence to zero. The bound is the code's, not the proof's. Each frame multiplies `vx` by 1 − 10·delta and `vz` by 1 − 5·delta. So `vx` shrinks only for 0 < delta < 0.2 and `vz` only for 0 < delta < 0.4. At exactly 0.2 s, `vx` flips sign every frame without decaying (`Game.DampFlipsAtFifth`). A longer frame makes `vx` grow, and a frame longer than 0.4 s makes `vz` grow (`Game.DampAmplifiesLongFrame`).
