# bevy-balls: the player systems

A Dafny model of the two per-frame player systems of a small Bevy arcade game,
written in Rust (`src/main.rs`), and the properties they guarantee.

- `handle_movement` reads the four arrow keys. It starts a direction at zero
  and adds the unit axis vector of each held key, in the order Left, Right, Up,
  Down. It normalises that direction, or leaves it at zero, scales it by
  `PLAYER_SPEED` (500) and by the frame time, and adds the result to the player's
  translation in place.
- `confine_player` runs four guarded assignments in sequence. They raise `x` to
  `HALF` (32, half of `PLAYER_SIZE`) when it is at or below it, lower `x` to
  `width - HALF` when it is at or above that, and treat `y` the same way against
  the window height.
- Both systems return without doing anything unless the player query holds
  exactly one player.
- `spawn_player` places the player at the centre of the window.

The model has two modules:

- `Vectors` (vectors.dfy) has the part of the vector library the systems use:
  real vectors for translations, whole-number vectors for the direction before
  it is normalised, the unit axis constants, and `normalize_or_zero`.
- `BallGame` (game.dfy) models `src/main.rs`. Its constants are
  `PlayerSpeed`, `PlayerSize` and `Half`, and keys are a datatype. A class
  `Transform` has a mutable `translation`, which the methods `HandleMovement` and
  `ConfinePlayer` update in place. Each system takes the query result as a
  sequence of player transforms, with a `modifies` clause on it. Both methods are
  proved against specification functions: `Displacement` and `Confined`. The
  properties are proved about those functions. The direction accumulation is the
  method `PollDirection`, proved equal to the axis-by-axis `KeyDirection`. A lemma
  shows that `KeyDirection` is the sum of the unit steps of the held keys, taken
  in polling order.

Two points about the code are easy to misread:

- `confine_player` is not a min/max clamp. Its checks run one after another.
  In a window at least 64 units wide the result is a clamp (`ConfinedCoord`
  proves it). In a narrower window the later check wins, and the coordinate ends
  at `extent - 32` whatever it was before.
- In single precision `normalize_or_zero` does not give exactly unit length on a
  diagonal. The component comes out at 0.70710677, so a diagonal step's squared
  length is slightly below 1. The model uses that value, and `NormalizedLength`
  states the exact bounds.

## Model

| member | source | states |
|---|---|---|
| `Vectors.NormalizeOrZero` | src/main.rs:67-68 | the zero direction stays zero and nothing else becomes zero; each component keeps the sign of the key direction; the result is parallel to the input and stays in the plane; an axis-aligned step is unchanged |
| `Vectors.NormalizedLength` | src/main.rs:68 | a normalised non-zero step has squared length exactly 1 along an axis, and between 1 - 2^-24 and 1 on a diagonal; zero stays zero |
| `BallGame.PollDirection` | src/main.rs:49-65 | adding the unit vector of each held key to a zero direction, in the order Left, Right, Up, Down, gives the axis-by-axis direction `KeyDirection` |
| `BallGame.KeyDirection` | src/main.rs:49-65 | every component of the direction before normalisation is -1, 0 or 1, and z is 0; holding Left and Right together cancels x, and holding Up and Down together cancels y |
| `BallGame.PressedIn` | src/main.rs:51-65 | the keys that are both polled and held occur exactly as often as they occur in the polling order, and keys that are not held do not occur |
| `BallGame.SumOfSteps` | src/main.rs:49-65 | adding unit steps one after another from zero gives x = (number of Right) - (number of Left), y = (number of Up) - (number of Down), z = 0 |
| `BallGame.KeyDirectionIsSumOfSteps` | src/main.rs:49-65 | the axis-by-axis direction equals the sum of the unit steps of the held keys, taken in polling order |
| `BallGame.Displacement` | src/main.rs:67-68 | a frame's movement never changes z, and a frame of zero length moves nothing |
| `BallGame.StillWhenBalanced` | src/main.rs:49-68 | with no key held, or only opposing pairs held, the direction is zero and the player does not move, for any frame time |
| `BallGame.DisplacementSign` | src/main.rs:51-68 | in a frame of positive length, each coordinate moves with the sign of the net key press on its axis (positive, negative or not at all), and z does not move |
| `BallGame.DisplacementLength` | src/main.rs:38-68 | with a net direction held, the player's squared distance per frame is at most `(500 * dt)^2` and within a factor 1 - 2^-24 of it; without one it does not move |
| `BallGame.AxisDisplacementLength` | src/main.rs:38-68 | with a net direction along one axis held, the player's squared distance per frame is exactly `(500 * dt)^2` |
| `BallGame.HandleMovement` | src/main.rs:40-69 | with exactly one player, its translation becomes the old translation plus `Displacement`; otherwise no player changes |
| `BallGame.ConfinedCoord` | src/main.rs:83-98 | in a window at least 64 wide, the coordinate is clamped to [32, extent - 32]; in a narrower window it ends at extent - 32, whatever it was |
| `BallGame.Confined` | src/main.rs:85-98 | z is unchanged; in a window at least 64 by 64 the result lies within bounds; a position already in bounds is unchanged; a window narrower than 64 on an axis pins that coordinate to extent - 32 |
| `BallGame.ConfineIdempotent` | src/main.rs:85-98 | confining twice gives the same result as confining once |
| `BallGame.ConfineAxesIndependent` | src/main.rs:85-98 | the new x depends only on the old x, the new y only on the old y, and z is never touched |
| `BallGame.ConfinePlayer` | src/main.rs:73-100 | with exactly one player, its translation becomes `Confined` of the old one; otherwise no player changes |
| `BallGame.SpawnPlayer` | src/main.rs:16-26 | the new player is a fresh transform at (width / 2, height / 2, 0) |
| `BallGame.SpawnInsideBounds` | src/main.rs:21 | in a window at least 64 by 64 the spawn point is within the confinement bounds, so confinement leaves it unchanged |

## Left out

- `main` in `src/main.rs` and in `src/queries.rs` only register the systems with the engine. They are not modelled.
- `spawn_cam` and the sprite texture loading in `spawn_player` are camera and asset I/O. They are not modelled.
- `src/queries.rs` prints the living `Person` entities through an engine query. It is output only and is not part of this model.
- Enemies, stars, collisions, sounds and random spawning do not appear in `src/main.rs`, and they are not part of this model.
- Keyboard, time and window resources become plain parameters: the set of held keys, the frame time `dt` and a `Window` value.
- `unwrap()` panics when the window query does not hold exactly one window. The model takes the window as a value, so it does not model that panic.
- Bevy does not order the two `Update` systems against each other. The model gives each system its own method and does not fix an order for a frame.
- `Transform`'s rotation and scale are never touched by these systems, so the model's `Transform` holds only the translation.
- The player query is a sequence of transforms. The model does not consider two entries that alias one transform, because the systems act only when there is exactly one entry.
- Single-precision arithmetic is modelled over the reals: no rounding of `500 * direction * dt` or of the additions, and no NaN or infinity. The one exception is the diagonal component of `normalize_or_zero`, taken at its single-precision value.
- `BallGame.Displacement` scales by `PlayerSpeed * dt` in one step, where the code scales by the speed and then by `dt`. Over the reals the two are equal.
- `Vectors.NormalizeOrZero` is defined only for planar steps, whose components are -1, 0 or 1 with z = 0. Those are the only directions the arrow keys can produce. General normalisation needs square roots, which the model does not define.
