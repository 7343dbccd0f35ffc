# Scrolling pipes of a Flappy-Bird-style game

This project models the obstacle pipes of `flappy-rust` in Dafny. A `Pipe` is a
rectangle with a horizontal position `x`, a height `h`, a width `w` and an
`inverted` flag. `Pipe::new` spawns a pipe at the right edge of the screen, with a
random height and a random orientation. The `Pipes` collection holds an ordered
vector of pipes. Each frame, `Pipes::update` moves every pipe left by the speed.
A pipe whose right edge has left the screen is replaced, in the same slot, by a
freshly spawned pipe. `Pipes::restart` and `Pipes::new` start over with exactly one
fresh pipe. `Pipe::paint` computes a rectangle and a vertical flip: an upright
pipe stands on the bottom of the 600-pixel-high screen, and an inverted pipe
hangs from the top.

Files:

- `pipe.dfy` (module `SinglePipe`) holds the `Pipe` struct, `Pipe::new` as
  `Spawn`, and the rectangle of `Pipe::paint` as `Place`.
- `pipes.dfy` (module `PipeCollection`) holds the `Pipes` struct as a class with a
  `seq<Pipe>` field. It also holds the per-slot step, the specification function
  `Updated` for the vector that `update` builds, and the lemmas about it.

Randomness is a parameter. Each spawn takes a `Draw(orientation, height)` with
`orientation` in `[0, 10)` and `height` in `[0, 300)`. These are the two
`gen_range` calls, in the order `Pipe::new` makes them. `Update` takes one draw
per slot, and a slot uses its draw only when its pipe expires. The draws are
independent, so this matches a stream consumed only by expiring slots.

The fields are `i32`, modelled as a subset type of `int`. The class invariant
`Valid` says that the collection is non-empty and every pipe is `Live`: width 50,
height in `[100, 400)`, `x <= 800` and `x + w > 0`. Under this invariant, neither
the move nor the paint arithmetic can overflow (`LiveIsMovable`). The speed is the
float `4.0`, and `self.speed as i32` truncates it to the integer constant `Speed = 4`.

## Model

| member | source | states |
|---|---|---|
| `SinglePipe.Spawn` | src/pipes.rs:79-93 | A spawned pipe has x == 800, w == 50 and 100 <= h < 400, and it is inverted exactly when the orientation draw is greater than 5 |
| `SinglePipe.SpawnCoversShape` | src/pipes.rs:87-92 | The spawn invariants are exact: every pipe that meets them is returned by `Pipe::new` for some in-range pair of draws |
| `SinglePipe.InvertedOdds` | src/pipes.rs:80-85 | Exactly 4 of the 10 orientation draws give an inverted pipe, so the odds are 40%, not 50% |
| `SinglePipe.HeightsCoverRange` | src/pipes.rs:89 | The heights reachable from the height draw are exactly [100, 400), and each comes from one draw only |
| `SinglePipe.AsU32` | src/pipes.rs:96 | The `as u32` cast keeps a non-negative `i32` unchanged and adds 2^32 to a negative one |
| `SinglePipe.Place` | src/pipes.rs:95-102 | The paint rectangle has the pipe's x, its width and its height (when non-negative), and the flip equals `inverted`. An upright pipe has y == 600 - h; an inverted pipe has y == 0 |
| `SinglePipe.PlacementAnchored` | src/pipes.rs:96-102 | A pipe of the game's shape is drawn within the screen height. It is flipped exactly when it hangs from the top edge, and unflipped exactly when it stands on the bottom edge |
| `PipeCollection.LiveIsMovable` | src/pipes.rs:50-51 | A live pipe's move, edge test and paint arithmetic stay within `i32` |
| `PipeCollection.Step` | src/pipes.rs:49-56 | After one step, a slot's pipe has its right edge on screen. It is either the old pipe moved left by 4, or a freshly spawned pipe |
| `PipeCollection.Updated` | src/pipes.rs:47-59 | The rebuilt vector has as many pipes as the old one, and every one has x + w > 0 |
| `PipeCollection.UpdatedAt` | src/pipes.rs:48-58 | Order is preserved: slot i of the new vector is the step applied to slot i of the old one |
| `PipeCollection.UpdatedSurvivor` | src/pipes.rs:50-52 | A pipe with x - 4 + w > 0 stays in its slot with x decreased by exactly 4, and h, w and inverted unchanged |
| `PipeCollection.UpdatedExpired` | src/pipes.rs:51-56 | A pipe with x - 4 + w <= 0 is replaced in the same slot by a pipe spawned from that slot's draws, which meets the spawn invariants |
| `PipeCollection.UpdatedKeepsShape` | src/pipes.rs:51-56 | If every pipe has w == 50 and h in [100, 400) before the update, every pipe still has them afterwards |
| `PipeCollection.UpdatedKeepsLive` | src/pipes.rs:47-59 | The update keeps every pipe live, so the class invariant survives every frame |
| `PipeCollection.Advanced` | src/pipes.rs:47-59 | A slot that starts live stays live over any number of updates |
| `PipeCollection.AdvancedSurvivor` | src/pipes.rs:50-52 | Over n updates during which its right edge stays on screen, a pipe moves left by exactly 4n and nothing else about it changes |
| `PipeCollection.SpawnLifetime` | src/pipes.rs:50-52 | A spawned pipe survives 212 updates, scrolling from x = 800 down to x = -48 |
| `PipeCollection.SpawnExpires` | src/pipes.rs:51-56 | The 213th update replaces it with a fresh pipe at x = 800: a full reset, not a continuation |
| `PipeCollection.Pipes.constructor` | src/pipes.rs:23-33 | Construction starts with exactly one freshly spawned pipe, and the invariant holds |
| `PipeCollection.Pipes.Restart` | src/pipes.rs:35-37 | Whatever the prior state, restart leaves exactly one freshly spawned pipe, and the invariant holds |
| `PipeCollection.Pipes.Update` | src/pipes.rs:47-59 | The new vector is `Updated` of the old one. Its length is unchanged (so it stays 1 from construction on), and the invariant is kept |
| `PipeCollection.Pipes.Paint` | src/pipes.rs:61-66 | Every pipe is placed, in vector order, by the rectangle computation of `Pipe::paint` |

## Left out

- Loading the texture from `res/imgs/pipe.png` and the abort when loading fails (src/pipes.rs:25-26). This is file I/O through SDL, and the `texture` field is not modelled.
- The `copy_ex` draw call and its `expect` abort (src/pipes.rs:104-106). This is a foreign SDL call. Only the rectangle and flip passed to it are modelled. The clamping that SDL's `Rect::new` may apply is not part of this model.
- `Pipes::touch` and `Pipe::touch` (src/pipes.rs:39-43, 109-111). They only forward to `Bird::touch`, and `bird.rs` is not part of this model, so the collision geometry is not modelled.
- `thread_rng()` and the distribution of its draws. The draws are parameters, so the 40% odds are stated as a count of draws (`InvertedOdds`), not as a probability.
- The `f64` type of `speed`. Only its truncation to the integer 4 is modelled.
- The `Displayable` trait dispatch and the `Renderer`/`Texture` types.
- PipeCollection.Step: requires that moving the pipe does not overflow `i32`. On overflow, Rust panics in a debug build and wraps in a release build, and neither is modelled. Every pipe the collection holds is live, so this never arises there (`LiveIsMovable`).
- PipeCollection.Pipes.Update: the loop moves each pipe in place in the old vector before copying it. Because that vector is replaced at the end, the model moves a copy instead. The result is the same.
