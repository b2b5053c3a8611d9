# Sprite animation and character state machine

A model of the animation pipeline of a small SFML game (`main.cpp`):

- a **spritesheet** cuts a texture of `width × height` pixels into a
  `rows × columns` grid of frames. It is row-major and uses unsigned integer
  division for the cell size.
- an **animation** (`Anim`) holds frames copied out of a sheet, a cursor
  `currentFrame` and an accumulator `animTime`. Each `play(dt)` adds `dt` to
  the accumulator. When the accumulator has reached `switchTime` (0.1 s), one
  `switchTime` is taken off and the cursor moves to the next frame, wrapping
  at the end. This happens at most once per call.
- an **animated prop** (`AnimProp`) shows the frame its animation returned on
  the last update. Setting its animation copies one in, because `Anim` is a
  C++ value type.
- the **player character** (`Human`) is a four-state machine: running left,
  running right, standing left, standing right. It also has a facing flag, a
  position and a running speed of 500. Entering a state copies in the
  animation stored for that state, but only when the state actually changes.
- the **main loop** reads the keys: A runs left whatever D says; otherwise D
  runs right; otherwise the character stops. Then it updates the character's
  animation.

Modules, one per component:

- `Sprites` (`sprites.dfy`): sprite rectangles, the sheet and its constructor,
  and lemmas on frame geometry.
- `Animation` (`animation.dfy`): the `Anim` class. `Advance` is the pure
  specification of one `play`.
- `Playback` (`playback.dfy`): what a run of `play` calls does, stated
  against a reference that follows only the accumulator.
- `Props` (`props.dfy`): the `AnimProp` class.
- `Character` (`character.dfy`): the pure state machine (`Next`, `Dispatch`,
  swap counting) and the `Human` class.
- `Game` (`game.dfy`): the player's setup and one pass of the main loop.

State that C++ mutates in place is kept as classes with `modifies` clauses.
C++ copies of an `Anim` are explicit: the copy constructor `Anim.Copy` and
copy assignment `Anim.Assign`. The ghost `Value()` gives an animation's value,
and it is how the contracts say "a copy of". `Human` inherits from `AnimProp`
in C++. Here it holds its `AnimProp` part in the constant field `prop`, and
its four stored animations in constant fields. Times and positions are
`real`s.

Behaviour worth noting:

- `play` uses a single `if`, not a catch-up loop. A large `dt` moves the
  cursor by one frame only. The surplus stays in the accumulator and is
  drained one frame per later call (`Playback.BacklogDrains`). So frames are
  delayed, not dropped.
- Switching animation copies in the stored clip, with that clip's stored
  cursor and clock. It does not resume where the character left that clip.
  The stored clips are never played.
- A sheet with zero rows or columns is not an error. It simply has no frames.
  The code has no range or emptiness checks: `addFrame` and `play` demand an
  in-range index and a non-empty animation of their callers.
- Calls of 0.05, 0.06, 0.09 and 0.11 s on a three-frame animation show
  frames 0, 1, 2 and 0, leaving 0.01 s accumulated: `animTime` is 0.0 before
  the last call, so that call sees 0.11 s (`Playback.ThreeFrameScenario`).

## Model

| member | source | states |
|---|---|---|
| Sprites.NewSpritesheet | main.cpp:58-81 | the sheet has exactly rows * columns frames, and frame k is the row-major cell: column k % columns, row k / columns, each (width / columns) × (height / rows), with integer division; zero rows or columns give no frames |
| Sprites.FrameInsideTexture | main.cpp:71-76 | every frame of the grid lies inside the texture: truncation can leave unused pixels at the edge, but no cell reaches past it |
| Sprites.FrameIndexRoundTrip | main.cpp:67-79 | when every cell is at least one pixel, frame k's position gives back k (row-major index round trip) |
| Sprites.FramesDistinct | main.cpp:67-79 | distinct indices give distinct frames when cells are non-empty |
| Animation.Advance | main.cpp:110-121 | one play: below the switch time the cursor stays and the accumulator grows by dt; otherwise the cursor moves to (cursor + 1) mod n and the accumulator is time + dt - switchTime; the cursor stays on a frame |
| Animation.Anim.constructor | main.cpp:97-99 | a new animation has the sheet, no frames, cursor 0, accumulator 0 and the default switch time 0.1 |
| Animation.Anim.Copy | main.cpp:141-142 | copying an animation makes a new object with the same frames, cursor, accumulator and switch time |
| Animation.Anim.Assign | main.cpp:155-158 | assigning an animation gives this object the other's whole value, cursor and clock included |
| Animation.Anim.AddFrame | main.cpp:102-105 | with an index inside the sheet, appends exactly that sheet frame and leaves the earlier frames as they were |
| Animation.Anim.Play | main.cpp:108-124 | on a non-empty animation, the cursor and accumulator move as Advance says, the cursor stays on a frame, and the frame under the cursor is returned (the only frame of a one-frame animation) |
| Playback.Switches | main.cpp:112-121 | a run of calls switches frames at most once per call |
| Playback.PlayRunCursor | main.cpp:110-121 | after a run of play calls the cursor has moved on by the number of switches, modulo the number of frames |
| Playback.PlayRunTime | main.cpp:110-114 | no elapsed time is lost: the accumulator ends at the initial time plus all dt minus one switch time per switch |
| Playback.BacklogDrains | main.cpp:110-121 | when k switch times are left in the accumulator, the next k calls with dt = 0 each switch one frame |
| Playback.SteadyRun | main.cpp:110-121 | calls of exactly one switch time each move on one frame each and leave the accumulator unchanged |
| Playback.SteadyCycle | main.cpp:115-120 | n calls of one switch time on an n-frame animation return to the starting frame and accumulator |
| Playback.ThreeFrameScenario | main.cpp:108-124 | three frames and calls of 0.05, 0.06, 0.09, 0.11 s show frames 0, 1, 2, 0 and leave 0.01 s |
| Playback.StallScenario | main.cpp:108-124 | a 0.35 s call moves on one frame and keeps 0.25 s, and two calls with dt = 0 then wrap to frame 0 |
| Props.AnimProp.constructor | main.cpp:141-148 | the prop has the given size and position and its own fresh copy of the given animation |
| Props.AnimProp.Update | main.cpp:150-153 | plays the animation for dt and stores the frame now under its cursor in the sprite |
| Props.AnimProp.SetAnim | main.cpp:155-158 | the active animation becomes a copy of the given one, cursor and clock included |
| Character.Next | main.cpp:184-204 | running left/right sets the state and facing together; stopping stands on the side faced without turning; the state and facing always agree afterwards; a standing character that stops stays as it is |
| Character.FixpointNeverSwaps | main.cpp:209-234 | from a pose that an intent maps to itself, repeating that intent never swaps the animation |
| Character.HoldingSwapsAtMostOnce | main.cpp:209-234 | holding one intent for any number of ticks swaps the animation at most once, and not at all if the first tick keeps the state |
| Character.Dispatch | main.cpp:325-330 | run left exactly when A is pressed; run right exactly when D is pressed and A is not; stop exactly when neither is |
| Character.Human.constructor | main.cpp:171-173 | the character starts standing right and facing left is false, with copies of the five given animations as five separate objects |
| Character.Human.RunLeft | main.cpp:184-189 | x decreases by runningSpeed * dt, the pose becomes running left and facing left, and the animation swaps to the stored left-running clip only if the state changed; nothing else changes |
| Character.Human.RunRight | main.cpp:191-196 | x increases by runningSpeed * dt, the pose becomes running right and facing right, and the animation swaps to the stored right-running clip only if the state changed |
| Character.Human.StopRunning | main.cpp:198-204 | the state becomes standing left exactly when facing left, otherwise standing right; position and facing are unchanged; the animation swaps only if the state changed |
| Character.Human.SetPlayerState | main.cpp:209-234 | the state becomes s; if it already was s the active animation is untouched, otherwise it becomes a copy of the clip stored for s; the stored clips never change |
| Character.Human.Update | main.cpp:150-153 | plays the active animation for dt and shows its frame; the state and the stored clips are unchanged |
| Game.StandingClips | main.cpp:277-282 | the standing-left clip is frame 0 of the sheet and the standing-right clip frame 4, each over that sheet, at cursor 0 with nothing accumulated and a 0.1 s switch time |
| Game.RunningClips | main.cpp:284-293 | the running-left clip is frames 1 to 3 of the sheet and the running-right clip frames 5 to 7, each over that sheet, at cursor 0 with nothing accumulated and a 0.1 s switch time |
| Game.SetUpPlayer | main.cpp:274-296 | the player is a 10 × 10 body at (50, 50), standing right, with the four clips cut from a 2 × 4 sheet of the texture, each unplayed (cursor 0, accumulator 0) with a 0.1 s switch time, the active one a copy of standing-right, and every animation has a frame to play; the player, its body, its active animation and its four clips are new objects, and the body shows the default sprite |
| Game.Tick | main.cpp:325-338 | the pose moves as Next says for the key dispatch; x moves by the intent's shift; the animation played is the stored clip for the new state if the state changed, else the active one; the sprite shows the frame it returned |
| Game.RunGame | main.cpp:274-338 | setting the player up and then running one pass of the main loop per key sample leaves it in the pose the dispatched intents lead to, at x = 50 plus their shifts, with every animation still playable |
| Game.RunThenStop | main.cpp:325-338 | a new character that runs left for 0.02 s and then stops is 10 units further left, standing and facing left, playing the standing-left clip |

## Left out

- The window, the view, event polling, the clock, the `window.isOpen()` test and the clearing and display of each frame (main.cpp:260-266, 301-323, 341-349) are not modelled. They are I/O over SFML; the keys and `dt` are parameters of `Game.Tick`, and `Game.RunGame` takes them as sequences, one entry per pass.
- `Prop::DrawTo` and `window.draw` (main.cpp:16-20) are not modelled. They call into the rendering library.
- Texture loading (main.cpp:274) is not modelled, nor SFML's `Texture` and `Sprite`. A sprite is only its integer texture rectangle, and the texture is only its width and height.
- `StaticProp` (main.cpp:29-46) and the background colour (main.cpp:8) are not modelled. They only assign fields.
- Floating point is not modelled: `0.1f`, `dt`, `animTime`, positions and `runningSpeed * dt` are exact reals, so no rounding is reproduced.
- Sprites.NewSpritesheet: does not model 32-bit limits (the `unsigned` texture size, the `int` loop counters, `IntRect`'s `int` fields). The loop counters are bounded by `rows` and `columns`, which the program sets to 2 and 4; the rectangle fields are bounded by the texture's size.
- Animation.Anim.Play: keeps `currentFrame` as a natural number. `int` overflow of the counter cannot happen, because the cursor is reset before it passes the frame count.
- Character.Human.constructor: the C++ inheritance `Human : AnimProp : Prop` is composition. `Human.prop` holds the `AnimProp` part, and its position and size fields are that part's.
