# 3DAttractors: the game logic of `BaseGame`

`BaseGame` is the MonoGame class of the 3DAttractors visualizer. Apart from
rendering and file I/O, it holds three pieces of logic, and this project models
and proves each of them:

- **The cube mesh.** `BuildCube` allocates a 36-slot `VertexPositionColor` array and fills
  it with the eight corners of a cube, all in one colour.
  - `CubeGeometry.BuildCube` is a method that fills an `array<Vertex>` slot by slot.
  - It is proved equal to the value `CubeMesh`.
  - Lemmas then prove what the mesh is:
    - every slot sits on a corner;
    - each block of six slots lies on one face;
    - every triangle is wound with its normal pointing at the cube's centre.
  - Positions are integer triples in {-1, 1}³ and colours are byte triples.
- **The colour string.** `LoadConfig` reads the configured colour `"#RRGGBB"`: it drops the
  first character and converts three two-character fields from base 16.
  - The string is a sequence of UTF-16 code units, as a .NET string is, so `Substring`
    positions count code units: a character outside the Basic Multilingual Plane takes two.
  - `HexColor.DecodeColor` follows the order of the source's substring calls and conversions.
  - It reports the same two exceptions: a field cut past the end of the string, and a bad digit.
  - It is paired with a formatter `FormatColor`, and round trips are proved in both directions.
- **The key-driven state machine.**
  - `Game.BaseGame` is a class with the fields that `Update` and `LoadConfig` assign.
  - Its methods are proved to follow functions on the value `GameModel.GameState`:
    - `AfterUpdate` for `Update`;
    - `AfterLoadConfig` for `LoadConfig`;
    - `AfterInitialize` for `Initialize`.
  - Each frame, `Update` runs the command of a key that is down now and was up at the
    previous poll, in the priority R (reset) > T (reload) > P (run/pause) > E (spin).
  - It then advances the spin angle and hands the poll over to `oldKeyState`.
  - A keyboard state is the set of keys held down.
  - The configuration file arrives already parsed as a `ConfigFile`. The colour stays a
    string, so the exception it can raise half-way through `LoadConfig` is modelled.
  - An exception from a reload leaves `Update` at once: the spin and the keyboard
    hand-over are skipped.

The code in `BaseGame.cs` has no attractor step and no point batching.
- Nothing in it appends to `points` or increments `iterations`; only the reset writes them.
- The model therefore has neither. It proves instead that every frame keeps the state
  "at rest" (`UpdateAtRest`).
- `LoadConfig` is not atomic: it assigns `iterationsPerSecond`, `movementSpeed` and
  `pointSize` (BaseGame.cs:186-188) before the colour string can raise (190-193). A failed
  reload keeps those three new values and nothing else (`LoadConfigFrame`, `UpdateReload`).

Modules:
- `Wrappers` (wrappers.dfy): Option and Result.
- `Colors` (colors.dfy): byte channels, black and white.
- `HexColor` (hex_color.dfy).
- `CubeGeometry` (cube.dfy).
- `GameModel` (game_model.dfy): the state as a value, and the lemmas about frames and reloads.
- `Game` (game.dfy): the class.

## Model

| member | source | states |
|---|---|---|
| HexColor.ParseField | 3DAttractors/BaseGame.cs:191-193 | A two-character field converts exactly when both characters are base-16 digits (either case), and the value is the field's base-16 value; otherwise the error is a bad digit |
| HexColor.FieldAt | 3DAttractors/BaseGame.cs:191-193 | Cutting a two-unit field at `start` and converting it succeeds exactly when the field lies inside the string and is all base-16 digits, with the field's base-16 value; a field past the end fails with out-of-range, and one inside with a bad digit |
| HexColor.DecodeColor | 3DAttractors/BaseGame.cs:190-193 | The colour decodes exactly when the string has at least 7 code units and s[1..7] is all base-16 digits. The channels are the values of s[1..3], s[3..5] and s[5..7]. A string shorter than 3 code units fails with out-of-range. With 7 or more code units a failure is always a bad digit. A string whose code units after the first are all digits can only fail with out-of-range |
| HexColor.DecodeFormat | 3DAttractors/BaseGame.cs:190-193 | Decoding the "#RRGGBB" form of any colour gives that colour back |
| HexColor.FormatDecode | 3DAttractors/BaseGame.cs:190-193 | Formatting a decoded colour gives back "#" and the six digits that were read, in upper case: nothing else in the string decides the colour |
| HexColor.DecodeIgnoresMarkerAndTail | 3DAttractors/BaseGame.cs:190-193 | Two strings of length at least 7 that agree on s[1..7] decode alike: the first code unit is never checked, and everything after index 6 is ignored |
| HexColor.AstralMarkerShiftsFields | 3DAttractors/BaseGame.cs:190-193 | A marker outside the Basic Multilingual Plane takes two code units, so "😀FF0000" does not decode: the first field starts at the marker's low surrogate |
| CubeGeometry.CubeMesh | 3DAttractors/BaseGame.cs:228-270 | The mesh has 36 vertices, forms 12 triangles (`model.Length / 3`), and every vertex carries the given colour |
| CubeGeometry.Slot | 3DAttractors/BaseGame.cs:230-270 | The corner written to slot i is a corner of the cube (every coordinate -1 or 1) and lies on the face of its block of six, `BlockFace(i / 6)` |
| CubeGeometry.TriangleCount | 3DAttractors/BaseGame.cs:213 | `model.Length / 3` is the number of whole triangles in the mesh: three times it is at most the length, and less than three short of it |
| CubeGeometry.WriteFace | 3DAttractors/BaseGame.cs:230-270 | Writing one face block sets exactly its six slots to the given corners in the given colour and leaves every other slot as it was |
| CubeGeometry.BuildCube | 3DAttractors/BaseGame.cs:216-273 | Returns a freshly allocated array whose contents are `CubeMesh` of the colour |
| CubeGeometry.CubeCorners | 3DAttractors/BaseGame.cs:218-270 | Every vertex position is one of the eight corners, and each corner has every coordinate in {-1, 1} |
| CubeGeometry.CubeFaces | 3DAttractors/BaseGame.cs:230-270 | Each block of six slots lies on one face: 0-5 on z = -1, 6-11 on z = 1, 12-17 on y = 1, 18-23 on y = -1, 24-29 on x = -1, 30-35 on x = 1 |
| CubeGeometry.SlotWinding | 3DAttractors/BaseGame.cs:230-270 | Triangle t, slots 3t to 3t + 2, has the cross product (b - a) × (c - a) equal to four times the inward direction of its block's face |
| CubeGeometry.CubeWinding | 3DAttractors/BaseGame.cs:230-270 | Every one of the 12 triangles of the mesh has its normal pointing into the cube: its dot product with the face's outward axis is negative |
| GameModel.AfterLoadConfig | 3DAttractors/BaseGame.cs:182-206 | The three scalars always take the configured values. An exception occurs exactly when the colour string does not decode. Otherwise the colour is the decoded one, the attractors are the configured list in order, `current` and `currentStart` are both the configured start, and the three meshes are rebuilt from the colour, black and white |
| GameModel.SceneLoaded | 3DAttractors/BaseGame.cs:195-206 | Installing the attractors, the start and the meshes leaves the meshes built from the colour, keeps `AtRest`, and leaves the colour, points, iterations, angle, running and spinning alone |
| GameModel.LoadConfigFrame | 3DAttractors/BaseGame.cs:182-206 | A load never touches points, iterations, running, spinning, the angle or the keyboard states; when it raises, only the three scalars differ from the state before |
| GameModel.LoadConfigIdempotent | 3DAttractors/BaseGame.cs:182-206 | Loading the same file twice leaves the same state and outcome as loading it once |
| GameModel.LoadConfigAtRest | 3DAttractors/BaseGame.cs:182-206 | A load keeps points empty, iterations 0 and `current == currentStart`, whether it completes or raises |
| GameModel.LoadConfigMeshes | 3DAttractors/BaseGame.cs:190-206 | If the meshes were built from the current colour, they still are after a load, even one that raises before the colour is assigned |
| GameModel.AfterInitialize | 3DAttractors/BaseGame.cs:64-66 | Both keyboard states are the first poll, and a load that completes leaves the meshes built |
| GameModel.InitializedGame | 3DAttractors/BaseGame.cs:36-66 | A fresh game whose configured colour decodes initialises without an exception, at rest, with its meshes built, stopped, not spinning and with angle 0 |
| GameModel.DispatchIsHighestRankedEdge | 3DAttractors/BaseGame.cs:113-135 | A command fires exactly when one of R, T, P, E is down now and was up at the previous poll; the one that fires belongs to such a key, and no other such key ranks above it in R > T > P > E |
| GameModel.DispatchUnique | 3DAttractors/BaseGame.cs:113-135 | Any choice of command with those properties is the one the `else if` chain makes: at most one command fires per frame |
| GameModel.HeldKeysTriggerNothing | 3DAttractors/BaseGame.cs:113-135 | When every key down now was already down at the previous poll, no command fires |
| GameModel.CommandFor | 3DAttractors/BaseGame.cs:113-135 | The command chosen is triggered by a newly pressed key, and a newly pressed R always wins; `DispatchIsHighestRankedEdge` and `DispatchUnique` characterise the whole chain |
| GameModel.Dispatch | 3DAttractors/BaseGame.cs:113-135 | Only the reload branch can raise, and no branch touches the keyboard states |
| GameModel.AfterReset | 3DAttractors/BaseGame.cs:115-119 | Reset empties the points, puts `current` back at `currentStart`, zeroes the angle and iterations, stops running, and leaves every other field, including spinning, `currentStart` and the attractors, as it was |
| GameModel.ResetIdempotent | 3DAttractors/BaseGame.cs:113-120 | Resetting twice gives the same state as resetting once |
| GameModel.EndFrame | 3DAttractors/BaseGame.cs:137-142 | The end of a completed frame adds one spin step to the angle exactly when spinning, makes `oldKeyState` the current poll, and changes nothing else |
| GameModel.AfterUpdate | 3DAttractors/BaseGame.cs:105-142 | After a frame `keyState` is the new poll; a frame that completes leaves `oldKeyState == keyState`; a frame that raises was a reload and leaves `oldKeyState` as it was |
| GameModel.UpdateReset | 3DAttractors/BaseGame.cs:113-142 | A newly pressed R resets points, `current`, iterations and running; the angle ends at 0, or at one spin step while spinning; every other field apart from the keyboard states is kept |
| GameModel.UpdateToggleRunning | 3DAttractors/BaseGame.cs:127-142 | A newly pressed P that neither R nor T pre-empts flips `running`; apart from the spin and the keyboard states nothing else changes |
| GameModel.UpdateToggleSpin | 3DAttractors/BaseGame.cs:132-142 | A newly pressed E that none of R, T, P pre-empts flips `spinning`, and the new setting already decides this frame's spin; nothing else changes but the keyboard states |
| GameModel.UpdateReload | 3DAttractors/BaseGame.cs:122-142 | A newly pressed T that R does not pre-empt always replaces the three scalars, and completes the frame exactly when the colour decodes. It keeps running, spinning, points and iterations. On completion it installs the decoded colour, the configured attractors, start and meshes, and spins once if spinning. On an exception the angle and `oldKeyState` stay as they were |
| GameModel.UpdateAtRest | 3DAttractors/BaseGame.cs:105-142 | Every frame keeps points empty, iterations 0 and `current == currentStart`: nothing in `Update` adds a point or counts an iteration |
| GameModel.UpdateMeshes | 3DAttractors/BaseGame.cs:105-142 | Every frame keeps the meshes consistent with the colour |
| GameModel.HeldFrames | 3DAttractors/BaseGame.cs:113-142 | Holding the previous frame's keys for n frames fires no command and raises nothing; only the angle moves, by n spin steps while spinning |
| GameModel.HoldingPTogglesOnce | 3DAttractors/BaseGame.cs:127-142 | Pressing P and holding it for any number of frames flips `running` once, not once per frame |
| Game.BaseGame.constructor | 3DAttractors/BaseGame.cs:15-43 | A new game has the fields' default values: no points, no attractors, no meshes, stopped, not spinning, angle 0; it starts at rest |
| Game.BaseGame.Initialize | 3DAttractors/BaseGame.cs:64-66 | The fields after `Initialize`, and its exception, are those of `AfterInitialize` |
| Game.BaseGame.ReadAttractors | 3DAttractors/BaseGame.cs:195-199 | The loop that clears and refills `attractors` leaves exactly the configured list, in order, and changes no other field |
| Game.BaseGame.RebuildMeshes | 3DAttractors/BaseGame.cs:204-206 | `cube`, `currentCube` and `attractorCube` hold the meshes of the colour, black and white, and no other field changes |
| Game.BaseGame.LoadScene | 3DAttractors/BaseGame.cs:195-206 | After the colour is set, the attractors, the start and the meshes are installed, and nothing else changes |
| Game.BaseGame.LoadConfig | 3DAttractors/BaseGame.cs:182-207 | The fields after `LoadConfig`, and its exception, are those of `AfterLoadConfig` |
| Game.BaseGame.Reset | 3DAttractors/BaseGame.cs:113-120 | The fields after the R branch are those of `AfterReset` |
| Game.BaseGame.RunCommand | 3DAttractors/BaseGame.cs:113-135 | The `else if` chain carries out the command of the highest ranked newly pressed key, on the fields as they stood when it started |
| Game.BaseGame.Update | 3DAttractors/BaseGame.cs:105-142 | The fields after one `Update`, and the exception it lets through, are those of `AfterUpdate` |

## Left out

- Rendering: `Draw`, `DrawCube`, the effect, the sprite batch and the font, the camera and projection matrices, and the window setup in `Initialize` and `LoadContent`. These are graphics calls and float matrices.
- Reading `config.hjson` and the `Qo()`/`Qa()`/`Qs()` accessors. This is file I/O through a library that is not shown. The configuration arrives as a `ConfigFile` of converted values. The exceptions those conversions can raise (a missing key, a value of the wrong type) are not modelled, and neither is an attractor list abandoned half-way.
- `Keyboard.GetState()`: each poll is a parameter of `Initialize` and `Update`.
- `Exit()` on Escape. It only requests the end of the game loop; the rest of the frame runs as usual, and that part is modelled.
- The alpha channel of `Color`: every colour the code builds is opaque.
- Game.BaseGame.constructor: `graphics` and `Content.RootDirectory` are left out, since both are rendering and content plumbing.
- HexColor.DecodeColor: accepts plain base-16 digits in either case only. `Convert.ToInt32(…, 16)` also accepts a field with a leading '+' ("+F" is 15), which the model rejects as a bad digit. A field with a leading '-' raises `ArgumentException` in .NET, and here it is a bad digit.
- HexColor.DecodeColor: the `Substring` and conversion exceptions are the two values of `ColorError`, not .NET exception types.
- GameModel.EndFrame: `angle` is an exact real and the step is exactly 0.015. Single-precision rounding of `angle += 0.015f` is not modelled; `movementSpeed` and `pointSize` are reals too.
- `Vector3` is a triple of reals that is only ever copied.
- `iterationsPerSecond` (`int`) and `iterations` (`long`) are unbounded integers. Nothing in the code computes with them, so their width never matters.
- Game.BaseGame.RebuildMeshes: the three mesh fields hold the contents of the arrays `BuildCube` returns, not the arrays themselves. Nothing writes those arrays after they are built, so only their identity and aliasing are lost.
- `attractors` and `points` are `List<Vector3>` in the source; here they are sequence fields that the methods reassign.
- Game.BaseGame.Reset, Game.BaseGame.RunCommand, Game.BaseGame.ReadAttractors, Game.BaseGame.LoadScene and Game.BaseGame.RebuildMeshes group statements that the source writes inline in `Update` and `LoadConfig`. CubeGeometry.WriteFace does the same for the six assignments of one face in `BuildCube`. The order of the assignments is the source's.
