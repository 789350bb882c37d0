/**
 * The state `BaseGame` keeps between frames, as a value, and what `LoadConfig`
 * and one `Update` do to it. The class in game.dfy is proved to follow these
 * functions; the lemmas here state what the game promises about them.
 */
module GameModel {
  import opened Wrappers
  import opened Colors
  import opened HexColor
  import opened CubeGeometry

  /** A single-precision float, modelled as an exact real. */
  type Float = real

  /** `Vector3`: only ever copied by the logic modelled here. */
  datatype Vector3 = Vector3(x: Float, y: Float, z: Float)

  const Zero: Vector3 := Vector3(0.0, 0.0, 0.0)

  /** The keys the game reacts to; every other key is `Other`. */
  datatype Key = Escape | R | T | P | E | Other(code: nat)

  /** `KeyboardState`: the set of keys held down when it was polled. */
  type KeyboardState = set<Key>

  /**
   * The values `LoadConfig` reads from the configuration file. The colour is
   * still the raw string, as UTF-16 code units; everything else is already converted.
   */
  datatype ConfigFile = ConfigFile(
    iterationsPerSecond: int,
    movementSpeed: Float,
    pointSize: Float,
    color: Utf16,
    attractors: seq<Vector3>,
    start: Vector3)

  /** Every field of `BaseGame` the logic reads or writes; a mesh is `None` before it is first built. */
  datatype GameState = GameState(
    iterationsPerSecond: int,
    movementSpeed: Float,
    pointSize: Float,
    color: Color,
    attractors: seq<Vector3>,
    current: Vector3,
    currentStart: Vector3,
    cube: Option<seq<Vertex>>,
    currentCube: Option<seq<Vertex>>,
    attractorCube: Option<seq<Vertex>>,
    points: seq<Vector3>,
    angle: Float,
    iterations: int,
    running: bool,
    spinning: bool,
    keyState: KeyboardState,
    oldKeyState: KeyboardState)

  /** The state after an operation, and the exception that ended it early, if any. */
  datatype Step = Step(state: GameState, error: Option<ColorError>)

  /** The angle added each frame while the view spins (`0.015f`). */
  const SpinStep: Float := 0.015

  /** The fields as the object is created: C# default values and the initialisers. */
  const InitialState: GameState := GameState(
    0, 0.0, 0.0, Color(0, 0, 0), [], Zero, Zero, None, None, None, [], 0.0, 0, false, false, {}, {})

  /**
   * What the code shown never changes away from: no point is ever added, no
   * iteration counted, and `current` is only ever set together with, or to,
   * `currentStart`.
   */
  predicate AtRest(s: GameState) {
    s.points == [] && s.iterations == 0 && s.current == s.currentStart
  }

  /** The three meshes were built from the current colour, black and white. */
  predicate MeshesBuilt(s: GameState) {
    s.cube == Some(CubeMesh(s.color)) &&
    s.currentCube == Some(CubeMesh(Black)) &&
    s.attractorCube == Some(CubeMesh(White))
  }

  // LoadConfig

  /**
   * `LoadConfig` on an already-parsed file: the three scalars are assigned
   * first, so they stay assigned when the colour string then raises.
   */
  function AfterLoadConfig(s: GameState, cfg: ConfigFile): (r: Step)
    ensures r.error.Some? <==> DecodeColor(cfg.color).Failure?
    ensures r.state.iterationsPerSecond == cfg.iterationsPerSecond
    ensures r.state.movementSpeed == cfg.movementSpeed && r.state.pointSize == cfg.pointSize
    ensures r.error.None? ==>
              r.state.color == DecodeColor(cfg.color).value &&
              r.state.attractors == cfg.attractors &&
              r.state.current == cfg.start && r.state.currentStart == cfg.start &&
              MeshesBuilt(r.state)
  {
    var scalars := s.(iterationsPerSecond := cfg.iterationsPerSecond,
                      movementSpeed := cfg.movementSpeed,
                      pointSize := cfg.pointSize);
    match DecodeColor(cfg.color)
    case Failure(e) => Step(scalars, Some(e))
    case Success(c) => Step(SceneLoaded(scalars.(color := c), cfg), None)
  }

  /** The second half of `LoadConfig`: attractors, start and meshes, once the colour is set. */
  function SceneLoaded(s: GameState, cfg: ConfigFile): (r: GameState)
    ensures MeshesBuilt(r) && r.color == s.color
    ensures AtRest(s) ==> AtRest(r)
    ensures r.points == s.points && r.iterations == s.iterations && r.angle == s.angle &&
            r.running == s.running && r.spinning == s.spinning
  {
    s.(attractors := cfg.attractors,
       current := cfg.start,
       currentStart := cfg.start,
       cube := Some(CubeMesh(s.color)),
       currentCube := Some(CubeMesh(Black)),
       attractorCube := Some(CubeMesh(White)))
  }

  /**
   * `LoadConfig` leaves the simulation alone: points, iterations, running,
   * spinning, the angle and the keyboard states are what they were, and on an
   * exception only the three scalars have changed.
   */
  lemma LoadConfigFrame(s: GameState, cfg: ConfigFile)
    ensures var t := AfterLoadConfig(s, cfg).state;
            t.points == s.points && t.iterations == s.iterations &&
            t.running == s.running && t.spinning == s.spinning && t.angle == s.angle &&
            t.keyState == s.keyState && t.oldKeyState == s.oldKeyState
    ensures AfterLoadConfig(s, cfg).error.Some? ==>
              AfterLoadConfig(s, cfg).state.(iterationsPerSecond := s.iterationsPerSecond,
                                            movementSpeed := s.movementSpeed,
                                            pointSize := s.pointSize) == s
  {
  }

  /** Loading the same file twice is the same as loading it once. */
  lemma LoadConfigIdempotent(s: GameState, cfg: ConfigFile)
    ensures AfterLoadConfig(AfterLoadConfig(s, cfg).state, cfg) == AfterLoadConfig(s, cfg)
  {
  }

  /** `LoadConfig` keeps `AtRest`, whether it completes or raises. */
  lemma LoadConfigAtRest(s: GameState, cfg: ConfigFile)
    requires AtRest(s)
    ensures AtRest(AfterLoadConfig(s, cfg).state)
  {
  }

  /** The meshes stay consistent with the colour even when the colour string raises. */
  lemma LoadConfigMeshes(s: GameState, cfg: ConfigFile)
    requires MeshesBuilt(s)
    ensures MeshesBuilt(AfterLoadConfig(s, cfg).state)
  {
  }

  // Initialize

  /** `Initialize`: both keyboard states are the first poll, then `LoadConfig`. */
  function AfterInitialize(s: GameState, keys: KeyboardState, cfg: ConfigFile): (r: Step)
    ensures r.state.keyState == keys && r.state.oldKeyState == keys
    ensures r.error.None? ==> MeshesBuilt(r.state)
  {
    AfterLoadConfig(s.(keyState := keys, oldKeyState := keys), cfg)
  }

  /** A fresh game that initialises without an exception is at rest with its meshes built. */
  lemma InitializedGame(keys: KeyboardState, cfg: ConfigFile)
    requires DecodeColor(cfg.color).Success?
    ensures var r := AfterInitialize(InitialState, keys, cfg);
            r.error.None? && AtRest(r.state) && MeshesBuilt(r.state) &&
            !r.state.running && !r.state.spinning && r.state.angle == 0.0
  {
  }

  // Update: the command dispatch

  /** The commands `Update` can carry out in one frame. */
  datatype Command = ResetCmd | Reload | ToggleRunning | ToggleSpin | NoCommand

  /** `IsKeyDown` now and `IsKeyUp` in the previous frame. */
  predicate NewlyPressed(keys: KeyboardState, oldKeys: KeyboardState, k: Key) {
    k in keys && k !in oldKeys
  }

  /** The `else if` chain of `Update`: R, then T, then P, then E. */
  function CommandFor(keys: KeyboardState, oldKeys: KeyboardState): (cmd: Command)
    ensures cmd != NoCommand ==> NewlyPressed(keys, oldKeys, Trigger(cmd))
    ensures NewlyPressed(keys, oldKeys, R) ==> cmd == ResetCmd
  {
    if NewlyPressed(keys, oldKeys, R) then ResetCmd
    else if NewlyPressed(keys, oldKeys, T) then Reload
    else if NewlyPressed(keys, oldKeys, P) then ToggleRunning
    else if NewlyPressed(keys, oldKeys, E) then ToggleSpin
    else NoCommand
  }

  /** The key that triggers a command. */
  function Trigger(cmd: Command): Key
    requires cmd != NoCommand
  {
    match cmd
    case ResetCmd => R
    case Reload => T
    case ToggleRunning => P
    case ToggleSpin => E
  }

  /** The position of a command key in the chain; lower wins. */
  function Rank(k: Key): nat {
    match k
    case R => 0
    case T => 1
    case P => 2
    case E => 3
    case _ => 4
  }

  /**
   * The dispatch, stated without the chain: a command fires exactly when one
   * of R, T, P, E was newly pressed, it is triggered by a newly pressed key,
   * and no other newly pressed command key ranks above it.
   */
  lemma DispatchIsHighestRankedEdge(keys: KeyboardState, oldKeys: KeyboardState)
    ensures CommandFor(keys, oldKeys) == NoCommand <==>
              forall k | Rank(k) < 4 :: !NewlyPressed(keys, oldKeys, k)
    ensures var cmd := CommandFor(keys, oldKeys);
            cmd != NoCommand ==>
              NewlyPressed(keys, oldKeys, Trigger(cmd)) &&
              forall k | NewlyPressed(keys, oldKeys, k) && Rank(k) < 4 :: Rank(Trigger(cmd)) <= Rank(k)
  {
    var cmd := CommandFor(keys, oldKeys);
    if cmd == NoCommand {
      forall k | Rank(k) < 4 ensures !NewlyPressed(keys, oldKeys, k) {
        assert k == R || k == T || k == P || k == E;
      }
    }
  }

  /** The chain is the only dispatch with those properties. */
  lemma DispatchUnique(keys: KeyboardState, oldKeys: KeyboardState, cmd: Command)
    requires cmd == NoCommand <==> forall k | Rank(k) < 4 :: !NewlyPressed(keys, oldKeys, k)
    requires cmd != NoCommand ==>
               NewlyPressed(keys, oldKeys, Trigger(cmd)) &&
               forall k | NewlyPressed(keys, oldKeys, k) && Rank(k) < 4 :: Rank(Trigger(cmd)) <= Rank(k)
    ensures cmd == CommandFor(keys, oldKeys)
  {
    DispatchIsHighestRankedEdge(keys, oldKeys);
    if cmd != NoCommand {
      var c := CommandFor(keys, oldKeys);
      assert Rank(Trigger(cmd)) <= Rank(Trigger(c)) && Rank(Trigger(c)) <= Rank(Trigger(cmd));
    }
  }

  /** Keys held since the previous frame trigger nothing. */
  lemma HeldKeysTriggerNothing(keys: KeyboardState, oldKeys: KeyboardState)
    requires keys <= oldKeys
    ensures CommandFor(keys, oldKeys) == NoCommand
  {
  }

  // Update: the state changes

  /** The body of the R branch: lines 115-119. */
  function AfterReset(s: GameState): (r: GameState)
    ensures r.points == [] && r.current == s.currentStart && r.angle == 0.0 &&
            r.iterations == 0 && !r.running
    ensures r.(points := s.points, current := s.current, angle := s.angle,
               iterations := s.iterations, running := s.running) == s
  {
    s.(points := [], current := s.currentStart, angle := 0.0, iterations := 0, running := false)
  }

  /** Resetting twice is resetting once. */
  lemma ResetIdempotent(s: GameState)
    ensures AfterReset(AfterReset(s)) == AfterReset(s)
  {
  }

  /** The end of every completed frame: spin, then remember the keyboard. */
  function EndFrame(s: GameState): (r: GameState)
    ensures r.angle == if s.spinning then s.angle + SpinStep else s.angle
    ensures r.oldKeyState == s.keyState
    ensures r.(angle := s.angle, oldKeyState := s.oldKeyState) == s
  {
    var spun := if s.spinning then s.(angle := s.angle + SpinStep) else s;
    spun.(oldKeyState := spun.keyState)
  }

  /** The branch of the chain that runs, on the state with the new poll. */
  function Dispatch(s: GameState, cmd: Command, cfg: ConfigFile): (r: Step)
    ensures r.error.Some? ==> cmd == Reload
    ensures r.state.keyState == s.keyState && r.state.oldKeyState == s.oldKeyState
  {
    match cmd
    case ResetCmd => Step(AfterReset(s), None)
    case Reload => AfterLoadConfig(s, cfg)
    case ToggleRunning => Step(s.(running := !s.running), None)
    case ToggleSpin => Step(s.(spinning := !s.spinning), None)
    case NoCommand => Step(s, None)
  }

  /**
   * One `Update` with the keys polled this frame and the configuration file as
   * it reads now (only a reload reads it). An exception from the reload leaves
   * the frame before the spin and the keyboard hand-over.
   */
  function AfterUpdate(s: GameState, keys: KeyboardState, cfg: ConfigFile): (r: Step)
    ensures r.state.keyState == keys
    ensures r.error.None? ==> r.state.oldKeyState == keys
    ensures r.error.Some? ==> CommandFor(keys, s.oldKeyState) == Reload && r.state.oldKeyState == s.oldKeyState
  {
    var dispatched := Dispatch(s.(keyState := keys), CommandFor(keys, s.oldKeyState), cfg);
    if dispatched.error.Some? then dispatched else Step(EndFrame(dispatched.state), None)
  }

  /**
   * Pressing R: the simulation is reset, running stops, and the angle is 0, or
   * one spin step when the view spins (the spin comes after the reset).
   * Spinning, the start, the attractors and the configuration are kept.
   */
  lemma UpdateReset(s: GameState, keys: KeyboardState, cfg: ConfigFile)
    requires NewlyPressed(keys, s.oldKeyState, R)
    ensures var r := AfterUpdate(s, keys, cfg);
            var t := r.state;
            r.error.None? &&
            t.points == [] && t.current == s.currentStart && t.iterations == 0 && !t.running &&
            t.angle == (if s.spinning then SpinStep else 0.0) &&
            t.(points := s.points, current := s.current, iterations := s.iterations, running := s.running,
               angle := s.angle, keyState := s.keyState, oldKeyState := s.oldKeyState) == s
  {
  }

  /** Pressing P (and not R or T) flips `running`; only the angle and keyboard states change besides. */
  lemma UpdateToggleRunning(s: GameState, keys: KeyboardState, cfg: ConfigFile)
    requires NewlyPressed(keys, s.oldKeyState, P)
    requires !NewlyPressed(keys, s.oldKeyState, R) && !NewlyPressed(keys, s.oldKeyState, T)
    ensures var r := AfterUpdate(s, keys, cfg);
            r.error.None? && r.state.running == !s.running &&
            r.state.(running := s.running, angle := s.angle,
                     keyState := s.keyState, oldKeyState := s.oldKeyState) == s
  {
  }

  /** Pressing E (and none of R, T, P) flips `spinning`, and the new setting already applies this frame. */
  lemma UpdateToggleSpin(s: GameState, keys: KeyboardState, cfg: ConfigFile)
    requires NewlyPressed(keys, s.oldKeyState, E)
    requires !NewlyPressed(keys, s.oldKeyState, R) && !NewlyPressed(keys, s.oldKeyState, T) &&
             !NewlyPressed(keys, s.oldKeyState, P)
    ensures var r := AfterUpdate(s, keys, cfg);
            r.error.None? && r.state.spinning == !s.spinning &&
            r.state.angle == (if s.spinning then s.angle else s.angle + SpinStep) &&
            r.state.(spinning := s.spinning, angle := s.angle,
                     keyState := s.keyState, oldKeyState := s.oldKeyState) == s
  {
  }

  /**
   * Pressing T (and not R) reloads the file: the scalars are always replaced, and
   * the frame completes, with the new scene and the spin, exactly when the colour decodes.
   */
  lemma UpdateReload(s: GameState, keys: KeyboardState, cfg: ConfigFile)
    requires NewlyPressed(keys, s.oldKeyState, T) && !NewlyPressed(keys, s.oldKeyState, R)
    ensures var r := AfterUpdate(s, keys, cfg);
            (r.error.None? <==> DecodeColor(cfg.color).Success?) &&
            r.state.running == s.running && r.state.spinning == s.spinning &&
            r.state.points == s.points && r.state.iterations == s.iterations &&
            r.state.iterationsPerSecond == cfg.iterationsPerSecond &&
            r.state.movementSpeed == cfg.movementSpeed && r.state.pointSize == cfg.pointSize &&
            (r.error.None? ==> r.state.color == DecodeColor(cfg.color).value &&
                               r.state.attractors == cfg.attractors && r.state.current == cfg.start &&
                               r.state.currentStart == cfg.start && MeshesBuilt(r.state) &&
                               r.state.angle == (if s.spinning then s.angle + SpinStep else s.angle)) &&
            (r.error.Some? ==> r.state.angle == s.angle && r.state.oldKeyState == s.oldKeyState)
  {
  }

  /** Every frame keeps `AtRest`: nothing here adds a point, counts an iteration or moves `current`. */
  lemma UpdateAtRest(s: GameState, keys: KeyboardState, cfg: ConfigFile)
    requires AtRest(s)
    ensures AtRest(AfterUpdate(s, keys, cfg).state)
  {
    LoadConfigAtRest(s.(keyState := keys), cfg);
  }

  /** Every frame keeps the meshes consistent with the colour. */
  lemma UpdateMeshes(s: GameState, keys: KeyboardState, cfg: ConfigFile)
    requires MeshesBuilt(s)
    ensures MeshesBuilt(AfterUpdate(s, keys, cfg).state)
  {
    LoadConfigMeshes(s.(keyState := keys), cfg);
  }

  // Several frames

  /** One frame's input: the keyboard poll and the file as it reads then. */
  datatype Frame = Frame(keys: KeyboardState, config: ConfigFile)

  /** Runs frames in order; an exception ends the run with the state it left. */
  function Frames(s: GameState, frames: seq<Frame>): (r: Step)
    decreases |frames|
  {
    if frames == [] then Step(s, None)
    else
      var first := AfterUpdate(s, frames[0].keys, frames[0].config);
      if first.error.Some? then first else Frames(first.state, frames[1..])
  }

  /** The same keyboard poll for `n` frames. */
  function Hold(keys: KeyboardState, cfg: ConfigFile, n: nat): seq<Frame> {
    seq(n, i => Frame(keys, cfg))
  }

  /**
   * Holding the keys of the previous frame for `n` frames triggers nothing:
   * only the angle moves, by one step a frame while spinning.
   */
  lemma {:induction false} HeldFrames(s: GameState, keys: KeyboardState, cfg: ConfigFile, n: nat)
    requires s.oldKeyState == keys && s.keyState == keys
    ensures Frames(s, Hold(keys, cfg, n)) ==
            Step(s.(angle := s.angle + (if s.spinning then n as real * SpinStep else 0.0)), None)
    decreases n
  {
    if n > 0 {
      var frames := Hold(keys, cfg, n);
      HeldKeysTriggerNothing(keys, s.oldKeyState);
      var next := EndFrame(s);
      assert AfterUpdate(s, keys, cfg) == Step(next, None);
      assert frames[1..] == Hold(keys, cfg, n - 1);
      HeldFrames(next, keys, cfg, n - 1);
    }
  }

  /**
   * Pressing P alone and holding it for `n` frames toggles `running` once, not
   * once per frame.
   */
  lemma {:induction false} HoldingPTogglesOnce(s: GameState, cfg: ConfigFile, n: nat)
    requires n >= 1 && P !in s.oldKeyState
    ensures Frames(s, Hold({P}, cfg, n)).error.None?
    ensures Frames(s, Hold({P}, cfg, n)).state.running == !s.running
  {
    var frames := Hold({P}, cfg, n);
    var first := AfterUpdate(s, {P}, cfg);
    assert CommandFor({P}, s.oldKeyState) == ToggleRunning;
    assert first.error.None? && first.state.running == !s.running;
    assert frames[1..] == Hold({P}, cfg, n - 1);
    HeldFrames(first.state, {P}, cfg, n - 1);
  }
}
