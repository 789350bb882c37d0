/**
 * `BaseGame` itself: the fields the game logic updates in place, and the
 * methods that update them, each proved to follow its function in GameModel.
 */
module Game {
  import opened Wrappers
  import opened Colors
  import opened HexColor
  import opened CubeGeometry
  import opened GameModel

  class BaseGame {
    var attractors: seq<Vector3>
    var attractorCube: Option<seq<Vertex>>
    var color: Color
    var cube: Option<seq<Vertex>>
    var current: Vector3
    var currentStart: Vector3
    var currentCube: Option<seq<Vertex>>
    var iterationsPerSecond: int
    var keyState: KeyboardState
    var oldKeyState: KeyboardState
    var movementSpeed: Float
    var points: seq<Vector3>
    var pointSize: Float
    var angle: Float
    var running: bool
    var spinning: bool
    var iterations: int

    /** The fields as a value. */
    ghost function State(): GameState
      reads this
    {
      GameState(
        iterationsPerSecond, movementSpeed, pointSize, color, attractors, current, currentStart,
        cube, currentCube, attractorCube,
        points, angle, iterations, running, spinning, keyState, oldKeyState)
    }

    /** The object as created, before `Initialize`. */
    constructor ()
      ensures State() == InitialState
      ensures AtRest(State())
    {
      attractors := [];
      attractorCube := None;
      color := Color(0, 0, 0);
      cube := None;
      current := Zero;
      currentStart := Zero;
      currentCube := None;
      iterationsPerSecond := 0;
      keyState := {};
      oldKeyState := {};
      movementSpeed := 0.0;
      points := [];
      pointSize := 0.0;
      angle := 0.0;
      running := false;
      spinning := false;
      iterations := 0;
    }

    /** Takes the first keyboard poll for both states, then loads the file. */
    method Initialize(keys: KeyboardState, cfg: ConfigFile) returns (error: Option<ColorError>)
      modifies this
      ensures Step(State(), error) == AfterInitialize(old(State()), keys, cfg)
    {
      keyState := keys;
      oldKeyState := keys;
      error := LoadConfig(cfg);
    }

    /** Clears `attractors` and adds the configured ones, in order. */
    method ReadAttractors(list: seq<Vector3>)
      modifies this
      ensures State() == old(State()).(attractors := list)
    {
      attractors := [];
      var i := 0;
      while i < |list|
        invariant 0 <= i <= |list|
        invariant attractors == list[..i]
        invariant State() == old(State()).(attractors := attractors)
      {
        attractors := attractors + [list[i]];
        i := i + 1;
      }
    }

    /** Builds the three meshes: the point colour, black for the current point, white for attractors. */
    method RebuildMeshes()
      modifies this
      ensures State() == old(State()).(cube := Some(CubeMesh(color)),
                                       currentCube := Some(CubeMesh(Black)),
                                       attractorCube := Some(CubeMesh(White)))
    {
      var built := BuildCube(color);
      cube := Some(built[..]);
      built := BuildCube(Black);
      currentCube := Some(built[..]);
      built := BuildCube(White);
      attractorCube := Some(built[..]);
    }

    /**
     * Reads the already-parsed file into the fields; a colour string that does
     * not decode ends it with the three scalars already assigned.
     */
    method LoadConfig(cfg: ConfigFile) returns (error: Option<ColorError>)
      modifies this
      ensures Step(State(), error) == AfterLoadConfig(old(State()), cfg)
    {
      iterationsPerSecond := cfg.iterationsPerSecond;
      movementSpeed := cfg.movementSpeed;
      pointSize := cfg.pointSize;

      var decoded := DecodeColor(cfg.color);
      if decoded.Failure? {
        return Some(decoded.error);
      }
      color := decoded.value;
      LoadScene(cfg);
      error := None;
    }

    /** The rest of `LoadConfig` once the colour is read: attractors, start point and meshes. */
    method LoadScene(cfg: ConfigFile)
      modifies this
      ensures State() == SceneLoaded(old(State()), cfg)
    {
      ReadAttractors(cfg.attractors);

      currentStart := cfg.start;
      current := currentStart;

      RebuildMeshes();
    }

    /** Clears the points and puts the current point back at the start, stopped and unrotated. */
    method Reset()
      modifies this
      ensures State() == AfterReset(old(State()))
    {
      points := [];
      current := currentStart;
      angle := 0.0;
      iterations := 0;
      running := false;
      // Everything else is left as it was.
      assert unchanged(this`iterationsPerSecond, this`movementSpeed, this`pointSize, this`color,
                       this`attractors, this`currentStart, this`cube, this`currentCube,
                       this`attractorCube, this`spinning, this`keyState, this`oldKeyState);
    }

    /**
     * The `else if` chain of `Update`: carries out the command of the highest
     * ranked key pressed since the previous poll, if any.
     */
    method RunCommand(cfg: ConfigFile) returns (error: Option<ColorError>)
      modifies this
      ensures Step(State(), error) == Dispatch(old(State()), CommandFor(old(keyState), old(oldKeyState)), cfg)
    {
      error := None;
      if R in keyState && R !in oldKeyState {
        Reset();
      } else if T in keyState && T !in oldKeyState {
        error := LoadConfig(cfg);
      } else if P in keyState && P !in oldKeyState {
        running := !running;
      } else if E in keyState && E !in oldKeyState {
        spinning := !spinning;
      }
    }

    /**
     * One frame: polls the keyboard (`keys`), carries out at most one command,
     * spins and remembers the poll. A reload reads `cfg`; its exception leaves
     * the frame at once.
     */
    method Update(keys: KeyboardState, cfg: ConfigFile) returns (error: Option<ColorError>)
      modifies this
      ensures Step(State(), error) == AfterUpdate(old(State()), keys, cfg)
    {
      keyState := keys;
      ghost var polled := State();
      error := RunCommand(cfg);
      assert Step(State(), error) == Dispatch(polled, CommandFor(keys, polled.oldKeyState), cfg);
      if error.Some? {
        return;
      }

      if spinning {
        angle := angle + SpinStep;
      }

      oldKeyState := keyState;
    }
  }
}
