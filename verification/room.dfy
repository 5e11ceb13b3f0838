/** The single-room environment: its configuration and its `reset`. */
module Room {
  import Rng
  import opened Grids
  import opened Entities
  import opened States
  import Transitions

  /** A configured room. `grid` is the layout held by the rendering cache;
      the three strategies are supplied by the caller. */
  datatype RoomEnv<O> = RoomEnv(
    maxSteps: int,
    gamma: real,
    grid: Grid,
    observe: State -> O,
    reward: (State, int, State) -> real,
    termination: (State, int, State) -> bool)

  /** The samplers `reset` places entities with; their code is not part of
      this model. */
  datatype Samplers = Samplers(
    randomPositions: (Rng.Key, Grid, nat) -> seq<Position>,
    randomDirections: (Rng.Key, nat) -> seq<int>)
  {
    /** Each sampler returns as many values as it is asked for. */
    ghost predicate Valid() {
      && (forall k, g, n :: |randomPositions(k, g, n)| == n)
      && (forall k, n :: |randomDirections(k, n)| == n)
    }
  }

  /** `Room.create`: build the layout with the supplied room builder and
      store it with the configuration. */
  function Create<O>(
    height: int, width: int, maxSteps: int, gamma: real,
    observe: State -> O,
    reward: (State, int, State) -> real,
    termination: (State, int, State) -> bool,
    buildRoom: (int, int) -> Grid): (r: RoomEnv<O>)
    ensures r.grid == buildRoom(height, width)
    ensures r.maxSteps == maxSteps && r.gamma == gamma
    ensures r.observe == observe && r.reward == reward && r.termination == termination
  {
    RoomEnv(maxSteps, gamma, buildRoom(height, width), observe, reward, termination)
  }

  /** The state `reset` assembles from the carried key, the two sampled
      positions and the sampled heading: a player at the first position and
      a batch of exactly one goal at the second. */
  function InitialState(key: Rng.Key, grid: Grid, positions: seq<Position>, direction: seq<int>): (s: State)
    requires |positions| == 2
    ensures s.key == key && s.grid == grid
    ensures s.entities.Keys == {Player, Goal} && Ball !in s.entities
    ensures s.entities[Player].position == [positions[0]] && s.entities[Player].direction == direction
    ensures |s.entities[Goal].position| == 1 && s.entities[Goal].position[0] == positions[1]
  {
    var player := Batch([positions[0]], direction, []);
    var goal := Batch([positions[1]], [], []);
    State(key, grid, map[Player := player, Goal := goal])
  }

  /** `Room.reset`: split the key in three; keep the first in the state, use
      the second only to sample two positions and the third only to sample
      one heading; return the first timestep of the episode. */
  function Reset<O>(env: RoomEnv<O>, prng: Rng.Prng, samplers: Samplers, key: Rng.Key): (r: Timestep<O>)
    requires prng.Valid() && samplers.Valid()
    ensures r.t == 0 && r.action == 0 && r.reward == 0.0 && r.stepType == TRANSITION
    ensures var ks := prng.split(key, 3);
      var positions := samplers.randomPositions(ks[1], env.grid, 2);
      && r.state.key == ks[0]
      && r.state.grid == env.grid
      && r.state.entities.Keys == {Player, Goal}
      && r.state.entities[Player].position == [positions[0]]
      && r.state.entities[Player].direction == samplers.randomDirections(ks[2], 1)
      && r.state.entities[Goal].position == [positions[1]]
    ensures r.observation == env.observe(r.state)
  {
    var ks := prng.split(key, 3);
    var positions := samplers.randomPositions(ks[1], env.grid, 2);
    var direction := samplers.randomDirections(ks[2], 1);
    var state := InitialState(ks[0], env.grid, positions, direction);
    Timestep(0, env.observe(state), 0, 0.0, TRANSITION, state)
  }

  /** The samplers influence `reset` only through the one draw each makes:
      two sampler pairs that agree on those draws give the same timestep. */
  lemma ResetDependsOnlyOnDraws<O>(env: RoomEnv<O>, prng: Rng.Prng, s1: Samplers, s2: Samplers, key: Rng.Key)
    requires prng.Valid() && s1.Valid() && s2.Valid()
    requires var ks := prng.split(key, 3);
      && s1.randomPositions(ks[1], env.grid, 2) == s2.randomPositions(ks[1], env.grid, 2)
      && s1.randomDirections(ks[2], 1) == s2.randomDirections(ks[2], 1)
    ensures Reset(env, prng, s1, key) == Reset(env, prng, s2, key)
  {
  }

  /** A freshly reset room holds no balls, so the ball pass of the first
      step leaves its state exactly as it is, key included. */
  lemma ResetStateHasNoBalls<O>(env: RoomEnv<O>, prng: Rng.Prng, samplers: Samplers, key: Rng.Key, ops: GridOps)
    requires prng.Valid() && samplers.Valid()
    ensures Transitions.UpdateBalls(prng, ops, Reset(env, prng, samplers, key).state) == Reset(env, prng, samplers, key).state
  {
  }

  /** A room built by `create` and then reset: the state lives on the grid
      the room builder made for the given height and width, the positions
      are drawn on that same grid, and the observation is taken with the
      configured observation function. */
  lemma CreateThenReset<O>(
    height: int, width: int, maxSteps: int, gamma: real,
    observe: State -> O,
    reward: (State, int, State) -> real,
    termination: (State, int, State) -> bool,
    buildRoom: (int, int) -> Grid,
    prng: Rng.Prng, samplers: Samplers, key: Rng.Key)
    requires prng.Valid() && samplers.Valid()
    ensures var env := Create(height, width, maxSteps, gamma, observe, reward, termination, buildRoom);
      var r := Reset(env, prng, samplers, key);
      var grid := buildRoom(height, width);
      var positions := samplers.randomPositions(prng.split(key, 3)[1], grid, 2);
      && r.state.grid == grid
      && r.state.entities[Player].position == [positions[0]]
      && r.state.entities[Goal].position == [positions[1]]
      && r.observation == observe(r.state)
  {
  }
}
