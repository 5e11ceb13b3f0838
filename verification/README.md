# Navix step core in Dafny

A model of the step logic of the Navix grid-world engine and of the
single-room environment's `reset`.

- `Transitions` models `navix/transitions.py`: the jump-table action
  dispatch (`deterministic_transition`), the dispatch followed by the ball
  pass (`stochastic_transition`), the ball pass itself (`update_balls`, with
  its inner `try_movements` and `try_one_direction`), and the occupancy
  predicate `_can_spawn_there`.
- `Room` models `navix/environments/room.py`: `Room.create` as configuration
  wiring, and `Room.reset`, which threads the key, places the player and the
  goal and builds the first timestep.
- `Rng`, `Grids`, `Entities` and `States` hold the data model: PRNG keys,
  positions, the grid, entity batches by kind, the state and the timestep.

Collaborators whose code is not part of this model are carried as
function-valued fields of small records, each with the minimal contract the
callers rely on (a `Valid()` predicate):

- `Rng.Prng`: `split(k, n)` returns `n` keys; `randint(k, lo, hi)` lies in `[lo, hi)`.
- `Grids.GridOps`: `translate(position, heading)` has no contract.
  `obstructs(batch, position)` stands for `positions_equal(batch, position)[0]`.
  Its only contract is that, for a batch of exactly one entity,
  `any(not obstructs(batch, position))` holds exactly when that entity is
  elsewhere. Both a scalar and an element-wise reading of `positions_equal`
  meet it.
- `Room.Samplers`: `random_positions` and `random_directions` return as many
  values as asked for.
- `Room.RoomEnv.observe` is the observation function. The reward and
  termination strategies are stored but not used by `reset`.

The ball pass is a sequence comprehension over the balls: that is the
`vmap`. Inside it, `Transitions.Scan` is a left fold over the three attempt
keys: that is the `lax.scan`. Every occupancy check reads the state as it was
when the pass began. The `Transitions.Mover` record makes that snapshot explicit.

Behaviour of the code worth noting:

- `deterministic_transition` does no range check on the action index
  (navix/transitions.py:45), and `lax.switch` clamps an index outside the
  table. The model makes `0 <= action < |actions|` a precondition instead of
  modelling the clamp.
- `_can_spawn_there` tests, for each kind, only
  `any(not positions_equal(batch, pos)[0])` (navix/transitions.py:119-120).
  For a kind with exactly one entity, that means the entity is elsewhere
  (`CanSpawnThereSingletons`). For a kind with several entities, the meaning
  depends on the shape `positions_equal` returns, which is not visible here.
  Under the reading where it returns one boolean per entity, `[0]` keeps only
  the first entity's comparison, and a later ball on the cell goes unnoticed
  (`OnlyFirstEntityChecked`).
- `reset` sets `step_type` to the integer `0` (navix/environments/room.py:84);
  the model keeps that code as `States.TRANSITION`.

## Model

| member | source | states |
|---|---|---|
| Transitions.DeterministicTransition | navix/transitions.py:32-45 | For an in-range index, the result equals walking the whole action table while applying only the entry at the selected index, so no other action function takes effect |
| Transitions.DispatchAppliesOnlySelected | navix/transitions.py:45 | Walking the table and applying only the selected entry yields exactly that entry applied to the state |
| Transitions.DispatchIgnoresOtherEntries | navix/transitions.py:45 | Replacing any table entry other than the selected one does not change the dispatch result |
| Transitions.StochasticTransition | navix/transitions.py:63-66 | After dispatch and the ball pass, the grid, the set of kinds and every non-ball batch are those of the dispatched state; without balls the result is the dispatched state itself; with balls the key is element 0 of the split of the dispatched state's key, the ball count, directions and tags are kept, and ball i moves by `try_movements` with element i+1 against the dispatched state |
| Transitions.BallsAvoidMovedPlayer | navix/transitions.py:63-66 | With a single player after the action, a ball that moves never ends on the player's new cell, because the ball pass judges occupancy against the dispatched state |
| Transitions.CanSpawnThere | navix/transitions.py:113-121 | A nonzero grid cell at the candidate rejects it; a kind whose batch is one entity sitting on the candidate rejects it |
| Grids.CellAt | navix/transitions.py:115 | Reading the grid at an in-bounds position yields that cell |
| Grids.AxisIndex | navix/transitions.py:115 | A traced index resolves to a valid index of the axis: an in-range index is itself, a negative one within the axis counts from the end |
| Transitions.CanSpawnThereSingletons | navix/transitions.py:115-120 | When every kind present has exactly one entity, the check holds if and only if the cell is walkable and no entity is on it |
| Transitions.OnlyFirstEntityChecked | navix/transitions.py:119-120 | Under the one-boolean-per-entity reading of `positions_equal`, a walkable cell passes whenever the first entity of each kind is elsewhere, whatever the later entities occupy |
| Transitions.TryOneDirection | navix/transitions.py:78-91 | Once an earlier attempt succeeded the carry is passed through unchanged; otherwise a rejected candidate leaves the carry as it was, and an accepted one is the translate of the ball's original position, not of the carry |
| Transitions.Scan | navix/transitions.py:94-100 | The fold of `try_one_direction` over the attempt keys succeeds if and only if some attempt is accepted; it then yields the candidate of the first accepted attempt; otherwise it keeps the starting carry |
| Transitions.TryMovements | navix/transitions.py:77-101 | With the three attempt keys `split(key, 3)`, the ball keeps its position when all three are rejected, and otherwise moves to the candidate of the first accepted attempt |
| Transitions.TryMovementsOutcome | navix/transitions.py:81-89 | A ball ends where it was or at `translate(origin, d)` for a heading `d` in 0..3 that the snapshot accepts |
| Transitions.FirstAttemptWins | navix/transitions.py:87-89 | If the first attempt is accepted, the ball ends at its candidate, whatever the later attempts would draw |
| Transitions.MovePositions | navix/transitions.py:106 | The mapped result has one position per ball, and ball i's is `try_movements` of its position with key i+1 |
| Transitions.UpdateBalls | navix/transitions.py:103-111 | Without a ball kind the state is returned unchanged, key included; otherwise the grid and other kinds are kept, the ball count, directions and tags are preserved, the new key is element 0 of `split(key, n+1)`, and ball i moves by `try_movements` with element i+1 against the pre-pass state |
| Transitions.UpdateBallsAt | navix/transitions.py:105-106 | Ball i's new position is `try_movements` of its old position with element i+1 of the split state key, judged against the pre-pass state |
| Transitions.UpdateBallsMovesLegally | navix/transitions.py:103-110 | After the pass, every ball is at its old position or one accepted step away in one of the four headings |
| Transitions.BallsMayShareACell | navix/transitions.py:84-106 | Two balls whose first attempts propose the same accepted cell both end on it, because the check reads the pre-pass snapshot and not other balls' new positions |
| Transitions.ScanIgnoresSnapshotKey | navix/transitions.py:84 | The attempts depend on the snapshot only through its grid and entities, not its key |
| Transitions.BallMoveIsLocal | navix/transitions.py:105-106 | A ball's new position depends only on its own key and on the grid and entities of the pre-pass state |
| Room.CreateThenReset | navix/environments/room.py:51-70 | Resetting a created room yields a state on the grid the builder made for the given height and width, with player and goal at the positions drawn on that grid, and the observation taken with the configured observation function |
| Room.InitialState | navix/environments/room.py:67-77 | The assembled state carries the given key and grid and holds exactly a player and a goal kind: the player at the first position with the given heading, exactly one goal at the second position, and no balls |
| Room.Reset | navix/environments/room.py:61-86 | With `split(key, 3) = [k0, k1, k2]`: the state carries k0; the player is at the first of two positions drawn with k1 and has the heading drawn with k2; exactly one goal is at the second position; no other kind exists; `t`, `action` and step type are 0, reward is 0; the observation is the observation of that same state |
| Room.ResetDependsOnlyOnDraws | navix/environments/room.py:62-66 | The samplers affect `reset` only through the position draw with the second key and the heading draw with the third key |
| Room.ResetStateHasNoBalls | navix/environments/room.py:73-77 | A freshly reset state holds no balls, so the ball pass leaves it unchanged, key included |

## Left out

- JAX execution machinery (`jax.jit`, `jax.vmap`, `jax.lax.scan`) is modelled as a plain sequence map and a fold.
- The real PRNG (`jax.random.split`, `jax.random.randint`) is abstract. Verifying the generator is not the point of the model.
- `translate`, `positions_equal`, `room`, `random_positions`, `random_directions`, `State.set_balls` and the `State` constructor: their code is not part of this model. The first five are abstract parameters. `set_balls` is assumed to replace the ball batch and nothing else (`States.State.SetBalls`). The reset state is assumed to hold the room's grid and exactly the player and goal batches.
- Transitions.CanSpawnThere: says nothing about kinds with several entities, because the shape `positions_equal` returns for them is not visible.
- The grid read `state.grid[tuple(position)]` is modelled with JAX's index semantics: a negative index counts from the end, then the index is clamped to the axis. If `translate` moves one cell and balls stay off the border, candidates never leave the grid, and then the clamp plays no part.
- Heading encoding: headings are opaque integers in 0..3 handed to `translate`. The viewer's 0 = right, 1 = down, 2 = left, 3 = up is not relied on.
- An out-of-range action index is a precondition, not an error or a clamp.
- Room.Reset: does not model that `random_positions` returns distinct walkable cells, so it does not show that the player and the goal start apart.
- Float fields: the reward is an exact `real` (0.0) instead of a float32, and `gamma` is stored but never used.
- The observation function takes the state and the rendering cache in the source; the model's `observe` takes the state alone, since the cache is reduced to the grid it holds. The default `gamma = 1.0` of `Room.create` is not modelled: `gamma` is always supplied.
- The rendering cache is reduced to the grid it holds. Observation, reward and termination functions are opaque parameters. The default strategies of `Room.create` (`observations.rgb`, `tasks.navigation`, `terminations.on_navigation_completion`) are not modelled.
- `Environment.step` and the timestep bookkeeping after `reset` live in `navix/environments/environment.py`, which is not part of this model.
- The entity dictionary's iteration order in `_can_spawn_there` is not modelled. The per-kind results are combined by conjunction, which does not depend on order.
- `_can_spawn_there` is annotated as returning a pair with an events manager, but it returns a single boolean. The model follows the returned value.
- The player is stored as a batch of one entity, like the other kinds. Fields a kind does not carry are empty sequences.
- `examples/interactive_env.py` (drawing, event loop, agents) is user-interface code with no modellable invariants.
