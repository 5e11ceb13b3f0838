/** The step logic of the engine: action dispatch, the stochastic ball pass
    that follows it, and the occupancy predicate that pass consults. */
module Transitions {
  import Rng
  import opened Grids
  import opened Entities
  import opened States

  /** Number of random headings a ball tries before it gives up. */
  const ATTEMPTS: nat := 3
  /** Headings are drawn from `[0, HEADINGS)`. */
  const HEADINGS: int := 4

  // ---------------------------------------------------------------------
  // Action dispatch

  /** Reference reading of the dispatch: walk the whole table in order and
      apply entry `i` only when `i` is the selected index, passing the state
      through every other entry untouched. */
  function MaskedWalk(s: State, action: int, actions: seq<State -> State>): State
    decreases |actions|
  {
    if |actions| == 0 then s
    else MaskedWalk(if action == 0 then actions[0](s) else s, action - 1, actions[1..])
  }

  lemma {:induction false} MaskedWalkPastEnd(s: State, action: int, actions: seq<State -> State>)
    requires action < 0
    ensures MaskedWalk(s, action, actions) == s
    decreases |actions|
  {
    if |actions| > 0 {
      MaskedWalkPastEnd(s, action - 1, actions[1..]);
    }
  }

  /** Walking the table applies the selected entry, and only that one. */
  lemma {:induction false} DispatchAppliesOnlySelected(s: State, action: int, actions: seq<State -> State>)
    requires 0 <= action < |actions|
    ensures MaskedWalk(s, action, actions) == actions[action](s)
    decreases |actions|
  {
    if action == 0 {
      MaskedWalkPastEnd(actions[0](s), -1, actions[1..]);
    } else {
      DispatchAppliesOnlySelected(s, action - 1, actions[1..]);
      assert actions[1..][action - 1] == actions[action];
    }
  }

  /** `jax.lax.switch(action, actions_set, state)`: one entry of the table
      is selected by index and applied; no other entry takes effect. */
  function DeterministicTransition(s: State, action: int, actions: seq<State -> State>): (r: State)
    requires 0 <= action < |actions|
    ensures r == MaskedWalk(s, action, actions)
  {
    DispatchAppliesOnlySelected(s, action, actions);
    actions[action](s)
  }

  /** Replacing any entry other than the selected one leaves the result as it was. */
  lemma DispatchIgnoresOtherEntries(s: State, action: int, actions: seq<State -> State>, i: int, f: State -> State)
    requires 0 <= action < |actions| && 0 <= i < |actions| && i != action
    ensures DeterministicTransition(s, action, actions[i := f]) == DeterministicTransition(s, action, actions)
  {
  }

  // ---------------------------------------------------------------------
  // Occupancy

  /** `_can_spawn_there`: the grid cell at `pos` must be 0, and for every
      kind present, `any(not positions_equal(batch, pos)[0])` must hold. */
  predicate CanSpawnThere(ops: GridOps, s: State, pos: Position)
    ensures CellAt(s.grid, pos) != 0 ==> !CanSpawnThere(ops, s, pos)
    ensures ops.Valid() ==>
      forall k :: k in s.entities && |s.entities[k].position| == 1 && s.entities[k].position[0] == pos
        ==> !CanSpawnThere(ops, s, pos)
  {
    && CellAt(s.grid, pos) == 0
    && forall k :: k in s.entities ==> AnyFalse(ops.obstructs(s.entities[k].position, pos))
  }

  /** When every kind present holds exactly one entity, the predicate is the
      idealised one: a walkable cell that no entity sits on. */
  lemma CanSpawnThereSingletons(ops: GridOps, s: State, pos: Position)
    requires ops.Valid()
    requires forall k :: k in s.entities ==> |s.entities[k].position| == 1
    ensures CanSpawnThere(ops, s, pos) <==>
      CellAt(s.grid, pos) == 0 && forall k :: k in s.entities ==> s.entities[k].position[0] != pos
  {
  }

  /** Under the reading where `[0]` keeps only the first entity's comparison,
      a cell is accepted whenever it is walkable and the FIRST entity of each
      kind is elsewhere, even if a later entity of a kind occupies it. */
  lemma OnlyFirstEntityChecked(translate: (Position, int) -> Position, s: State, pos: Position)
    requires CellAt(s.grid, pos) == 0
    requires forall k :: k in s.entities ==> |s.entities[k].position| > 0 && s.entities[k].position[0] != pos
    ensures GridOps(translate, FirstEntityOnly).Valid()
    ensures CanSpawnThere(GridOps(translate, FirstEntityOnly), s, pos)
  {
    var ops := GridOps(translate, FirstEntityOnly);
    forall batch: seq<Position>, p: Position | |batch| == 1
      ensures AnyFalse(ops.obstructs(batch, p)) <==> batch[0] != p
    {
      var v := ops.obstructs(batch, p);
      assert v == FirstEntityOnly(batch, p) == [batch[0] == p];
      if batch[0] != p {
        assert !v[0];
      }
      assert AnyFalse(v) ==> !v[0];
    }
    forall k | k in s.entities
      ensures AnyFalse(ops.obstructs(s.entities[k].position, pos))
    {
      var v := ops.obstructs(s.entities[k].position, pos);
      assert v == FirstEntityOnly(s.entities[k].position, pos) == [false];
      assert !v[0];
    }
  }

  // ---------------------------------------------------------------------
  // The ball pass

  /** The closure environment of `update_balls`: the generator, the grid
      helpers, and the state as it was when the pass began. */
  datatype Mover = Mover(prng: Rng.Prng, ops: GridOps, snapshot: State)

  /** The scan carry of `try_one_direction`: the position so far and whether
      an attempt has already succeeded. */
  datatype Carry = Carry(pos: Position, found: bool)

  /** The cell an attempt with key `k` proposes: always one step from the
      ball's original position, in a heading drawn from `[0, 4)`. */
  function Candidate(m: Mover, origin: Position, k: Rng.Key): Position {
    m.ops.translate(origin, m.prng.randint(k, 0, HEADINGS))
  }

  /** Whether the snapshot lets the attempt with key `k` through. */
  predicate Accepts(m: Mover, origin: Position, k: Rng.Key) {
    CanSpawnThere(m.ops, m.snapshot, Candidate(m, origin, k))
  }

  /** `j` is the index of the first attempt in `keys` that is accepted. */
  predicate FirstAccepted(m: Mover, origin: Position, keys: seq<Rng.Key>, j: int) {
    && 0 <= j < |keys|
    && Accepts(m, origin, keys[j])
    && forall i :: 0 <= i < j ==> !Accepts(m, origin, keys[i])
  }

  /** `try_one_direction`: one attempt. Once an earlier attempt succeeded
      the carry passes through; otherwise an accepted candidate, built from
      the original position and not from the carry, replaces it. */
  function TryOneDirection(m: Mover, origin: Position, c: Carry, k: Rng.Key): (r: Carry)
    ensures c.found ==> r == c
    ensures !c.found && !Accepts(m, origin, k) ==> r == c
    ensures !c.found && Accepts(m, origin, k) ==> r == Carry(Candidate(m, origin, k), true)
  {
    var direction := m.prng.randint(k, 0, HEADINGS);
    var newPosition := m.ops.translate(origin, direction);
    var canMove := CanSpawnThere(m.ops, m.snapshot, newPosition);
    var nextPos := if c.found then c.pos else if canMove then newPosition else c.pos;
    Carry(nextPos, c.found || canMove)
  }

  /** `jax.lax.scan(try_one_direction, carry, keys)`, keeping the final carry
      (the stacked per-step outputs are discarded by the caller). */
  function Scan(m: Mover, origin: Position, c: Carry, keys: seq<Rng.Key>): (r: Carry)
    decreases |keys|
    ensures c.found ==> r == c
    ensures !c.found ==> (r.found <==> exists j :: 0 <= j < |keys| && Accepts(m, origin, keys[j]))
    ensures !c.found && !r.found ==> r == c
    ensures !c.found ==> forall j :: FirstAccepted(m, origin, keys, j) ==> r == Carry(Candidate(m, origin, keys[j]), true)
    ensures !c.found && r.found ==> exists j :: FirstAccepted(m, origin, keys, j)
  {
    if |keys| == 0 then c
    else
      var r := Scan(m, origin, TryOneDirection(m, origin, c, keys[0]), keys[1..]);
      if c.found then r
      else if Accepts(m, origin, keys[0]) then
        assert FirstAccepted(m, origin, keys, 0);
        FirstAcceptedUnique(m, origin, keys, 0);
        r
      else
        FirstAcceptedShift(m, origin, keys);
        assert r.found ==> exists j :: 0 <= j < |keys[1..]| && Accepts(m, origin, keys[1..][j]);
        r
  }

  /** At most one index is the first accepted one. */
  lemma FirstAcceptedUnique(m: Mover, origin: Position, keys: seq<Rng.Key>, j: int)
    requires FirstAccepted(m, origin, keys, j)
    ensures forall i :: FirstAccepted(m, origin, keys, i) ==> i == j
  {
  }

  /** When the first attempt is rejected, the first accepted attempt of the
      whole sequence is one past the first accepted attempt of its tail. */
  lemma FirstAcceptedShift(m: Mover, origin: Position, keys: seq<Rng.Key>)
    requires |keys| > 0 && !Accepts(m, origin, keys[0])
    ensures forall j :: FirstAccepted(m, origin, keys[1..], j) <==> FirstAccepted(m, origin, keys, j + 1)
    ensures !FirstAccepted(m, origin, keys, 0)
  {
  }

  /** `try_movements`: three attempts, keyed by `split(key, 3)`, all from the
      ball's original position; the first accepted one wins, and the ball
      stays put when none is. */
  function TryMovements(m: Mover, origin: Position, key: Rng.Key): (r: Position)
    requires m.prng.Valid()
    ensures var ak := m.prng.split(key, ATTEMPTS);
      (forall j :: 0 <= j < ATTEMPTS ==> !Accepts(m, origin, ak[j])) ==> r == origin
    ensures var ak := m.prng.split(key, ATTEMPTS);
      forall j :: FirstAccepted(m, origin, ak, j) ==> r == Candidate(m, origin, ak[j])
  {
    Scan(m, origin, Carry(origin, false), m.prng.split(key, ATTEMPTS)).pos
  }

  /** A ball either stays or moves one step, in one of the four headings, to
      a cell the snapshot accepts. */
  lemma TryMovementsOutcome(m: Mover, origin: Position, key: Rng.Key)
    requires m.prng.Valid()
    ensures var r := TryMovements(m, origin, key);
      || r == origin
      || exists d :: 0 <= d < HEADINGS && r == m.ops.translate(origin, d) && CanSpawnThere(m.ops, m.snapshot, r)
  {
  }

  /** `vmap(try_movements)(balls, keys[1:])`: ball `i` is moved with key `i + 1`. */
  function MovePositions(m: Mover, positions: seq<Position>, keys: seq<Rng.Key>): (r: seq<Position>)
    requires m.prng.Valid() && |keys| == |positions| + 1
    ensures |r| == |positions|
    ensures forall i :: 0 <= i < |positions| ==> r[i] == TryMovements(m, positions[i], keys[i + 1])
  {
    seq(|positions|, i requires 0 <= i < |positions| => TryMovements(m, positions[i], keys[i + 1]))
  }

  /** `update_balls`: when the world holds balls, split the state key into
      `n + 1` keys, keep the first as the new state key, and move ball `i`
      with key `i + 1`, every attempt consulting the pre-pass state. */
  function UpdateBalls(prng: Rng.Prng, ops: GridOps, s: State): (r: State)
    requires prng.Valid()
    ensures Ball !in s.entities ==> r == s
    ensures r.grid == s.grid && r.entities.Keys == s.entities.Keys
    ensures forall k :: k in s.entities && k != Ball ==> r.entities[k] == s.entities[k]
    ensures Ball in s.entities ==>
      var balls := s.entities[Ball];
      var keys := prng.split(s.key, |balls.position| + 1);
      && r.key == keys[0]
      && r.entities[Ball].direction == balls.direction
      && r.entities[Ball].tag == balls.tag
      && |r.entities[Ball].position| == |balls.position|
      && forall i :: 0 <= i < |balls.position| ==>
           r.entities[Ball].position[i] == TryMovements(Mover(prng, ops, s), balls.position[i], keys[i + 1])
  {
    if Ball in s.entities then
      var balls := s.entities[Ball];
      var n := |balls.position|;
      var keys := prng.split(s.key, n + 1);
      var moved := MovePositions(Mover(prng, ops, s), balls.position, keys);
      s.SetBalls(balls.(position := moved)).(key := keys[0])
    else
      s
  }

  /** Every ball ends the pass where it was or one accepted step away. */
  lemma UpdateBallsMovesLegally(prng: Rng.Prng, ops: GridOps, s: State, i: int)
    requires prng.Valid()
    requires Ball in s.entities && 0 <= i < |s.entities[Ball].position|
    ensures var before := s.entities[Ball].position[i];
      var after := UpdateBalls(prng, ops, s).entities[Ball].position[i];
      || after == before
      || exists d :: 0 <= d < HEADINGS && after == ops.translate(before, d) && CanSpawnThere(ops, s, after)
  {
  }

  /** An accepted first attempt settles the ball, whatever the other two draw. */
  lemma FirstAttemptWins(m: Mover, origin: Position, key: Rng.Key)
    requires m.prng.Valid()
    requires Accepts(m, origin, m.prng.split(key, ATTEMPTS)[0])
    ensures TryMovements(m, origin, key) == Candidate(m, origin, m.prng.split(key, ATTEMPTS)[0])
  {
  }

  /** The key ball `i` of the pass draws its attempts from. */
  function BallKey(prng: Rng.Prng, s: State, i: int): Rng.Key
    requires prng.Valid() && Ball in s.entities && 0 <= i < |s.entities[Ball].position|
  {
    prng.split(s.key, |s.entities[Ball].position| + 1)[i + 1]
  }

  /** Ball `i` after the pass is `try_movements` of its old position with its own key. */
  lemma UpdateBallsAt(prng: Rng.Prng, ops: GridOps, s: State, i: int)
    requires prng.Valid() && Ball in s.entities && 0 <= i < |s.entities[Ball].position|
    ensures UpdateBalls(prng, ops, s).entities[Ball].position[i]
         == TryMovements(Mover(prng, ops, s), s.entities[Ball].position[i], BallKey(prng, s, i))
  {
  }

  /** Every attempt reads the pre-pass snapshot, so two balls whose first
      attempts propose the same accepted cell both move there: the pass does
      not see that the first of them already took it. */
  lemma BallsMayShareACell(prng: Rng.Prng, ops: GridOps, s: State, i: int, j: int)
    requires prng.Valid()
    requires Ball in s.entities
    requires 0 <= i < |s.entities[Ball].position| && 0 <= j < |s.entities[Ball].position| && i != j
    requires Accepts(Mover(prng, ops, s), s.entities[Ball].position[i], prng.split(BallKey(prng, s, i), ATTEMPTS)[0])
    requires Accepts(Mover(prng, ops, s), s.entities[Ball].position[j], prng.split(BallKey(prng, s, j), ATTEMPTS)[0])
    requires Candidate(Mover(prng, ops, s), s.entities[Ball].position[i], prng.split(BallKey(prng, s, i), ATTEMPTS)[0])
          == Candidate(Mover(prng, ops, s), s.entities[Ball].position[j], prng.split(BallKey(prng, s, j), ATTEMPTS)[0])
    ensures UpdateBalls(prng, ops, s).entities[Ball].position[i] == UpdateBalls(prng, ops, s).entities[Ball].position[j]
  {
    var m := Mover(prng, ops, s);
    UpdateBallsAt(prng, ops, s, i);
    UpdateBallsAt(prng, ops, s, j);
    FirstAttemptWins(m, s.entities[Ball].position[i], BallKey(prng, s, i));
    FirstAttemptWins(m, s.entities[Ball].position[j], BallKey(prng, s, j));
  }

  /** The occupancy check reads the grid and the entities, never the key. */
  lemma {:induction false} ScanIgnoresSnapshotKey(m1: Mover, m2: Mover, origin: Position, c: Carry, keys: seq<Rng.Key>)
    requires m1.prng == m2.prng && m1.ops == m2.ops
    requires m1.snapshot.grid == m2.snapshot.grid && m1.snapshot.entities == m2.snapshot.entities
    ensures Scan(m1, origin, c, keys) == Scan(m2, origin, c, keys)
    decreases |keys|
  {
    if |keys| > 0 {
      var c' := TryOneDirection(m1, origin, c, keys[0]);
      assert c' == TryOneDirection(m2, origin, c, keys[0]);
      ScanIgnoresSnapshotKey(m1, m2, origin, c', keys[1..]);
    }
  }

  /** A ball's outcome depends only on its own key and on the grid and
      entities of the pre-pass state: the pass keys of the other balls and
      the state key itself play no part. */
  lemma BallMoveIsLocal(prng: Rng.Prng, ops: GridOps, s1: State, s2: State, i: int)
    requires prng.Valid()
    requires s1.grid == s2.grid && s1.entities == s2.entities
    requires Ball in s1.entities && 0 <= i < |s1.entities[Ball].position|
    requires BallKey(prng, s1, i) == BallKey(prng, s2, i)
    ensures UpdateBalls(prng, ops, s1).entities[Ball].position[i] == UpdateBalls(prng, ops, s2).entities[Ball].position[i]
  {
    var origin := s1.entities[Ball].position[i];
    UpdateBallsAt(prng, ops, s1, i);
    UpdateBallsAt(prng, ops, s2, i);
    ScanIgnoresSnapshotKey(Mover(prng, ops, s1), Mover(prng, ops, s2), origin, Carry(origin, false),
      prng.split(BallKey(prng, s1, i), ATTEMPTS));
  }

  /** `stochastic_transition`: dispatch the action, then run the ball pass on
      the result. Only the ball batch and the key can differ from the
      dispatched state. */
  function StochasticTransition(prng: Rng.Prng, ops: GridOps, s: State, action: int, actions: seq<State -> State>): (r: State)
    requires prng.Valid()
    requires 0 <= action < |actions|
    ensures var d := actions[action](s);
      && (Ball !in d.entities ==> r == d)
      && r.grid == d.grid
      && r.entities.Keys == d.entities.Keys
      && (forall k :: k in d.entities && k != Ball ==> r.entities[k] == d.entities[k])
      && (Ball in d.entities ==> r.key == prng.split(d.key, |d.entities[Ball].position| + 1)[0])
    ensures var d := actions[action](s);
      Ball in d.entities ==>
        var balls := d.entities[Ball];
        var keys := prng.split(d.key, |balls.position| + 1);
        && r.entities[Ball].direction == balls.direction
        && r.entities[Ball].tag == balls.tag
        && |r.entities[Ball].position| == |balls.position|
        && forall i :: 0 <= i < |balls.position| ==>
             r.entities[Ball].position[i] == TryMovements(Mover(prng, ops, d), balls.position[i], keys[i + 1])
  {
    UpdateBalls(prng, ops, DeterministicTransition(s, action, actions))
  }

  /** The ball pass runs after the action, so it sees where the action put
      the player: a ball that moves never lands on the player's new cell. */
  lemma BallsAvoidMovedPlayer(prng: Rng.Prng, ops: GridOps, s: State, action: int, actions: seq<State -> State>, i: int)
    requires prng.Valid() && ops.Valid()
    requires 0 <= action < |actions|
    requires var d := actions[action](s);
      && Ball in d.entities && Player in d.entities
      && |d.entities[Player].position| == 1
      && 0 <= i < |d.entities[Ball].position|
    ensures var d := actions[action](s);
      var r := StochasticTransition(prng, ops, s, action, actions);
      || r.entities[Ball].position[i] == d.entities[Ball].position[i]
      || r.entities[Ball].position[i] != d.entities[Player].position[0]
  {
    UpdateBallsMovesLegally(prng, ops, actions[action](s), i);
  }
}
