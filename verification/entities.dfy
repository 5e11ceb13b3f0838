/** Entities grouped by kind, and the state and timestep records built from
    them. Every record is an immutable value; updates return a new copy. */
module Entities {
  import opened Grids

  /** The closed set of entity kinds; `KeyItem` is the key an agent can pick up. */
  datatype Kind = Player | Goal | KeyItem | Door | Ball | Wall

  /** A batch of entities of one kind, stored as parallel sequences. A field
      the kind does not carry is the empty sequence. */
  datatype Batch = Batch(position: seq<Position>, direction: seq<int>, tag: seq<int>)
}

module States {
  import Rng
  import opened Grids
  import opened Entities

  /** The world state: the PRNG key, the static grid, and one batch per kind
      present in the world. */
  datatype State = State(key: Rng.Key, grid: Grid, entities: map<Kind, Batch>)
  {
    /** `State.set_balls`: replace the ball batch, leaving everything else. */
    function SetBalls(balls: Batch): (r: State)
      ensures r.entities.Keys == entities.Keys + {Ball}
      ensures r.entities[Ball] == balls
      ensures forall k :: k in entities && k != Ball ==> r.entities[k] == entities[k]
      ensures r.key == key && r.grid == grid
    {
      this.(entities := entities[Ball := balls])
    }
  }

  /** The step-type code of an ordinary, non-final timestep. */
  const TRANSITION: int := 0

  /** The output of `reset` and `step`; the observation type is a parameter
      because observations are produced by an external strategy. */
  datatype Timestep<O> = Timestep(
    t: int,
    observation: O,
    action: int,
    reward: real,
    stepType: int,
    state: State)
}
