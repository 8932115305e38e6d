/**
  The depth-first solver. So far it is a stub: it holds the cube it was made
  with and hands it back, unchanged, the first time it is asked to solve.
 */
module Solver {
  import opened Wrappers
  import opened Cube

  class CubeSolver {
    /** The cube still to be solved; `None` once `Solve` has taken it. */
    var cube: Option<Cube3x3x3>
    /** The moves found so far. Nothing adds to it. */
    var moves: seq<Move>

    constructor (cube: Cube3x3x3)
      ensures this.cube == Some(cube)
      ensures moves == []
    {
      this.cube := Some(cube);
      moves := [];
    }

    /** Takes the stored cube out of the solver, leaving `None` behind. */
    method Solve() returns (solved: Option<Cube3x3x3>)
      modifies this
      ensures solved == old(cube)
      ensures cube == None
      ensures moves == old(moves)
    {
      solved := cube;
      cube := None;
    }
  }

  /**
    A fresh solver gives back the cube it was built with on the first call to
    `Solve`, and nothing on the second: a solver serves once.
   */
  method SolveTwice(c: Cube3x3x3) returns (first: Option<Cube3x3x3>, second: Option<Cube3x3x3>)
    ensures first == Some(c)
    ensures second == None
  {
    var solver := new CubeSolver(c);
    first := solver.Solve();
    second := solver.Solve();
  }
}
