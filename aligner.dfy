/**
 * The Gauss-Newton image aligner, seen only through the interface the
 * tracking workers use.  What `iterate` does to the parameters, and what the
 * RMSE of a parameter vector is against the current camera frame, are inputs
 * to the model: each call of `iterate` is given the outcome it reports.
 */
module Aligner {
  import opened JavaNumbers

  /**
   * One call of `iterate`: whether it reports convergence, the pyramid level
   * and parameters it leaves behind, and the clock readings taken just before
   * and just after the call.
   */
  datatype Iteration = Iteration(
    converged: bool,
    levelAfter: nat,
    parametersAfter: seq<real>,
    startClock: int,
    endClock: int)

  /**
   * What one target image makes of the aligner's error measure: the RMSE of
   * each parameter vector and pyramid level that a run measures, and the
   * value of every other one.
   */
  datatype Objective = Objective(measured: map<(seq<real>, nat), Double>, otherwise: Double)

  /** The RMSE of parameter vector `p` at pyramid level `level` against the target `o`. */
  function Rmse(o: Objective, p: seq<real>, level: nat): Double
  {
    if (p, level) in o.measured then o.measured[(p, level)] else o.otherwise
  }

  class ImageAligner {
    var parameters: seq<real>
    var level: nat
    var objective: Objective
    const levels: nat

    predicate Valid()
      reads this
    {
      level < levels
    }

    constructor (parameters: seq<real>, level: nat, levels: nat, objective: Objective)
      requires level < levels
      ensures Valid()
      ensures this.parameters == parameters && this.level == level
      ensures this.levels == levels && this.objective == objective
    {
      this.parameters := parameters;
      this.level := level;
      this.levels := levels;
      this.objective := objective;
    }

    /** `getRMSE()`: the objective at the current parameters and level. */
    function RMSE(): Double
      reads this
    {
      Rmse(objective, parameters, level)
    }

    /** `setParameters(p)`: the aligner now holds a copy of `p`. */
    method SetParameters(p: seq<real>)
      modifies this
      ensures parameters == p
      ensures level == old(level) && objective == old(objective)
    {
      parameters := p;
    }

    /** `setPyramidLevel(l)`. */
    method SetPyramidLevel(l: nat)
      requires l < levels
      modifies this
      ensures level == l
      ensures parameters == old(parameters) && objective == old(objective)
    {
      level := l;
    }

    /** `setTargetImage(image)`: later RMSE values are measured against the new frame. */
    method SetTargetImage(o: Objective)
      modifies this
      ensures objective == o
      ensures parameters == old(parameters) && level == old(level)
    {
      objective := o;
    }

    /** `iterate(delta)`: one Gauss-Newton step, whose outcome is `it`. */
    method Iterate(it: Iteration) returns (converged: bool)
      requires it.levelAfter < levels
      modifies this
      ensures converged == it.converged
      ensures parameters == it.parametersAfter && level == it.levelAfter
      ensures objective == old(objective)
    {
      parameters := it.parametersAfter;
      level := it.levelAfter;
      converged := it.converged;
    }
  }
}
