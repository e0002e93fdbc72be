/**
 * The per-frame bookkeeping rules the tracking workers apply around the
 * aligner: writing the gain/ambient-light slice of the parameter vector,
 * resetting that slice when a value leaves [0, 2], choosing between the new
 * and the previous parameters by their RMSE at an audit level, the lost-track
 * counter, and the time-budgeted iteration loop.
 */
module ParameterRules {
  import opened JavaNumbers
  import opened Aligner

  // ---------------------------------------------------------------------
  // Gain and ambient-light slice

  /** Copies `values` over `params` from index `start` on, one `parameters.set(i, v)` per entry. */
  method WriteSlice(params: seq<real>, start: nat, values: seq<real>) returns (r: seq<real>)
    requires start + |values| <= |params|
    ensures |r| == |params|
    ensures r[..start] == params[..start]
    ensures r[start..start + |values|] == values
    ensures r[start + |values|..] == params[start + |values|..]
  {
    r := params;
    var i := start;
    while i < start + |values|
      invariant start <= i <= start + |values|
      invariant |r| == |params|
      invariant forall j :: 0 <= j < start ==> r[j] == params[j]
      invariant forall j :: start <= j < i ==> r[j] == values[j - start]
      invariant forall j :: i <= j < |r| ==> r[j] == params[j]
    {
      r := r[i := values[i - start]];
      i := i + 1;
    }
    assert r[start..start + |values|] == values;
  }

  /** A gain or ambient-light value the trackers accept: one inside [0, 2]. */
  predicate InGainRange(v: real)
  {
    !(v < 0.0 || v > 2.0)
  }

  predicate SliceInRange(p: seq<real>, from: nat, to: nat)
    requires from <= to <= |p|
  {
    forall i :: from <= i < to ==> InGainRange(p[i])
  }

  /**
   * The reset rule: when any entry of [from, to) is outside [0, 2], the whole
   * slice is taken back from `last`; otherwise nothing changes.
   */
  function ResetSlice(params: seq<real>, last: seq<real>, from: nat, to: nat): (r: seq<real>)
    requires from <= to <= |params| == |last|
    ensures |r| == |params|
    ensures r[..from] == params[..from] && r[to..] == params[to..]
    ensures r[from..to] == (if SliceInRange(params, from, to) then params else last)[from..to]
  {
    if SliceInRange(params, from, to) then params
    else params[..from] + last[from..to] + params[to..]
  }

  /** After the reset the slice is within [0, 2] whenever the previous frame's slice was. */
  lemma ResetLandsInRange(params: seq<real>, last: seq<real>, from: nat, to: nat)
    requires from <= to <= |params| == |last|
    requires SliceInRange(last, from, to)
    ensures SliceInRange(ResetSlice(params, last, from, to), from, to)
  {
    var r := ResetSlice(params, last, from, to);
    forall i | from <= i < to
      ensures InGainRange(r[i])
    {
      assert r[i] == r[from..to][i - from];
    }
  }

  /** Resetting twice against the same in-range `last` is the same as resetting once. */
  lemma ResetIdempotent(params: seq<real>, last: seq<real>, from: nat, to: nat)
    requires from <= to <= |params| == |last|
    requires SliceInRange(last, from, to)
    ensures ResetSlice(ResetSlice(params, last, from, to), last, from, to) ==
            ResetSlice(params, last, from, to)
  {
    ResetLandsInRange(params, last, from, to);
  }

  /**
   * The two loops of the reset: a scan that stops at the first entry outside
   * [0, 2], then, if one was found, a copy of the slice from `last`.
   */
  method ResetGainAmbient(params: seq<real>, last: seq<real>, from: nat, to: nat)
    returns (reset: bool, r: seq<real>)
    requires from <= to <= |params| == |last|
    ensures reset <==> !SliceInRange(params, from, to)
    ensures r == ResetSlice(params, last, from, to)
  {
    reset := false;
    var i := from;
    while i < to
      invariant from <= i <= to
      invariant !reset ==> SliceInRange(params, from, i)
      invariant reset ==> !SliceInRange(params, from, to)
    {
      var p := params[i];
      if p < 0.0 || p > 2.0 {
        reset := true;
        break;
      }
      i := i + 1;
    }
    r := params;
    if reset {
      i := from;
      while i < to
        invariant from <= i <= to
        invariant |r| == |params|
        invariant forall j :: 0 <= j < from ==> r[j] == params[j]
        invariant forall j :: from <= j < i ==> r[j] == last[j]
        invariant forall j :: i <= j < |r| ==> r[j] == params[j]
      {
        r := r[i := last[i]];
        i := i + 1;
      }
      assert r == params[..from] + last[from..to] + params[to..];
    }
  }

  // ---------------------------------------------------------------------
  // RMSE audit

  /**
   * The parameters the aligner holds after an audit at `level`: the new ones
   * when their RMSE is strictly below the previous frame's, else the previous.
   */
  function AuditChoice(current: seq<real>, last: seq<real>, objective: Objective, level: nat): (chosen: seq<real>)
    ensures chosen == current || chosen == last
    ensures chosen == current <==> (current == last || Less(Rmse(objective, current, level), Rmse(objective, last, level)))
  {
    if Less(Rmse(objective, current, level), Rmse(objective, last, level)) then current else last
  }

  /**
   * The audit never ends at an RMSE above the previous frame's: it keeps the
   * previous RMSE or a strictly smaller one, and between two finite RMSE
   * values it keeps the smaller.
   */
  lemma AuditNeverWorse(current: seq<real>, last: seq<real>, objective: Objective, level: nat)
    ensures var e := Rmse(objective, AuditChoice(current, last, objective, level), level);
            e == Rmse(objective, last, level) || Less(e, Rmse(objective, last, level))
    ensures Rmse(objective, current, level).Finite? && Rmse(objective, last, level).Finite? ==>
            Rmse(objective, AuditChoice(current, last, objective, level), level).value ==
            MinReal(Rmse(objective, current, level).value, Rmse(objective, last, level).value)
  {
  }

  /**
   * The parameters the aligner holds after the reset of the last
   * `sliceLength` entries and, when `auditLevel` is not negative, the audit.
   */
  function Audited(p: seq<real>, last: seq<real>, objective: Objective, sliceLength: nat, auditLevel: int): seq<real>
    requires sliceLength <= |p| == |last|
  {
    var r := ResetSlice(p, last, |p| - sliceLength, |p|);
    if auditLevel >= 0 then AuditChoice(r, last, objective, auditLevel) else r
  }

  // ---------------------------------------------------------------------
  // Lost-track counter

  /** A frame whose outlier count reaches `outlierRatioMax` times its pixel count. */
  predicate BadFrame(outlierRatioMax: real, outlierCount: nat, pixelCount: nat)
  {
    outlierRatioMax > 0.0 && outlierCount as real >= outlierRatioMax * pixelCount as real
  }

  /** `lostCount` after one more frame: incremented on a bad frame, else reset to 0. */
  function NextLostCount(count: nat, bad: bool): nat
  {
    if bad then count + 1 else 0
  }

  /** The counter after a run of frames, starting at 0. */
  function LostCountAfter(bads: seq<bool>): nat
  {
    if |bads| == 0 then 0 else NextLostCount(LostCountAfter(bads[..|bads| - 1]), bads[|bads| - 1])
  }

  /** Frames `i - 1` and `i` are both bad. */
  predicate SecondConsecutiveBad(bads: seq<bool>, i: int)
  {
    1 <= i < |bads| && bads[i - 1] && bads[i]
  }

  /**
   * While no two consecutive frames have been bad, the counter is 1 exactly
   * after a bad frame and 0 otherwise; so the next frame makes it exceed 1
   * exactly when both it and the last frame are bad.
   */
  lemma {:induction false} LostCounterFiresOnSecondBad(bads: seq<bool>, next: bool)
    requires forall i :: 0 <= i < |bads| ==> !SecondConsecutiveBad(bads, i)
    ensures LostCountAfter(bads) == (if |bads| > 0 && bads[|bads| - 1] then 1 else 0)
    ensures NextLostCount(LostCountAfter(bads), next) > 1 <==> |bads| > 0 && bads[|bads| - 1] && next
  {
    if |bads| > 0 {
      var prefix := bads[..|bads| - 1];
      forall i | 0 <= i < |prefix|
        ensures !SecondConsecutiveBad(prefix, i)
      {
        assert !SecondConsecutiveBad(bads, i);
      }
      LostCounterFiresOnSecondBad(prefix, bads[|bads| - 1]);
      if |prefix| > 0 {
        assert !SecondConsecutiveBad(bads, |bads| - 1);
      }
    }
  }

  /**
   * One more frame, while no two bad frames have followed each other: the
   * counter follows `NextLostCount`, exceeds 1 exactly when the new frame
   * makes the second bad one in a row, and the earlier frames stay clear.
   */
  lemma LostCounterStep(bads: seq<bool>, next: bool)
    requires forall i :: 0 <= i < |bads| ==> !SecondConsecutiveBad(bads, i)
    ensures LostCountAfter(bads + [next]) == NextLostCount(LostCountAfter(bads), next)
    ensures NextLostCount(LostCountAfter(bads), next) > 1 <==> SecondConsecutiveBad(bads + [next], |bads|)
    ensures forall i :: 0 <= i < |bads| ==> !SecondConsecutiveBad(bads + [next], i)
  {
    LostCounterFiresOnSecondBad(bads, next);
    assert (bads + [next])[..|bads|] == bads;
    forall i | 0 <= i < |bads|
      ensures !SecondConsecutiveBad(bads + [next], i)
    {
      assert !SecondConsecutiveBad(bads, i);
    }
  }

  // ---------------------------------------------------------------------
  // Time-budgeted iteration loop

  /** The time spent inside `iterate`, summed over the calls. */
  function Elapsed(its: seq<Iteration>): int
  {
    if |its| == 0 then 0
    else Elapsed(its[..|its| - 1]) + (its[|its| - 1].endClock - its[|its| - 1].startClock)
  }

  /** The loop stops after call `k`: the aligner converged or the time budget is spent. */
  predicate StopsAfter(its: seq<Iteration>, k: nat, timeMax: int)
    requires k < |its|
  {
    its[k].converged || (timeMax > 0 && Elapsed(its[..k + 1]) > timeMax)
  }

  /**
   * The parameters an aligner holds after a frame whose calls are `its`:
   * those after call `n - 1`, the first that stops within `timeMax`, with
   * the slice reset to `before` and, when `auditLevel` is not negative,
   * audited against `objective`.
   */
  predicate FrameAudited(its: seq<Iteration>, timeMax: int, n: nat, before: seq<real>, objective: Objective,
                         sliceLength: nat, auditLevel: int, parameters: seq<real>)
  {
    FirstStop(its, n, timeMax) && sliceLength <= |its[n - 1].parametersAfter| == |before| &&
    parameters == Audited(its[n - 1].parametersAfter, before, objective, sliceLength, auditLevel)
  }

  /** Call `n - 1` is the first after which the loop stops within `timeMax`. */
  predicate FirstStop(its: seq<Iteration>, n: nat, timeMax: int)
  {
    1 <= n <= |its| && StopsAfter(its, n - 1, timeMax) && forall k :: 0 <= k < n - 1 ==> !StopsAfter(its, k, timeMax)
  }

  /** The pyramid level the aligner is at when call `k` starts. */
  function LevelBefore(its: seq<Iteration>, initialLevel: nat, k: nat): nat
    requires k <= |its|
  {
    if k == 0 then initialLevel else its[k - 1].levelAfter
  }

  /** How many of the first `n` calls start at level `l`. */
  function CallsAtLevel(its: seq<Iteration>, initialLevel: nat, n: nat, l: nat): nat
    requires n <= |its|
  {
    if n == 0 then 0
    else CallsAtLevel(its, initialLevel, n - 1, l) + (if LevelBefore(its, initialLevel, n - 1) == l then 1 else 0)
  }

  function Sum(s: seq<nat>): nat
  {
    if |s| == 0 then 0 else Sum(s[..|s| - 1]) + s[|s| - 1]
  }

  /** A helper for the per-level counters, which start at zero: a sum of zeros is zero. */
  lemma {:induction false} SumZeros(n: nat)
    ensures Sum(seq(n, _ => 0)) == 0
  {
    if n > 0 {
      assert seq(n, _ => 0)[..n - 1] == seq(n - 1, _ => 0);
      SumZeros(n - 1);
    }
  }

  /** Incrementing one entry increments the sum. */
  lemma {:induction false} SumIncrement(s: seq<nat>, p: nat)
    requires p < |s|
    ensures Sum(s[p := s[p] + 1]) == Sum(s) + 1
  {
    var t := s[p := s[p] + 1];
    if p == |s| - 1 {
      assert t[..|t| - 1] == s[..|s| - 1];
    } else {
      assert t[..|t| - 1] == s[..|s| - 1][p := s[p] + 1];
      SumIncrement(s[..|s| - 1], p);
    }
  }

  /** `counts` holds, per level below `levels`, how many of the first `n` calls started there. */
  ghost predicate Counted(counts: seq<nat>, its: seq<Iteration>, initialLevel: nat, n: nat, levels: nat)
    requires n <= |its|
  {
    |counts| == levels && Sum(counts) == n &&
    forall l :: 0 <= l < levels ==> counts[l] == CallsAtLevel(its, initialLevel, n, l)
  }

  /** Counting call `n` at the level it starts from keeps the per-level counts right. */
  lemma CountedStep(counts: seq<nat>, its: seq<Iteration>, initialLevel: nat, n: nat, levels: nat)
    requires n < |its| && Counted(counts, its, initialLevel, n, levels)
    requires LevelBefore(its, initialLevel, n) < levels
    ensures var p := LevelBefore(its, initialLevel, n);
            Counted(counts[p := counts[p] + 1], its, initialLevel, n + 1, levels)
  {
    SumIncrement(counts, LevelBefore(its, initialLevel, n));
  }

  /** The summing loop over the per-level counts. */
  method SumCounts(counts: seq<nat>) returns (total: nat)
    ensures total == Sum(counts)
  {
    total := 0;
    var i := 0;
    while i < |counts|
      invariant 0 <= i <= |counts|
      invariant total == Sum(counts[..i])
    {
      assert counts[..i + 1][..i] == counts[..i];
      total := total + counts[i];
      i := i + 1;
    }
    assert counts[..|counts|] == counts;
  }

  /**
   * The inner iteration loop of a frame: call `iterate` until it reports
   * convergence or, when `timeMax` is positive, until the summed time of the
   * calls exceeds it; count the calls per starting pyramid level, then add the
   * counts up.  `its` holds what each call reports; one of them must stop the
   * loop.
   */
  method IterateWithinBudget(aligner: ImageAligner, its: seq<Iteration>, timeMax: int)
    returns (n: nat, iteratingTime: int, iterationsPerLevel: seq<nat>, iterations: nat)
    requires aligner.Valid()
    requires forall k :: 0 <= k < |its| ==> its[k].levelAfter < aligner.levels
    requires exists k :: 0 <= k < |its| && StopsAfter(its, k, timeMax)
    modifies aligner
    ensures 1 <= n <= |its|
    ensures StopsAfter(its, n - 1, timeMax)
    ensures forall k :: 0 <= k < n - 1 ==> !StopsAfter(its, k, timeMax)
    ensures iteratingTime == Elapsed(its[..n])
    ensures |iterationsPerLevel| == aligner.levels
    ensures forall l :: 0 <= l < aligner.levels ==>
              iterationsPerLevel[l] == CallsAtLevel(its, old(aligner.level), n, l)
    ensures iterations == n
    ensures aligner.Valid()
    ensures aligner.parameters == its[n - 1].parametersAfter && aligner.level == its[n - 1].levelAfter
    ensures aligner.objective == old(aligner.objective)
  {
    ghost var stop :| 0 <= stop < |its| && StopsAfter(its, stop, timeMax);
    ghost var initialLevel := aligner.level;
    var converged := false;
    n := 0;
    iteratingTime := 0;
    iterationsPerLevel := seq(aligner.levels, _ => 0);
    SumZeros(aligner.levels);
    while !converged
      invariant 0 <= n <= |its| && n <= stop + 1
      invariant forall k :: 0 <= k < n - 1 ==> !StopsAfter(its, k, timeMax)
      invariant converged <==> n >= 1 && StopsAfter(its, n - 1, timeMax)
      invariant iteratingTime == Elapsed(its[..n])
      invariant aligner.Valid() && aligner.level == LevelBefore(its, initialLevel, n)
      invariant n >= 1 ==> aligner.parameters == its[n - 1].parametersAfter
      invariant aligner.objective == old(aligner.objective)
      invariant Counted(iterationsPerLevel, its, initialLevel, n, aligner.levels)
      decreases stop + 1 - n
    {
      var p := aligner.level;
      CountedStep(iterationsPerLevel, its, initialLevel, n, aligner.levels);
      converged := aligner.Iterate(its[n]);
      var time := its[n].endClock - its[n].startClock;
      iteratingTime := iteratingTime + time;
      assert its[..n + 1][..n] == its[..n];
      iterationsPerLevel := iterationsPerLevel[p := iterationsPerLevel[p] + 1];
      if timeMax > 0 && iteratingTime > timeMax {
        converged := true;
      }
      n := n + 1;
    }
    iterations := SumCounts(iterationsPerLevel);
  }

  /**
   * The wall-clock variant of the stop rule: the loop stops after call `k`
   * when the aligner converged or, when `timeMax` is positive, when more than
   * `timeMax` has passed between `loopStart` and the end of the call.
   */
  predicate StopsByDeadline(its: seq<Iteration>, k: nat, loopStart: int, timeMax: int)
    requires k < |its|
  {
    its[k].converged || (timeMax > 0 && its[k].endClock - loopStart > timeMax)
  }

  /** Call `n - 1` is the first after which the loop stops by the deadline. */
  predicate FirstStopByDeadline(its: seq<Iteration>, n: nat, loopStart: int, timeMax: int)
  {
    1 <= n <= |its| && StopsByDeadline(its, n - 1, loopStart, timeMax) &&
    forall k :: 0 <= k < n - 1 ==> !StopsByDeadline(its, k, loopStart, timeMax)
  }

  /** Each call starts when the previous one ended, the first one when the loop started. */
  predicate BackToBack(its: seq<Iteration>, loopStart: int)
  {
    (|its| > 0 ==> its[0].startClock == loopStart) &&
    forall k :: 0 < k < |its| ==> its[k].startClock == its[k - 1].endClock
  }

  /** With no time between the calls, the wall-clock time since the loop started is the summed time of the calls. */
  lemma {:induction false} WallClockIsSummedTime(its: seq<Iteration>, loopStart: int, k: nat)
    requires BackToBack(its, loopStart) && k < |its|
    ensures its[k].endClock - loopStart == Elapsed(its[..k + 1])
  {
    var prefix := its[..k + 1];
    assert prefix[..k] == its[..k] && prefix[k] == its[k];
    assert Elapsed(prefix) == Elapsed(its[..k]) + (its[k].endClock - its[k].startClock);
    if k == 0 {
      assert its[..k] == [];
    } else {
      WallClockIsSummedTime(its, loopStart, k - 1);
      assert its[..k - 1 + 1] == its[..k];
    }
  }

  /** With no time between the calls, both stop rules stop after the same call. */
  lemma DeadlineMatchesBudget(its: seq<Iteration>, loopStart: int, timeMax: int, k: nat)
    requires BackToBack(its, loopStart) && k < |its|
    ensures StopsByDeadline(its, k, loopStart, timeMax) <==> StopsAfter(its, k, timeMax)
  {
    WallClockIsSummedTime(its, loopStart, k);
  }

  /**
   * The inner iteration loop with the wall-clock stop rule: call `iterate`
   * until it reports convergence or, when `timeMax` is positive, until more
   * than `timeMax` has passed since `loopStart`, counting the calls.
   */
  method IterateUntilDeadline(aligner: ImageAligner, its: seq<Iteration>, loopStart: int, timeMax: int)
    returns (iterations: nat)
    requires aligner.Valid()
    requires forall k :: 0 <= k < |its| ==> its[k].levelAfter < aligner.levels
    requires exists k :: 0 <= k < |its| && StopsByDeadline(its, k, loopStart, timeMax)
    modifies aligner
    ensures 1 <= iterations <= |its|
    ensures StopsByDeadline(its, iterations - 1, loopStart, timeMax)
    ensures forall k :: 0 <= k < iterations - 1 ==> !StopsByDeadline(its, k, loopStart, timeMax)
    ensures aligner.Valid()
    ensures aligner.parameters == its[iterations - 1].parametersAfter && aligner.level == its[iterations - 1].levelAfter
    ensures aligner.objective == old(aligner.objective)
  {
    ghost var stop :| 0 <= stop < |its| && StopsByDeadline(its, stop, loopStart, timeMax);
    var converged := false;
    iterations := 0;
    while !converged
      invariant 0 <= iterations <= |its| && iterations <= stop + 1
      invariant forall k :: 0 <= k < iterations - 1 ==> !StopsByDeadline(its, k, loopStart, timeMax)
      invariant converged <==> iterations >= 1 && StopsByDeadline(its, iterations - 1, loopStart, timeMax)
      invariant aligner.Valid()
      invariant iterations >= 1 ==> aligner.parameters == its[iterations - 1].parametersAfter &&
                                    aligner.level == its[iterations - 1].levelAfter
      invariant aligner.objective == old(aligner.objective)
      decreases stop + 1 - iterations
    {
      converged := aligner.Iterate(its[iterations]);
      var iterationEndTime := its[iterations].endClock;
      if timeMax > 0 && iterationEndTime - loopStart > timeMax {
        converged := true;
      }
      iterations := iterations + 1;
    }
  }
}
