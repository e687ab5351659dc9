/**
 * The experiment plan of `ExperimentController` and the sweep `execute_setups` makes over
 * it, as values: the nested light / distance / iteration setups, the flat sequence of
 * parameter sets they are handed to `set_params` in, and the effect of running one capture
 * sub-session per entry until the plan is done or a sub-session ends with `force_exit`.
 */
module Plan {
  import opened Session

  /** One entry of a distance setup's `iterations` list. */
  datatype Iteration = Iteration(captureType: string, repetitions: int, handSide: string)

  datatype DistanceSetup = DistanceSetup(distance: int, iterations: seq<Iteration>)

  datatype LightSetup = LightSetup(lightSetup: string, distanceSetups: seq<DistanceSetup>)

  const DefaultIterations: seq<Iteration> := [
    Iteration(GoldStandard, 1, "esquerda"),
    Iteration(FollowUp, 10, "direita")
  ]

  const Distances: seq<int> := [28, 35, 37]

  const Lights: seq<string> := ["luz-na-mao", "luz-de-lado", "luz-na-cam"]

  const DefaultDistanceSetups: seq<DistanceSetup> := [
    DistanceSetup(28, DefaultIterations),
    DistanceSetup(35, DefaultIterations),
    DistanceSetup(37, DefaultIterations)
  ]

  /** The controller's `setups`: every light, then every distance, then every iteration. */
  const DefaultSetups: seq<LightSetup> := [
    LightSetup("luz-na-mao", DefaultDistanceSetups),
    LightSetup("luz-de-lado", DefaultDistanceSetups),
    LightSetup("luz-na-cam", DefaultDistanceSetups)
  ]

  // ---------------------------------------------------------------- the flat plan

  /** The arguments of one `set_params` call. */
  function ParametersFor(volunteer: string, light: string, distance: int, it: Iteration): Parameters {
    Parameters(volunteer, light, distance, it.captureType, it.repetitions, it.handSide)
  }

  /** The `set_params` calls of the innermost loop, in order. */
  function IterationPlan(volunteer: string, light: string, distance: int, its: seq<Iteration>): (r: seq<Parameters>)
    ensures |r| == |its|
    decreases |its|
  {
    if its == [] then []
    else IterationPlan(volunteer, light, distance, its[..|its| - 1]) +
         [ParametersFor(volunteer, light, distance, its[|its| - 1])]
  }

  /** The `set_params` calls of the middle loop over one light's distance setups. */
  function DistancePlan(volunteer: string, light: string, ds: seq<DistanceSetup>): seq<Parameters>
    decreases |ds|
  {
    if ds == [] then []
    else DistancePlan(volunteer, light, ds[..|ds| - 1]) +
         IterationPlan(volunteer, light, ds[|ds| - 1].distance, ds[|ds| - 1].iterations)
  }

  /** The `set_params` calls of the whole triple loop, in order. */
  function PlanOf(volunteer: string, setups: seq<LightSetup>): seq<Parameters>
    decreases |setups|
  {
    if setups == [] then []
    else PlanOf(volunteer, setups[..|setups| - 1]) +
         DistancePlan(volunteer, setups[|setups| - 1].lightSetup, setups[|setups| - 1].distanceSetups)
  }

  lemma DefaultIterationPlan(volunteer: string, light: string, distance: int)
    ensures IterationPlan(volunteer, light, distance, DefaultIterations) ==
      [ParametersFor(volunteer, light, distance, DefaultIterations[0]),
       ParametersFor(volunteer, light, distance, DefaultIterations[1])]
  {
    var its := DefaultIterations;
    assert its[..1] == [its[0]] && its[..1][..0] == [];
    calc {
      IterationPlan(volunteer, light, distance, its);
      IterationPlan(volunteer, light, distance, its[..1]) + [ParametersFor(volunteer, light, distance, its[1])];
      IterationPlan(volunteer, light, distance, [])
        + [ParametersFor(volunteer, light, distance, its[0])]
        + [ParametersFor(volunteer, light, distance, its[1])];
    }
  }

  lemma DefaultDistancePlan(volunteer: string, light: string)
    ensures DistancePlan(volunteer, light, DefaultDistanceSetups) ==
      IterationPlan(volunteer, light, 28, DefaultIterations) +
      IterationPlan(volunteer, light, 35, DefaultIterations) +
      IterationPlan(volunteer, light, 37, DefaultIterations)
  {
    var ds := DefaultDistanceSetups;
    assert ds[..2][..1] == ds[..1] && ds[..1][..0] == [];
    calc {
      DistancePlan(volunteer, light, ds);
      DistancePlan(volunteer, light, ds[..2]) + IterationPlan(volunteer, light, 37, DefaultIterations);
      DistancePlan(volunteer, light, ds[..1]) + IterationPlan(volunteer, light, 35, DefaultIterations)
        + IterationPlan(volunteer, light, 37, DefaultIterations);
      DistancePlan(volunteer, light, []) + IterationPlan(volunteer, light, 28, DefaultIterations)
        + IterationPlan(volunteer, light, 35, DefaultIterations) + IterationPlan(volunteer, light, 37, DefaultIterations);
    }
  }

  lemma DefaultSetupsPlan(volunteer: string)
    ensures PlanOf(volunteer, DefaultSetups) ==
      DistancePlan(volunteer, Lights[0], DefaultDistanceSetups) +
      DistancePlan(volunteer, Lights[1], DefaultDistanceSetups) +
      DistancePlan(volunteer, Lights[2], DefaultDistanceSetups)
  {
    var ls := DefaultSetups;
    assert ls[..2][..1] == ls[..1] && ls[..1][..0] == [];
    calc {
      PlanOf(volunteer, ls);
      PlanOf(volunteer, ls[..2]) + DistancePlan(volunteer, Lights[2], DefaultDistanceSetups);
      PlanOf(volunteer, ls[..1]) + DistancePlan(volunteer, Lights[1], DefaultDistanceSetups)
        + DistancePlan(volunteer, Lights[2], DefaultDistanceSetups);
      PlanOf(volunteer, []) + DistancePlan(volunteer, Lights[0], DefaultDistanceSetups)
        + DistancePlan(volunteer, Lights[1], DefaultDistanceSetups) + DistancePlan(volunteer, Lights[2], DefaultDistanceSetups);
    }
  }

  lemma DefaultLightOrder(volunteer: string, light: string)
    ensures var d := DistancePlan(volunteer, light, DefaultDistanceSetups);
      |d| == 6 && forall k :: 0 <= k < 6 ==>
        d[k] == ParametersFor(volunteer, light, Distances[k / 2], DefaultIterations[k % 2])
  {
    DefaultDistancePlan(volunteer, light);
    DefaultIterationPlan(volunteer, light, 28);
    DefaultIterationPlan(volunteer, light, 35);
    DefaultIterationPlan(volunteer, light, 37);
    var d := DistancePlan(volunteer, light, DefaultDistanceSetups);
    forall k | 0 <= k < 6
      ensures d[k] == ParametersFor(volunteer, light, Distances[k / 2], DefaultIterations[k % 2])
    {
      if k < 2 {
        assert d[k] == IterationPlan(volunteer, light, 28, DefaultIterations)[k];
      } else if k < 4 {
        assert d[k] == IterationPlan(volunteer, light, 35, DefaultIterations)[k - 2];
      } else {
        assert d[k] == IterationPlan(volunteer, light, 37, DefaultIterations)[k - 4];
      }
    }
  }

  lemma DefaultLightSize(volunteer: string, light: string)
    ensures |DistancePlan(volunteer, light, DefaultDistanceSetups)| == 6
  {
    DefaultDistancePlan(volunteer, light);
  }

  /** Entry `6 * l + k` of the default plan is entry `k` of light `l`. */
  lemma DefaultPlanAt(volunteer: string, l: nat, k: nat)
    requires l < 3 && k < 6
    ensures |PlanOf(volunteer, DefaultSetups)| == 18
    ensures PlanOf(volunteer, DefaultSetups)[6 * l + k] ==
      ParametersFor(volunteer, Lights[l], Distances[k / 2], DefaultIterations[k % 2])
  {
    DefaultSetupsPlan(volunteer);
    DefaultLightSize(volunteer, Lights[0]);
    DefaultLightSize(volunteer, Lights[1]);
    DefaultLightSize(volunteer, Lights[2]);
    DefaultLightOrder(volunteer, Lights[l]);
    var plan := PlanOf(volunteer, DefaultSetups);
    if l == 0 {
      assert plan[k] == DistancePlan(volunteer, Lights[0], DefaultDistanceSetups)[k];
    } else if l == 1 {
      assert plan[6 + k] == DistancePlan(volunteer, Lights[1], DefaultDistanceSetups)[k];
    } else {
      assert plan[12 + k] == DistancePlan(volunteer, Lights[2], DefaultDistanceSetups)[k];
    }
  }

  /** The default plan has 18 sub-sessions: lights outermost, then distances, and for each
      distance the gold-standard capture of the left hand before the ten follow-up
      repetitions of the right hand. */
  lemma DefaultPlanOrder(volunteer: string)
    ensures |PlanOf(volunteer, DefaultSetups)| == 18
    ensures forall i :: 0 <= i < 18 ==>
      PlanOf(volunteer, DefaultSetups)[i] ==
        ParametersFor(volunteer, Lights[i / 6], Distances[i % 6 / 2], DefaultIterations[i % 2])
  {
    DefaultPlanAt(volunteer, 0, 0);
    forall i | 0 <= i < 18
      ensures PlanOf(volunteer, DefaultSetups)[i] ==
        ParametersFor(volunteer, Lights[i / 6], Distances[i % 6 / 2], DefaultIterations[i % 2])
    {
      var l, k := i / 6, i % 6;
      assert i == 6 * l + k && k % 2 == i % 2;
      DefaultPlanAt(volunteer, l, k);
    }
  }

  // ---------------------------------------------------------------- the sweep

  /** How a sweep ended: every sub-session ran, one ended with `force_exit`, or the passes
      supplied ran out while a sub-session was still waiting for input. */
  datatype Outcome = Completed | ForcedExit | AwaitingInput

  /** `started` sub-sessions were begun with `set_params`, `consumed` passes of the frame loop
      were used, and `final` is the runner's state at the end. */
  datatype SweepResult = SweepResult(outcome: Outcome, started: nat, consumed: nat, final: SessionState)

  /** A sweep result seen from `n` sub-sessions and `m` passes earlier. */
  function Shift(r: SweepResult, n: nat, m: nat): SweepResult {
    r.(started := r.started + n, consumed := r.consumed + m)
  }

  /** `execute_setups` over a flat plan: each entry is handed to `set_params`, the frame loop
      runs to its stop flag, and the sweep returns at once when `start` reports `force_exit`;
      a sub-session stopped without it (target reached, or "n" at the error prompt) moves on
      to the next entry. */
  function Sweep(s: SessionState, plan: seq<Parameters>, ticks: seq<Tick>): (r: SweepResult)
    requires WellFormed(s)
    ensures WellFormed(r.final)
    ensures r.started <= |plan| && r.consumed <= |ticks|
    ensures r.outcome == Completed <==>
      r.started == |plan| && (plan == [] || (r.final.stopMainLoopFlag && !r.final.forceExit))
    ensures r.outcome == ForcedExit ==> r.final.forceExit && r.final.stopMainLoopFlag
    ensures r.outcome == AwaitingInput ==> !r.final.stopMainLoopFlag && r.consumed == |ticks|
    ensures r.started > 0 ==> r.final.parameters == plan[r.started - 1]
    ensures s.forceExit && plan != [] ==> r.outcome != Completed
    decreases |plan|
  {
    if plan == [] then SweepResult(Completed, 0, 0, s)
    else
      var (s1, n) := Run(WithParams(s, plan[0]), ticks);
      if !s1.stopMainLoopFlag then SweepResult(AwaitingInput, 1, n, s1)
      else if s1.forceExit then SweepResult(ForcedExit, 1, n, s1)
      else Shift(Sweep(s1, plan[1..], ticks[n..]), 1, n)
  }

  /** Running a plan in two parts: a sweep that did not complete the first part is the
      whole sweep, since `execute_setups` returns before any later `set_params`; one that
      completed it continues with the second part on the remaining passes. */
  lemma {:induction false} SweepAppend(s: SessionState, p1: seq<Parameters>, p2: seq<Parameters>, ticks: seq<Tick>)
    requires WellFormed(s)
    ensures var r1 := Sweep(s, p1, ticks);
      && (r1.outcome != Completed ==> Sweep(s, p1 + p2, ticks) == r1)
      && (r1.outcome == Completed ==>
            Sweep(s, p1 + p2, ticks) == Shift(Sweep(r1.final, p2, ticks[r1.consumed..]), r1.started, r1.consumed))
    decreases |p1|
  {
    if p1 == [] {
      assert p1 + p2 == p2 && ticks[0..] == ticks;
      ShiftTwice(Sweep(s, p2, ticks), 0, 0, 0, 0);
    } else {
      var run := Run(WithParams(s, p1[0]), ticks);
      if run.0.stopMainLoopFlag && !run.0.forceExit {
        SweepAppend(run.0, p1[1..], p2, ticks[run.1..]);
        SweepAppendContinued(s, p1, p2, ticks);
      } else {
        SweepAppendStopped(s, p1, p2, ticks);
      }
    }
  }

  /** The first sub-session of a plan is the first of any longer plan. */
  lemma SweepHead(s: SessionState, p1: seq<Parameters>, p2: seq<Parameters>, ticks: seq<Tick>)
    requires WellFormed(s) && p1 != []
    ensures var run := Run(WithParams(s, p1[0]), ticks);
      && (!run.0.stopMainLoopFlag || run.0.forceExit ==> Sweep(s, p1 + p2, ticks) == Sweep(s, p1, ticks))
      && (run.0.stopMainLoopFlag && !run.0.forceExit ==>
            Sweep(s, p1, ticks) == Shift(Sweep(run.0, p1[1..], ticks[run.1..]), 1, run.1) &&
            Sweep(s, p1 + p2, ticks) == Shift(Sweep(run.0, p1[1..] + p2, ticks[run.1..]), 1, run.1))
  {
    var p := p1 + p2;
    assert p[0] == p1[0] && p[1..] == p1[1..] + p2;
  }

  lemma SweepAppendStopped(s: SessionState, p1: seq<Parameters>, p2: seq<Parameters>, ticks: seq<Tick>)
    requires WellFormed(s) && p1 != []
    requires var run := Run(WithParams(s, p1[0]), ticks); !run.0.stopMainLoopFlag || run.0.forceExit
    ensures Sweep(s, p1, ticks).outcome != Completed
    ensures Sweep(s, p1 + p2, ticks) == Sweep(s, p1, ticks)
  {
    SweepHead(s, p1, p2, ticks);
  }

  lemma SweepAppendContinued(s: SessionState, p1: seq<Parameters>, p2: seq<Parameters>, ticks: seq<Tick>)
    requires WellFormed(s) && p1 != []
    requires var run := Run(WithParams(s, p1[0]), ticks); run.0.stopMainLoopFlag && !run.0.forceExit
    requires var run := Run(WithParams(s, p1[0]), ticks);
      var r := Sweep(run.0, p1[1..], ticks[run.1..]);
      && (r.outcome != Completed ==> Sweep(run.0, p1[1..] + p2, ticks[run.1..]) == r)
      && (r.outcome == Completed ==>
            Sweep(run.0, p1[1..] + p2, ticks[run.1..]) == Shift(Sweep(r.final, p2, ticks[run.1..][r.consumed..]), r.started, r.consumed))
    ensures var r1 := Sweep(s, p1, ticks);
      && (r1.outcome != Completed ==> Sweep(s, p1 + p2, ticks) == r1)
      && (r1.outcome == Completed ==>
            Sweep(s, p1 + p2, ticks) == Shift(Sweep(r1.final, p2, ticks[r1.consumed..]), r1.started, r1.consumed))
  {
    SweepHead(s, p1, p2, ticks);
    var run := Run(WithParams(s, p1[0]), ticks);
    var n := run.1;
    var r := Sweep(run.0, p1[1..], ticks[n..]);
    var whole := Sweep(run.0, p1[1..] + p2, ticks[n..]);
    var r1 := Sweep(s, p1, ticks);
    assert r1 == Shift(r, 1, n);
    if r.outcome == Completed {
      assert ticks[n..][r.consumed..] == ticks[r1.consumed..];
      ShiftLater(r, whole, Sweep(r.final, p2, ticks[r1.consumed..]), n);
    }
  }

  /** Shifting a sweep that continues a completed one by the counts of a first sub-session. */
  lemma ShiftLater(r: SweepResult, whole: SweepResult, rest: SweepResult, n: nat)
    requires whole == Shift(rest, r.started, r.consumed)
    ensures Shift(whole, 1, n) == Shift(rest, Shift(r, 1, n).started, Shift(r, 1, n).consumed)
  {
    ShiftTwice(rest, r.started, r.consumed, 1, n);
  }

  lemma ShiftTwice(r: SweepResult, a: nat, b: nat, c: nat, d: nat)
    ensures Shift(Shift(r, a, b), c, d) == Shift(r, a + c, b + d)
    ensures Shift(r, 0, 0) == r
  {
  }

  /** A sweep that did not complete a prefix of a plan is the sweep of the whole plan. */
  lemma SweepPrefix(s: SessionState, prefix: seq<Parameters>, plan: seq<Parameters>, ticks: seq<Tick>)
    requires WellFormed(s) && prefix <= plan && Sweep(s, prefix, ticks).outcome != Completed
    ensures Sweep(s, plan, ticks) == Sweep(s, prefix, ticks)
  {
    SweepAppend(s, prefix, plan[|prefix|..], ticks);
    assert prefix + plan[|prefix|..] == plan;
  }

  /** The sweep of `done` completed every entry, using the first `used` passes and leaving
      the runner in `current`. */
  ghost predicate Completes(s: SessionState, done: seq<Parameters>, ticks: seq<Tick>, used: nat, current: SessionState)
    requires WellFormed(s)
  {
    var r := Sweep(s, done, ticks);
    r.outcome == Completed && r.started == |done| && r.consumed == used && r.final == current
  }

  /** A plan of one entry: one sub-session, whose end is the end of the sweep. */
  lemma SweepOne(s: SessionState, p: Parameters, ticks: seq<Tick>)
    requires WellFormed(s)
    ensures var run := Run(WithParams(s, p), ticks);
      Sweep(s, [p], ticks) ==
        SweepResult(if !run.0.stopMainLoopFlag then AwaitingInput
                    else if run.0.forceExit then ForcedExit
                    else Completed, 1, run.1, run.0)
  {
    var run := Run(WithParams(s, p), ticks);
    assert [p][1..] == [];
    if run.0.stopMainLoopFlag && !run.0.forceExit {
      assert Sweep(s, [p], ticks) == Shift(Sweep(run.0, [], ticks[run.1..]), 1, run.1);
    }
  }

  /** One more sub-session after a completed sweep: the next entry is handed to
      `set_params`, the frame loop runs on the passes not yet consumed, and the sweep ends
      there unless the loop stopped without a forced exit. */
  lemma SweepNext(s: SessionState, done: seq<Parameters>, p: Parameters, ticks: seq<Tick>,
                  current: SessionState, used: nat, after: SessionState, n: nat)
    requires WellFormed(s) && used <= |ticks| && Completes(s, done, ticks, used, current)
    requires Run(WithParams(current, p), ticks[used..]) == (after, n)
    ensures var r := Sweep(s, done + [p], ticks);
      && r.outcome == (if !after.stopMainLoopFlag then AwaitingInput
                       else if after.forceExit then ForcedExit else Completed)
      && r.started == |done| + 1 && r.consumed == used + n && r.final == after
  {
    SweepAppend(s, done, [p], ticks);
    SweepOne(current, p, ticks[used..]);
  }

  lemma {:induction false} IterationPlanPrefix(volunteer: string, light: string, distance: int,
                                               its: seq<Iteration>, k: nat)
    requires k <= |its|
    ensures IterationPlan(volunteer, light, distance, its[..k]) <= IterationPlan(volunteer, light, distance, its)
    decreases |its|
  {
    if k == |its| {
      assert its[..k] == its;
    } else {
      var init := its[..|its| - 1];
      IterationPlanPrefix(volunteer, light, distance, init, k);
      assert init[..k] == its[..k];
    }
  }

  lemma {:induction false} DistancePlanPrefix(volunteer: string, light: string, ds: seq<DistanceSetup>, j: nat)
    requires j <= |ds|
    ensures DistancePlan(volunteer, light, ds[..j]) <= DistancePlan(volunteer, light, ds)
    decreases |ds|
  {
    if j == |ds| {
      assert ds[..j] == ds;
    } else {
      var init := ds[..|ds| - 1];
      DistancePlanPrefix(volunteer, light, init, j);
      assert init[..j] == ds[..j];
    }
  }

  lemma {:induction false} PlanOfPrefix(volunteer: string, setups: seq<LightSetup>, i: nat)
    requires i <= |setups|
    ensures PlanOf(volunteer, setups[..i]) <= PlanOf(volunteer, setups)
    decreases |setups|
  {
    if i == |setups| {
      assert setups[..i] == setups;
    } else {
      var init := setups[..|setups| - 1];
      PlanOfPrefix(volunteer, init, i);
      assert init[..i] == setups[..i];
    }
  }

  /** The `set_params` calls made before iteration `k` of distance setup `j` of light setup
      `i`, in the order of the triple loop of `execute_setups`. */
  function PlanBefore(volunteer: string, setups: seq<LightSetup>, i: nat, j: nat, k: nat): seq<Parameters>
    requires i < |setups| && j < |setups[i].distanceSetups| && k <= |setups[i].distanceSetups[j].iterations|
  {
    var light, ds := setups[i].lightSetup, setups[i].distanceSetups;
    PlanOf(volunteer, setups[..i]) + DistancePlan(volunteer, light, ds[..j]) +
      IterationPlan(volunteer, light, ds[j].distance, ds[j].iterations[..k])
  }

  /** Iteration `k` adds its own `set_params` call to the calls made before it. */
  lemma PlanBeforeNext(volunteer: string, setups: seq<LightSetup>, i: nat, j: nat, k: nat)
    requires i < |setups| && j < |setups[i].distanceSetups| && k < |setups[i].distanceSetups[j].iterations|
    ensures PlanBefore(volunteer, setups, i, j, k + 1) ==
      PlanBefore(volunteer, setups, i, j, k) +
        [ParametersFor(volunteer, setups[i].lightSetup, setups[i].distanceSetups[j].distance,
                       setups[i].distanceSetups[j].iterations[k])]
  {
    var its := setups[i].distanceSetups[j].iterations;
    assert its[..k + 1][..k] == its[..k];
  }

  /** After the last iteration of distance setup `j` come the calls of distance setup `j + 1`. */
  lemma PlanBeforeDistanceDone(volunteer: string, setups: seq<LightSetup>, i: nat, j: nat)
    requires i < |setups| && j < |setups[i].distanceSetups|
    ensures PlanBefore(volunteer, setups, i, j, |setups[i].distanceSetups[j].iterations|) ==
      PlanOf(volunteer, setups[..i]) + DistancePlan(volunteer, setups[i].lightSetup, setups[i].distanceSetups[..j + 1])
  {
    var ds := setups[i].distanceSetups;
    assert ds[j].iterations[..|ds[j].iterations|] == ds[j].iterations;
    assert ds[..j + 1][..j] == ds[..j];
  }

  /** After the last distance setup of light setup `i` come the calls of light setup `i + 1`. */
  lemma PlanBeforeLightDone(volunteer: string, setups: seq<LightSetup>, i: nat)
    requires i < |setups|
    ensures PlanOf(volunteer, setups[..i]) +
      DistancePlan(volunteer, setups[i].lightSetup, setups[i].distanceSetups[..|setups[i].distanceSetups|]) ==
      PlanOf(volunteer, setups[..i + 1])
  {
    assert setups[i].distanceSetups[..|setups[i].distanceSetups|] == setups[i].distanceSetups;
    assert setups[..i + 1][..i] == setups[..i];
  }

  /** One pass of the innermost loop of `execute_setups`: iteration `k` of distance setup
      `j` of light setup `i` runs its sub-session after every earlier one completed. Either
      the sweep goes on with one more completed entry, or it ends here, and then this is the
      result of the sweep over the whole plan. */
  lemma IterationStep(s: SessionState, volunteer: string, setups: seq<LightSetup>, i: nat, j: nat, k: nat,
                      ticks: seq<Tick>, current: SessionState, used: nat, after: SessionState, n: nat)
    requires WellFormed(s) && used <= |ticks|
    requires i < |setups| && j < |setups[i].distanceSetups| && k < |setups[i].distanceSetups[j].iterations|
    requires Completes(s, PlanBefore(volunteer, setups, i, j, k), ticks, used, current)
    requires Run(WithParams(current, ParametersFor(volunteer, setups[i].lightSetup, setups[i].distanceSetups[j].distance,
                                                   setups[i].distanceSetups[j].iterations[k])),
                 ticks[used..]) == (after, n)
    ensures after.stopMainLoopFlag && !after.forceExit ==>
      Completes(s, PlanBefore(volunteer, setups, i, j, k + 1), ticks, used + n, after)
    ensures !(after.stopMainLoopFlag && !after.forceExit) ==>
      var r := Sweep(s, PlanOf(volunteer, setups), ticks);
      && r.outcome == (if !after.stopMainLoopFlag then AwaitingInput else ForcedExit)
      && r.started == |PlanBefore(volunteer, setups, i, j, k)| + 1 && r.consumed == used + n && r.final == after
  {
    var p := ParametersFor(volunteer, setups[i].lightSetup, setups[i].distanceSetups[j].distance,
                           setups[i].distanceSetups[j].iterations[k]);
    var done := PlanBefore(volunteer, setups, i, j, k);
    SweepNext(s, done, p, ticks, current, used, after, n);
    PlanBeforeNext(volunteer, setups, i, j, k);
    if !(after.stopMainLoopFlag && !after.forceExit) {
      PlanBeforeIsPrefix(volunteer, setups, i, j, k + 1);
      SweepPrefix(s, done + [p], PlanOf(volunteer, setups), ticks);
    }
  }

  /** The calls made before any point of the triple loop are the start of the whole plan. */
  lemma PlanBeforeIsPrefix(volunteer: string, setups: seq<LightSetup>, i: nat, j: nat, k: nat)
    requires i < |setups| && j < |setups[i].distanceSetups| && k <= |setups[i].distanceSetups[j].iterations|
    ensures PlanBefore(volunteer, setups, i, j, k) <= PlanOf(volunteer, setups)
  {
    var light, ds := setups[i].lightSetup, setups[i].distanceSetups;
    var its := ds[j].iterations;
    var a, b := PlanOf(volunteer, setups[..i]), DistancePlan(volunteer, light, ds[..j]);
    var c, whole := IterationPlan(volunteer, light, ds[j].distance, its[..k]), IterationPlan(volunteer, light, ds[j].distance, its);
    IterationPlanPrefix(volunteer, light, ds[j].distance, its, k);
    DistanceStepPrefix(volunteer, light, ds, j, b, c, whole);
    LightStepPrefix(volunteer, setups, i, a, b + c);
  }

  /** Within distance setup `j`, the calls made so far are the start of the light setup's calls. */
  lemma DistanceStepPrefix(volunteer: string, light: string, ds: seq<DistanceSetup>, j: nat,
                           b: seq<Parameters>, c: seq<Parameters>, whole: seq<Parameters>)
    requires j < |ds| && b == DistancePlan(volunteer, light, ds[..j])
    requires whole == IterationPlan(volunteer, light, ds[j].distance, ds[j].iterations) && c <= whole
    ensures b + c <= DistancePlan(volunteer, light, ds)
  {
    assert ds[..j + 1][..j] == ds[..j];
    assert b + whole == DistancePlan(volunteer, light, ds[..j + 1]);
    DistancePlanPrefix(volunteer, light, ds, j + 1);
  }

  /** Within light setup `i`, the calls made so far are the start of the whole plan. */
  lemma LightStepPrefix(volunteer: string, setups: seq<LightSetup>, i: nat, a: seq<Parameters>, d: seq<Parameters>)
    requires i < |setups| && a == PlanOf(volunteer, setups[..i])
    requires d <= DistancePlan(volunteer, setups[i].lightSetup, setups[i].distanceSetups)
    ensures a + d <= PlanOf(volunteer, setups)
  {
    assert setups[..i + 1][..i] == setups[..i];
    assert a + DistancePlan(volunteer, setups[i].lightSetup, setups[i].distanceSetups) == PlanOf(volunteer, setups[..i + 1]);
    PlanOfPrefix(volunteer, setups, i + 1);
  }

  /** Esc in the first pass of a sub-session ends the whole sweep right there. */
  lemma EscEndsSweep(s: SessionState, plan: seq<Parameters>, rest: seq<Tick>)
    requires WellFormed(s) && plan != []
    ensures Sweep(s, plan, [Frame(Esc)] + rest) ==
      SweepResult(ForcedExit, 1, 1, WithParams(s, plan[0]).(stopMainLoopFlag := true, forceExit := true))
  {
    var ticks := [Frame(Esc)] + rest;
    assert ticks[1..] == rest;
    assert Run(WithParams(s, plan[0]), ticks) ==
      (WithParams(s, plan[0]).(stopMainLoopFlag := true, forceExit := true), 1);
  }

  /** Answering "n" after a failed pass ends only the current sub-session: the sweep goes on
      with the next entry of the plan. */
  lemma DeclinedPromptContinues(s: SessionState, plan: seq<Parameters>, rest: seq<Tick>)
    requires WellFormed(s) && plan != [] && !s.forceExit
    ensures Sweep(s, plan, [Failed("n")] + rest) ==
      Shift(Sweep(WithParams(s, plan[0]).(stopMainLoopFlag := true), plan[1..], rest), 1, 1)
  {
    var ticks := [Failed("n")] + rest;
    assert ticks[1..] == rest;
    assert Run(WithParams(s, plan[0]), ticks) == (WithParams(s, plan[0]).(stopMainLoopFlag := true), 1);
  }

  /** The Enters that complete every sub-session of a plan, one sub-session after the other. */
  function EntersFor(plan: seq<Parameters>): seq<Tick>
    requires forall k :: 0 <= k < |plan| ==> plan[k].repetitions >= 1
    decreases |plan|
  {
    if plan == [] then [] else Enters(Presses(plan[0])) + EntersFor(plan[1..])
  }

  /** Pressing Enter exactly as often as each sub-session needs completes the whole plan,
      consuming exactly those presses, provided every target is at least one repetition and
      no exit was forced before. */
  lemma {:induction false} SweepOfEnters(s: SessionState, plan: seq<Parameters>, rest: seq<Tick>)
    requires WellFormed(s) && !s.forceExit
    requires forall k :: 0 <= k < |plan| ==> plan[k].repetitions >= 1
    ensures var r := Sweep(s, plan, EntersFor(plan) + rest);
      r.outcome == Completed && r.started == |plan| && r.consumed == |EntersFor(plan)| && !r.final.forceExit
    decreases |plan|
  {
    if plan != [] {
      var p, tail := plan[0], EntersFor(plan[1..]) + rest;
      var ticks := EntersFor(plan) + rest;
      assert ticks == Enters(Presses(p)) + tail;
      SubSessionOfEnters(s, p, tail);
      assert ticks[Presses(p)..] == tail;
      var s1 := Run(WithParams(s, p), ticks).0;
      SweepOfEnters(s1, plan[1..], rest);
    }
  }

  /** A fresh runner over the default plan: Enter captures the gold-standard frame and ends
      that one-repetition sub-session, the follow-up at the same light and distance starts,
      and Esc in its first pass ends the sweep with two sub-sessions started and one
      capture taken. */
  lemma CaptureThenAbortExample(volunteer: string)
    ensures var plan := PlanOf(volunteer, DefaultSetups);
      var r := Sweep(InitialState, plan, [Frame(Enter), Frame(Esc)]);
      && r.outcome == ForcedExit && r.started == 2 && r.consumed == 2
      && r.final.parameters == Parameters(volunteer, "luz-na-mao", 28, FollowUp, 10, "direita")
      && r.final.captures == [Capture(Parameters(volunteer, "luz-na-mao", 28, GoldStandard, 1, "esquerda"), 0, 0)]
  {
    var plan := PlanOf(volunteer, DefaultSetups);
    DefaultPlanOrder(volunteer);
    var ticks := [Frame(Enter), Frame(Esc)];
    assert Presses(plan[0]) == 1 && Enters(1) + [Frame(Esc)] == ticks;
    SubSessionOfEnters(InitialState, plan[0], [Frame(Esc)]);
    var s1 := Run(WithParams(InitialState, plan[0]), ticks).0;
    assert s1.captures == [Capture(plan[0], 0, 0)];
    assert ticks[1..] == [Frame(Esc)] + [];
    EscEndsSweep(s1, plan[1..], []);
  }
}
