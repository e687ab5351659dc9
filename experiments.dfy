/**
 * `ExperimentRunner` and `ExperimentController` as classes. The runner's fields are updated in
 * place by `set_params`, by the key handling of `process_frames` and by the loop of
 * `start_main_loop`; the controller walks its nested setups and drives the runner. Every
 * method is proved against the value model of the `Session` and `Plan` modules, whose lemmas
 * carry the properties of the experiment.
 */
module Experiments {
  import opened PyStrings
  import opened Session
  import opened Plan

  class ExperimentRunner {
    var parameters: Parameters
    var repsCounter: int
    var graspIterator: int
    var stopMainLoopFlag: bool
    var forceExit: bool
    /** The captures handed to `save_frames` so far, oldest first. */
    var savedCaptures: seq<Capture>

    /** The runner's fields as a value of the session model. */
    function State(): SessionState
      reads this
    {
      SessionState(parameters, repsCounter, graspIterator, stopMainLoopFlag, forceExit, savedCaptures)
    }

    /** The parameters and counters the constructor sets up (the camera is not modelled). */
    constructor()
      ensures State() == InitialState
    {
      parameters := DefaultParameters;
      repsCounter := 0;
      graspIterator := 0;
      stopMainLoopFlag := false;
      forceExit := false;
      savedCaptures := [];
    }

    /** `set_params`: the six parameters are replaced, both counters and the stop flag are
        reset, and `force_exit` keeps its value. */
    method SetParams(patientName: string, lightSetup: string, distance: int, captureType: string,
                     repetitions: int, handSide: string)
      modifies this
      ensures State() == WithParams(old(State()),
        Parameters(patientName, lightSetup, distance, captureType, repetitions, handSide))
    {
      parameters := Parameters(patientName, lightSetup, distance, captureType, repetitions, handSide);
      repsCounter := 0;
      graspIterator := 0;
      stopMainLoopFlag := false;
    }

    /** `check_exit_pressed`: Esc raises both flags; any other key is only reported. */
    method CheckExitPressed(key: int)
      modifies this
      ensures State() == AfterExitCheck(old(State()), key)
    {
      if key == Esc {
        stopMainLoopFlag := true;
        forceExit := true;
      }
    }

    /** `build_path`: the seven segments joined in one `os.path.join` call, the repetition
        folder left empty and the grasp open unless the capture is a follow-up. */
    method BuildPath() returns (path: string)
      requires WellFormed(State())
      ensures path == Directory(Capture(parameters, repsCounter, graspIterator))
    {
      var repFolder := "";
      var grasp := OpenHand;
      if parameters.captureType == FollowUp {
        repFolder := "repetition_" + IntToString(repsCounter);
        grasp := FollowUpGrasps[graspIterator];
      }
      var segments := ["experiments", parameters.patientName, parameters.lightSetup,
                       IntToString(parameters.distance), parameters.captureType, repFolder, grasp];
      path := Join(".", segments);
      assert segments == TypeSegments(parameters) +
        [RepFolder(parameters, repsCounter), GraspLabel(parameters, graspIterator)];
      BuildPathIsOneJoin(parameters, repsCounter, graspIterator);
    }

    /** `save_frames`: the frames go to the directory of the current counters, and the
        capture is recorded; nothing else changes. */
    method SaveFrames() returns (path: string)
      requires WellFormed(State())
      modifies this
      ensures State() == old(State()).(captures := old(savedCaptures) + [Capture(parameters, repsCounter, graspIterator)])
      ensures path == Directory(Capture(parameters, repsCounter, graspIterator))
    {
      path := BuildPath();
      savedCaptures := savedCaptures + [Capture(parameters, repsCounter, graspIterator)];
    }

    /** The key handling at the end of `process_frames`: Esc is checked first; Enter saves
        the frames, then advances the grasp (follow-up) or the repetition, and stops the loop
        when the repetition count reaches the target. */
    method ProcessFrames(key: int)
      requires WellFormed(State())
      modifies this
      ensures State() == Step(old(State()), Frame(key))
    {
      CheckExitPressed(key);
      if key == Enter {
        var path := SaveFrames();
        if parameters.captureType == FollowUp {
          graspIterator := graspIterator + 1;
          if graspIterator == |FollowUpGrasps| {
            graspIterator := 0;
            repsCounter := repsCounter + 1;
          }
        } else {
          repsCounter := repsCounter + 1;
        }
        if repsCounter == parameters.repetitions {
          stopMainLoopFlag := true;
        }
      }
    }

    /** `start_main_loop` over the passes `ticks`: frames are processed while the stop flag
        is clear; a failed pass sets the flag exactly when the operator answers "n". The
        result is `force_exit`, and `used` is the number of passes consumed. */
    method StartMainLoop(ticks: seq<Tick>) returns (result: bool, used: nat)
      requires WellFormed(State())
      modifies this
      ensures (State(), used) == Run(old(State()), ticks)
      ensures result == forceExit
    {
      used := 0;
      while !stopMainLoopFlag && used < |ticks|
        invariant used <= |ticks| && WellFormed(State())
        invariant var rest := Run(State(), ticks[used..]);
          Run(old(State()), ticks) == (rest.0, used + rest.1)
        decreases |ticks| - used
      {
        ghost var before := State();
        match ticks[used] {
          case Frame(key) =>
            ProcessFrames(key);
          case Failed(answer) =>
            stopMainLoopFlag := answer == "n";
        }
        assert State() == Step(before, ticks[used]);
        assert ticks[used..][1..] == ticks[used + 1..];
        used := used + 1;
      }
      result := forceExit;
    }
  }

  class ExperimentController {
    const setups: seq<LightSetup>
    const volunteerName: string
    const experimentRunner: ExperimentRunner

    /** Every volunteer is recorded under the default plan. */
    constructor(volunteerName: string, experimentRunner: ExperimentRunner)
      ensures this.setups == DefaultSetups
      ensures this.volunteerName == volunteerName && this.experimentRunner == experimentRunner
    {
      this.setups := DefaultSetups;
      this.volunteerName := volunteerName;
      this.experimentRunner := experimentRunner;
    }

    /** `execute_setups`: for every light setup, every distance setup and every iteration,
        the runner's parameters are set and its loop started; the method returns as soon as
        a sub-session reports `force_exit`. Here it also returns when the passes run out
        while a sub-session still waits for input. */
    method ExecuteSetups(ticks: seq<Tick>) returns (outcome: Outcome, started: nat, consumed: nat)
      requires WellFormed(experimentRunner.State())
      modifies experimentRunner
      ensures var r := Sweep(old(experimentRunner.State()), PlanOf(volunteerName, setups), ticks);
        outcome == r.outcome && started == r.started && consumed == r.consumed &&
        experimentRunner.State() == r.final
    {
      ghost var s0 := experimentRunner.State();
      ghost var done: seq<Parameters> := [];
      started, consumed := 0, 0;
      var i := 0;
      while i < |setups|
        invariant i <= |setups| && consumed <= |ticks| && started == |done|
        invariant done == PlanOf(volunteerName, setups[..i])
        invariant WellFormed(experimentRunner.State())
        invariant Completes(s0, done, ticks, consumed, experimentRunner.State())
      {
        var lightSetup := setups[i].lightSetup;
        var distanceSetups := setups[i].distanceSetups;
        var j := 0;
        while j < |distanceSetups|
          invariant j <= |distanceSetups| && consumed <= |ticks| && started == |done|
          invariant done == PlanOf(volunteerName, setups[..i]) + DistancePlan(volunteerName, lightSetup, distanceSetups[..j])
          invariant WellFormed(experimentRunner.State())
          invariant Completes(s0, done, ticks, consumed, experimentRunner.State())
        {
          var distance := distanceSetups[j].distance;
          var iterations := distanceSetups[j].iterations;
          var k := 0;
          while k < |iterations|
            invariant k <= |iterations| && consumed <= |ticks| && started == |done|
            invariant done == PlanBefore(volunteerName, setups, i, j, k)
            invariant WellFormed(experimentRunner.State())
            invariant Completes(s0, done, ticks, consumed, experimentRunner.State())
          {
            var iteration := iterations[k];
            ghost var current := experimentRunner.State();
            experimentRunner.SetParams(volunteerName, lightSetup, distance, iteration.captureType,
                                       iteration.repetitions, iteration.handSide);
            var forceExit, n := experimentRunner.StartMainLoop(ticks[consumed..]);
            IterationStep(s0, volunteerName, setups, i, j, k, ticks, current, consumed, experimentRunner.State(), n);
            PlanBeforeNext(volunteerName, setups, i, j, k);
            done := done + [ParametersFor(volunteerName, lightSetup, distance, iteration)];
            started, consumed := started + 1, consumed + n;
            if !experimentRunner.stopMainLoopFlag || forceExit {
              outcome := if !experimentRunner.stopMainLoopFlag then AwaitingInput else ForcedExit;
              return;
            }
            k := k + 1;
          }
          PlanBeforeDistanceDone(volunteerName, setups, i, j);
          j := j + 1;
        }
        PlanBeforeLightDone(volunteerName, setups, i);
        i := i + 1;
      }
      assert setups[..i] == setups;
      outcome := Completed;
    }
  }
}
