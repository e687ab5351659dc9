/**
 * The capture sub-session of `ExperimentRunner` as values: the session fields, the effect of
 * one pass of the frame loop (a key read from the window, or a failure followed by the
 * operator's answer to the continue prompt), the loop itself, and the directory each
 * captured frame is stored under.
 */
module Session {
  import opened PyStrings

  const Enter: int := 13
  const Esc: int := 27
  /** What the window returns when no key was pressed. */
  const NoKey: int := -1

  const FollowUp: string := "follow_up"
  const GoldStandard: string := "gold_standard"
  /** Grasp label used for every capture that is not a follow-up. */
  const OpenHand: string := "aberta"
  const FollowUpGrasps: seq<string> := ["fechada", "semiaberta 1", "semiaberta 2", "aberta"]

  /** The six entries of the runner's `parameters` dictionary. */
  datatype Parameters = Parameters(
    patientName: string,
    lightSetup: string,
    distance: int,
    captureType: string,
    repetitions: int,
    handSide: string)

  const DefaultParameters: Parameters :=
    Parameters("", "luz-na-cam", 28, GoldStandard, 1, "esquerda")

  /** One pass of the frame loop, as far as the session state can see it:
      `Frame(key)` is a processed frame after which `key` was read (`NoKey` when none was
      pressed, or when the camera delivered no frame); `Failed(answer)` is a pass that raised,
      after which the operator typed `answer` at the continue prompt. */
  datatype Tick = Frame(key: int) | Failed(answer: string)

  /** What one capture hands to `save_frames`: the parameters and the two counters from
      which `build_path` forms the directory of the frame. */
  datatype Capture = Capture(parameters: Parameters, repsCounter: int, graspIterator: int)

  /** The runner's mutable fields, and the captures handed to the persister so far. */
  datatype SessionState = SessionState(
    parameters: Parameters,
    repsCounter: int,
    graspIterator: int,
    stopMainLoopFlag: bool,
    forceExit: bool,
    captures: seq<Capture>)

  /** A runner as its constructor leaves it. */
  const InitialState: SessionState := SessionState(DefaultParameters, 0, 0, false, false, [])

  /** The grasp cursor points into the grasp list. */
  predicate WellFormed(s: SessionState) {
    0 <= s.graspIterator < |FollowUpGrasps|
  }

  predicate IsFollowUp(p: Parameters) {
    p.captureType == FollowUp
  }

  // ---------------------------------------------------------------- paths

  /** The directory of a capture: `./experiments/<patient>/<light>/<distance>/<type>`, then,
      for a follow-up, `repetition_<n>/<grasp>`, and otherwise just the open-hand label (the
      empty repetition folder in between vanishes in `os.path.join`). The two last segments
      are joined onto the type directory one at a time, as `os.path.join` does. */
  function BuildPath(p: Parameters, reps: int, grasp: int): string
    requires IsFollowUp(p) ==> 0 <= grasp < |FollowUpGrasps|
  {
    JoinTwo(JoinTwo(TypeDirectory(p), RepFolder(p, reps)), GraspLabel(p, grasp))
  }

  function RepFolder(p: Parameters, reps: int): string {
    if IsFollowUp(p) then "repetition_" + IntToString(reps) else ""
  }

  function GraspLabel(p: Parameters, grasp: int): string
    requires IsFollowUp(p) ==> 0 <= grasp < |FollowUpGrasps|
  {
    if IsFollowUp(p) then FollowUpGrasps[grasp] else OpenHand
  }

  function TypeSegments(p: Parameters): seq<string> {
    ["experiments", p.patientName, p.lightSetup, IntToString(p.distance), p.captureType]
  }

  /** The directory shared by every capture of one sub-session. */
  function TypeDirectory(p: Parameters): string {
    Join(".", TypeSegments(p))
  }

  /** `BuildPath` is the single `os.path.join` call over all seven segments. */
  lemma BuildPathIsOneJoin(p: Parameters, reps: int, grasp: int)
    requires IsFollowUp(p) ==> 0 <= grasp < |FollowUpGrasps|
    ensures BuildPath(p, reps, grasp) ==
      Join(".", TypeSegments(p) + [RepFolder(p, reps), GraspLabel(p, grasp)])
  {
    JoinAppend(".", TypeSegments(p), [RepFolder(p, reps), GraspLabel(p, grasp)]);
    JoinPair(TypeDirectory(p), RepFolder(p, reps), GraspLabel(p, grasp));
  }

  /** The directory a capture is stored under. */
  function Directory(c: Capture): string
    requires IsFollowUp(c.parameters) ==> 0 <= c.graspIterator < |FollowUpGrasps|
  {
    BuildPath(c.parameters, c.repsCounter, c.graspIterator)
  }

  /** The directory of follow-up capture `(reps, grasp)` under a type directory `dir`. */
  function FollowUpDirectory(dir: string, reps: int, grasp: int): string
    requires 0 <= grasp < |FollowUpGrasps|
  {
    JoinTwo(JoinTwo(dir, "repetition_" + IntToString(reps)), FollowUpGrasps[grasp])
  }

  /** A follow-up directory is the type directory, the repetition folder's prefix, the
      repetition number, a '/' and the grasp label. */
  lemma FollowUpDirectoryShape(dir: string, reps: int, grasp: int)
    requires 0 <= grasp < |FollowUpGrasps|
    ensures FollowUpDirectory(dir, reps, grasp) ==
      (dir + Separator(dir) + "repetition_") + (IntToString(reps) + "/" + FollowUpGrasps[grasp])
  {
    var n := IntToString(reps);
    assert n[|n| - 1] != '/';
    assert FollowUpGrasps[grasp][0] != '/';
    JoinNumberedFolder(dir, "repetition_", n, FollowUpGrasps[grasp]);
  }

  /** Under any type directory, the repetition and the grasp can be read back from the
      directory of a follow-up capture. */
  lemma FollowUpDirectoryInjective(dir: string, r1: int, g1: int, r2: int, g2: int)
    requires 0 <= g1 < |FollowUpGrasps| && 0 <= g2 < |FollowUpGrasps|
    requires FollowUpDirectory(dir, r1, g1) == FollowUpDirectory(dir, r2, g2)
    ensures r1 == r2 && g1 == g2
  {
    FollowUpDirectoryShape(dir, r1, g1);
    FollowUpDirectoryShape(dir, r2, g2);
    SplitNumbered(dir + Separator(dir) + "repetition_", r1, FollowUpGrasps[g1], r2, FollowUpGrasps[g2]);
    GraspLabelsDistinct(g1, g2);
  }

  /** The four follow-up grasps have four different labels. */
  lemma GraspLabelsDistinct(g1: int, g2: int)
    requires 0 <= g1 < |FollowUpGrasps| && 0 <= g2 < |FollowUpGrasps|
    requires FollowUpGrasps[g1] == FollowUpGrasps[g2]
    ensures g1 == g2
  {
    assert forall g :: 0 <= g < |FollowUpGrasps| ==> |FollowUpGrasps[g]| == [7, 12, 12, 6][g];
  }

  /** Behind a common head, a printed number and the name after its '/' are recovered. */
  lemma SplitNumbered(head: string, r1: int, l1: string, r2: int, l2: string)
    requires head + (IntToString(r1) + "/" + l1) == head + (IntToString(r2) + "/" + l2)
    ensures r1 == r2 && l1 == l2
  {
    SplitAfterHead(head, IntToString(r1), l1, IntToString(r2), l2);
    IntToStringInjective(r1, r2);
  }

  /** Two follow-up captures of the same sub-session land in the same directory only if they
      have the same repetition and the same grasp. */
  lemma BuildPathInjective(p: Parameters, r1: int, g1: int, r2: int, g2: int)
    requires IsFollowUp(p)
    requires 0 <= g1 < |FollowUpGrasps| && 0 <= g2 < |FollowUpGrasps|
    requires BuildPath(p, r1, g1) == BuildPath(p, r2, g2)
    ensures r1 == r2 && g1 == g2
  {
    var dir := TypeDirectory(p);
    assert BuildPath(p, r1, g1) == FollowUpDirectory(dir, r1, g1);
    assert BuildPath(p, r2, g2) == FollowUpDirectory(dir, r2, g2);
    FollowUpDirectoryInjective(dir, r1, g1, r2, g2);
  }

  // ---------------------------------------------------------------- one pass of the loop

  /** Esc stops the loop and forces the whole sweep to exit; every other key only prints. */
  function AfterExitCheck(s: SessionState, key: int): SessionState {
    if key == Esc then s.(stopMainLoopFlag := true, forceExit := true) else s
  }

  /** Enter: the frame is handed to the persister with the counters as they are, then the
      counters advance (a follow-up completes a repetition after the last grasp), and the
      loop is told to stop once the target number of repetitions is reached. */
  function AfterCapture(s: SessionState): SessionState
    requires WellFormed(s)
  {
    var p := s.parameters;
    var saved := s.captures + [Capture(p, s.repsCounter, s.graspIterator)];
    var grasp := if IsFollowUp(p) then s.graspIterator + 1 else s.graspIterator;
    var reps := if IsFollowUp(p) && grasp < |FollowUpGrasps| then s.repsCounter else s.repsCounter + 1;
    var grasp' := if grasp == |FollowUpGrasps| then 0 else grasp;
    s.(captures := saved, repsCounter := reps, graspIterator := grasp',
       stopMainLoopFlag := if reps == p.repetitions then true else s.stopMainLoopFlag)
  }

  /** One pass of the loop body: the key is checked for Esc before Enter is handled; a failed
      pass changes nothing but the stop flag, which is set exactly when the answer is "n". */
  function Step(s: SessionState, tick: Tick): (r: SessionState)
    requires WellFormed(s)
    ensures WellFormed(r)
    ensures r.parameters == s.parameters
  {
    match tick
    case Frame(key) =>
      var s1 := AfterExitCheck(s, key);
      if key == Enter then AfterCapture(s1) else s1
    case Failed(answer) =>
      s.(stopMainLoopFlag := answer == "n")
  }

  /** The loop of `start_main_loop`: passes run while the stop flag is clear. The result is
      the final state and the number of passes consumed; the loop ends only on the stop flag,
      or here also when the supplied passes run out. */
  function Run(s: SessionState, ticks: seq<Tick>): (r: (SessionState, nat))
    requires WellFormed(s)
    ensures WellFormed(r.0) && r.0.parameters == s.parameters
    ensures r.1 <= |ticks|
    ensures r.0.stopMainLoopFlag || r.1 == |ticks|
    ensures s.forceExit ==> r.0.forceExit
    decreases |ticks|
  {
    if s.stopMainLoopFlag || ticks == [] then (s, 0)
    else
      var (s', n) := Run(Step(s, ticks[0]), ticks[1..]);
      (s', n + 1)
  }

  /** `set_params`: new parameters, counters and the stop flag reset; `force_exit` kept. */
  function WithParams(s: SessionState, p: Parameters): SessionState {
    s.(parameters := p, repsCounter := 0, graspIterator := 0, stopMainLoopFlag := false)
  }

  // ---------------------------------------------------------------- the transition table

  lemma EscForcesExit(s: SessionState)
    requires WellFormed(s)
    ensures Step(s, Frame(Esc)) == s.(stopMainLoopFlag := true, forceExit := true)
  {
  }

  /** No key, or any key other than Enter and Esc, leaves the session as it was. */
  lemma OtherKeysChangeNothing(s: SessionState, key: int)
    requires WellFormed(s) && key != Enter && key != Esc
    ensures Step(s, Frame(key)) == s
  {
  }

  /** A pass in which no key was pressed (`cv2.waitKey` returns -1) changes nothing. */
  lemma NoKeyChangesNothing(s: SessionState)
    requires WellFormed(s)
    ensures Step(s, Frame(NoKey)) == s
  {
    OtherKeysChangeNothing(s, NoKey);
  }

  /** Answering "n" at the prompt stops this sub-session without forcing an exit; any other
      answer resumes the loop. */
  lemma FailedPassAsksOperator(s: SessionState, answer: string)
    requires WellFormed(s)
    ensures Step(s, Failed(answer)) == s.(stopMainLoopFlag := answer == "n")
  {
  }

  /** Progress of a sub-session: the number of Enter presses it has taken. */
  function Progress(s: SessionState): int {
    if IsFollowUp(s.parameters) then |FollowUpGrasps| * s.repsCounter + s.graspIterator
    else s.repsCounter
  }

  /** Enter hands the frame to the persister with the counters as they were BEFORE they
      advance, then advances progress by exactly one; a follow-up moves to the next grasp and
      completes a repetition only after the last grasp, any other type completes a repetition
      at once; the stop flag is raised exactly when the repetition count reaches the target. */
  lemma EnterCapturesThenAdvances(s: SessionState)
    requires WellFormed(s) && !s.stopMainLoopFlag
    ensures var r := Step(s, Frame(Enter));
      && r.captures == s.captures + [Capture(s.parameters, s.repsCounter, s.graspIterator)]
      && Progress(r) == Progress(s) + 1
      && (IsFollowUp(s.parameters) ==>
            r.repsCounter == s.repsCounter + (if s.graspIterator == |FollowUpGrasps| - 1 then 1 else 0))
      && (!IsFollowUp(s.parameters) ==>
            r.repsCounter == s.repsCounter + 1 && r.graspIterator == s.graspIterator)
      && r.stopMainLoopFlag == (r.repsCounter == s.parameters.repetitions)
      && r.forceExit == s.forceExit
  {
  }

  // ---------------------------------------------------------------- invariants of a sub-session

  /** The repetition count never passes the target, and reaching it stops the loop. */
  ghost predicate WithinTarget(s: SessionState) {
    0 <= s.repsCounter <= s.parameters.repetitions &&
    (s.repsCounter == s.parameters.repetitions ==> s.stopMainLoopFlag)
  }

  lemma WithParamsWithinTarget(s: SessionState, p: Parameters)
    requires p.repetitions >= 1
    ensures WellFormed(WithParams(s, p)) && WithinTarget(WithParams(s, p))
  {
  }

  lemma StepKeepsWithinTarget(s: SessionState, tick: Tick)
    requires WellFormed(s) && WithinTarget(s) && !s.stopMainLoopFlag
    ensures WithinTarget(Step(s, tick))
  {
  }

  /** `reps_counter` never exceeds the target while the loop runs. */
  lemma {:induction false} RunKeepsWithinTarget(s: SessionState, ticks: seq<Tick>)
    requires WellFormed(s) && WithinTarget(s)
    ensures WithinTarget(Run(s, ticks).0)
    decreases |ticks|
  {
    if !s.stopMainLoopFlag && ticks != [] {
      StepKeepsWithinTarget(s, ticks[0]);
      RunKeepsWithinTarget(Step(s, ticks[0]), ticks[1..]);
    }
  }

  /** The capture taken as the `k`-th Enter of a sub-session: a follow-up is then at
      repetition `k / 4` and grasp `k % 4`; any other type at repetition `k`, grasp 0. */
  function CaptureAt(p: Parameters, k: nat): Capture {
    if IsFollowUp(p) then Capture(p, k / |FollowUpGrasps|, k % |FollowUpGrasps|) else Capture(p, k, 0)
  }

  function Captures(p: Parameters, n: nat): (r: seq<Capture>)
    ensures |r| == n && forall k :: 0 <= k < n ==> r[k] == CaptureAt(p, k)
  {
    seq(n, k requires 0 <= k => CaptureAt(p, k))
  }

  /** The persister has been handed exactly the captures of the Enters taken so far. */
  ghost predicate CaptureLog(s: SessionState, base: seq<Capture>) {
    && Progress(s) >= 0
    && (!IsFollowUp(s.parameters) ==> s.graspIterator == 0)
    && s.captures == base + Captures(s.parameters, Progress(s))
  }

  lemma StepKeepsCaptureLog(s: SessionState, tick: Tick, base: seq<Capture>)
    requires WellFormed(s) && CaptureLog(s, base)
    ensures CaptureLog(Step(s, tick), base)
  {
    if tick == Frame(Enter) {
      var p, c := s.parameters, Progress(s);
      assert CaptureAt(p, c) == Capture(p, s.repsCounter, s.graspIterator);
      assert Captures(p, c + 1) == Captures(p, c) + [CaptureAt(p, c)];
    }
  }

  lemma {:induction false} RunKeepsCaptureLog(s: SessionState, ticks: seq<Tick>, base: seq<Capture>)
    requires WellFormed(s) && CaptureLog(s, base)
    ensures CaptureLog(Run(s, ticks).0, base)
    decreases |ticks|
  {
    if !s.stopMainLoopFlag && ticks != [] {
      StepKeepsCaptureLog(s, ticks[0], base);
      RunKeepsCaptureLog(Step(s, ticks[0]), ticks[1..], base);
    }
  }

  /** Repetition `r` of a follow-up visits the four grasps once each, in list order. */
  lemma RepetitionVisitsEachGrasp(p: Parameters, n: nat, r: nat)
    requires IsFollowUp(p) && 4 * r + 4 <= n
    ensures Captures(p, n)[4 * r .. 4 * r + 4] ==
      [Capture(p, r, 0), Capture(p, r, 1), Capture(p, r, 2), Capture(p, r, 3)]
  {
    forall g | 0 <= g < 4
      ensures Captures(p, n)[4 * r + g] == Capture(p, r, g)
    {
      assert (4 * r + g) / 4 == r && (4 * r + g) % 4 == g;
    }
  }

  /** Two different follow-up captures with the same parameters never share a directory. */
  lemma DirectoryInjective(c1: Capture, c2: Capture)
    requires IsFollowUp(c1.parameters) && c2.parameters == c1.parameters
    requires 0 <= c1.graspIterator < |FollowUpGrasps| && 0 <= c2.graspIterator < |FollowUpGrasps|
    requires c1 != c2
    ensures Directory(c1) != Directory(c2)
  {
    if Directory(c1) == Directory(c2) {
      BuildPathInjective(c1.parameters, c1.repsCounter, c1.graspIterator, c2.repsCounter, c2.graspIterator);
    }
  }

  /** The captures of a follow-up sub-session are pairwise different. */
  lemma FollowUpCapturesDiffer(p: Parameters, n: nat)
    requires IsFollowUp(p)
    ensures forall k :: 0 <= k < n ==> 0 <= Captures(p, n)[k].graspIterator < |FollowUpGrasps|
    ensures forall i, j :: 0 <= i < j < n ==> Captures(p, n)[i] != Captures(p, n)[j]
  {
    forall i, j | 0 <= i < j < n
      ensures Captures(p, n)[i] != Captures(p, n)[j]
    {
      assert i == 4 * (i / 4) + i % 4 && j == 4 * (j / 4) + j % 4;
    }
  }

  /** A log that ends in the first `n` captures of a follow-up sub-session holds, after its
      first `|base|` entries, captures stored under pairwise different directories. */
  lemma FollowUpLogDistinct(base: seq<Capture>, p: Parameters, n: nat)
    requires IsFollowUp(p)
    ensures var log := base + Captures(p, n);
      && (forall i :: |base| <= i < |log| ==>
            log[i].parameters == p && 0 <= log[i].graspIterator < |FollowUpGrasps|)
      && forall i, j :: |base| <= i < j < |log| ==> Directory(log[i]) != Directory(log[j])
  {
    var cs := Captures(p, n);
    var log, m := base + cs, |base|;
    FollowUpCapturesDiffer(p, n);
    forall i, j | m <= i < j < |log|
      ensures Directory(log[i]) != Directory(log[j])
    {
      assert log[i] == cs[i - m] && log[j] == cs[j - m];
      DirectoryInjective(log[i], log[j]);
    }
  }

  /** Whatever the keys and failures, the captures of one follow-up sub-session are stored in
      pairwise different directories, appended after what the persister already had. */
  lemma FollowUpCapturesDistinct(s: SessionState, p: Parameters, ticks: seq<Tick>)
    requires IsFollowUp(p)
    ensures var after := Run(WithParams(s, p), ticks).0.captures;
      && |after| >= |s.captures| && after[..|s.captures|] == s.captures
      && (forall i :: |s.captures| <= i < |after| ==>
            after[i].parameters == p && 0 <= after[i].graspIterator < |FollowUpGrasps|)
      && forall i, j :: |s.captures| <= i < j < |after| ==> Directory(after[i]) != Directory(after[j])
  {
    var s0 := WithParams(s, p);
    RunKeepsCaptureLog(s0, ticks, s.captures);
    var s1 := Run(s0, ticks).0;
    FollowUpLogDistinct(s.captures, p, Progress(s1));
  }

  /** A capture that is not a follow-up is stored in one fixed directory, whatever the
      counters say, and that directory is the type directory plus the open-hand label. */
  lemma OtherCapturePath(p: Parameters, reps: int, grasp: int)
    requires !IsFollowUp(p)
    ensures BuildPath(p, reps, grasp) == Join(".", TypeSegments(p) + [OpenHand])
  {
    JoinAppend(".", TypeSegments(p), [OpenHand]);
    JoinSkipsEmpty(TypeDirectory(p), OpenHand);
  }

  /** Every capture of a sub-session of another type goes to the one fixed directory. */
  lemma OtherCapturesShareDirectory(s: SessionState, p: Parameters, ticks: seq<Tick>)
    requires !IsFollowUp(p)
    ensures var after := Run(WithParams(s, p), ticks).0.captures;
      && |after| >= |s.captures| && after[..|s.captures|] == s.captures
      && forall i :: |s.captures| <= i < |after| ==>
           after[i].parameters == p && after[i].repsCounter == i - |s.captures| &&
           Directory(after[i]) == Join(".", TypeSegments(p) + [OpenHand])
  {
    var s0 := WithParams(s, p);
    RunKeepsCaptureLog(s0, ticks, s.captures);
    var s1 := Run(s0, ticks).0;
    var after := s1.captures;
    forall i | |s.captures| <= i < |after|
      ensures Directory(after[i]) == Join(".", TypeSegments(p) + [OpenHand])
    {
      OtherCapturePath(p, after[i].repsCounter, after[i].graspIterator);
    }
  }

  // ---------------------------------------------------------------- complete sub-sessions

  function Enters(n: nat): (r: seq<Tick>)
    ensures |r| == n && forall i :: 0 <= i < n ==> r[i] == Frame(Enter)
  {
    seq(n, _ => Frame(Enter))
  }

  /** The Enters a sub-session takes to reach its target: four per repetition for a
      follow-up, one per repetition otherwise. */
  function Presses(p: Parameters): int {
    if IsFollowUp(p) then |FollowUpGrasps| * p.repetitions else p.repetitions
  }

  lemma {:induction false} RunEnters(s: SessionState, n: nat, base: seq<Capture>, rest: seq<Tick>)
    requires WellFormed(s) && !s.stopMainLoopFlag && s.repsCounter >= 0
    requires CaptureLog(s, base) && n >= 1
    requires Progress(s) + n == Presses(s.parameters)
    ensures Run(s, Enters(n) + rest) ==
      (s.(repsCounter := s.parameters.repetitions, graspIterator := 0, stopMainLoopFlag := true,
          captures := base + Captures(s.parameters, Presses(s.parameters))), n)
    decreases n
  {
    var ticks := Enters(n) + rest;
    StepKeepsCaptureLog(s, Frame(Enter), base);
    assert ticks[0] == Frame(Enter);
    if n > 1 {
      assert ticks[1..] == Enters(n - 1) + rest;
      RunEnters(Step(s, Frame(Enter)), n - 1, base, rest);
    }
  }

  /** A sub-session whose target is R >= 1 repetitions ends after exactly `Presses` Enters:
      all of them are consumed, nothing after them is, R repetitions are counted, the grasp
      cursor is back at the first grasp, the captures of `Captures` have been handed to the
      persister, and `force_exit` is as it was. */
  lemma SubSessionOfEnters(s: SessionState, p: Parameters, rest: seq<Tick>)
    requires p.repetitions >= 1
    ensures Run(WithParams(s, p), Enters(Presses(p)) + rest) ==
      (WithParams(s, p).(repsCounter := p.repetitions, stopMainLoopFlag := true,
                         captures := s.captures + Captures(p, Presses(p))),
       Presses(p))
  {
    RunEnters(WithParams(s, p), Presses(p), s.captures, rest);
  }
}
