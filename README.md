# Hand-capture experiments and joint-error metric, in Dafny

This project models the two parts of the hand-capture repository that hold its logic.

**The capture session and the experiment plan (`experiments.py`).**
- An `ExperimentRunner` keeps the session's parameters, a repetition counter, a grasp cursor, a stop flag and a force-exit flag.
- `set_params` starts a sub-session.
- Each pass of `start_main_loop` handles one key:
  - Esc stops the loop and forces an exit.
  - Enter saves the frames under the directory `build_path` derives from the counters, then advances the grasp (follow-up captures) or the repetition.
  - A pass that raises an exception asks the operator whether to go on.
- An `ExperimentController` runs `set_params` and the loop for every light setup, every distance setup and every iteration of its fixed plan. It returns at the first sub-session that reports `force_exit`.

**The metric calculator (`metric_calculator.py`).** It reads a gold-standard joint file and a comparison joint file and reshapes each into `total_joints` rows of (x, y, z). It scores them by the mean per-joint position error: the mean Euclidean distance between joints in the same row.

Modules:
- `wrappers.dfy`: `Option` and `Result`.
- `strings.dfy` (`PyStrings`): `str` of an integer and POSIX `os.path.join`, the two library functions that shape capture paths.
- `session.dfy` (`Session`): one sub-session as values.
  - the state, one pass of the loop (`Step`) and the loop (`Run`);
  - the capture directory (`BuildPath`);
  - the log of captures handed to the persister;
  - the lemmas about all of these.
- `plan.dfy` (`Plan`): the controller's nested setups, the flat sequence of `set_params` calls they produce (`PlanOf`), and the sweep over that sequence (`Sweep`).
- `experiments.dfy` (`Experiments`): the two classes. Their fields are updated in place, and every method is proved equal to the value model.
- `metric.dfy` (`Metrics`): distance, mean per-joint position error, reshape, file-name composition and the calculator.

Camera frames and keyboard reads are not modelled. A sub-session is driven by a finite sequence of passes (`Tick`):
- `Frame(key)` is a pass that reached `cv2.waitKey` with `key` (-1 for no key);
- `Failed(answer)` is a pass that raised an exception, followed by the operator's answer at the prompt.

Two details of the code that the model follows exactly:
- The docstring of `calculate_mean_per_joint_position_error` (metric_calculator.py:40-43) gives both arguments as `(total_joints x 3)`. The code raises `IndexError` only when the comparison has fewer rows, and extra comparison rows are never read (`ExtraComparisonRowsIgnored`).
- `build_path` puts `./experiments` in front of the volunteer's folder (experiments.py:390), so every capture directory lies under it (`BuildPath`).

## Model

| member | source | states |
|---|---|---|
| Experiments.ExperimentRunner.constructor | experiments.py:17-72 | A new runner has the default parameters, both counters at 0, both flags clear and no captures. |
| Experiments.ExperimentRunner.SetParams | experiments.py:74-84 | The six parameters are replaced, the repetition counter, grasp cursor and stop flag are reset, and `force_exit` and the captures keep their values. |
| Experiments.ExperimentRunner.CheckExitPressed | experiments.py:342-348 | Esc sets both the stop flag and `force_exit`; every other key leaves the state unchanged. |
| Experiments.ExperimentRunner.BuildPath | experiments.py:378-394 | The path is the one `os.path.join` call over the seven segments, which is the directory of the capture at the current counters. |
| Experiments.ExperimentRunner.SaveFrames | experiments.py:350-376 | The capture at the current counters is appended to the persister's log, nothing else changes, and the path returned is that capture's directory. |
| Experiments.ExperimentRunner.ProcessFrames | experiments.py:167-191 | The new state is one pass of the loop with that key: Esc checked first, then Enter saves before the counters advance and sets the stop flag exactly at the target. |
| Experiments.ExperimentRunner.StartMainLoop | experiments.py:122-137 | The loop's final state and the number of passes it consumed are those of `Run`, and the result is `force_exit`. |
| Experiments.ExperimentController.constructor | experiments.py:402-421 | The controller holds the default plan of 3 lights by 3 distances by 2 iterations, the volunteer's name and the runner. |
| Experiments.ExperimentController.ExecuteSetups | experiments.py:431-461 | Outcome, sub-sessions started, passes consumed and the runner's final state are those of `Sweep` over the plan's `set_params` calls in loop order. |
| Session.Step | experiments.py:167-191 | A pass keeps the grasp cursor inside the grasp list and never changes the parameters. |
| Session.Run | experiments.py:122-137 | The loop consumes at most the passes given and stops only on the stop flag or when the passes run out. It keeps the cursor in range and the parameters fixed, and never clears `force_exit`. |
| Session.EscForcesExit | experiments.py:342-346 | Esc sets the stop flag and `force_exit` and changes nothing else. |
| Session.OtherKeysChangeNothing | experiments.py:342-348 | Any key other than Enter and Esc, including no key, leaves the session unchanged. |
| Session.NoKeyChangesNothing | experiments.py:167-170 | A pass in which `cv2.waitKey` returns -1 leaves the session unchanged. |
| Session.FailedPassAsksOperator | experiments.py:125-133 | A failed pass only sets the stop flag, and sets it exactly when the answer is "n". |
| Session.EnterCapturesThenAdvances | experiments.py:170-191 | Enter logs the capture with the counters from before the advance, and then increases progress by exactly one. A follow-up completes a repetition only after the last grasp; other types complete one at once. The stop flag is set exactly when the count reaches the target. |
| Session.WithParamsWithinTarget | experiments.py:74-84 | With a target of at least one repetition, a fresh sub-session is well formed and within its target. |
| Session.StepKeepsWithinTarget | experiments.py:181-191 | While the loop runs, a pass keeps the repetition counter between 0 and the target, with the stop flag set at the target. |
| Session.RunKeepsWithinTarget | experiments.py:122-137 | The whole loop keeps the repetition counter within the target. |
| Session.StepKeepsCaptureLog | experiments.py:170-188 | After any pass, the persister's log is still the earlier log followed by the captures of the Enters so far. |
| Session.RunKeepsCaptureLog | experiments.py:122-137 | The same holds after the whole loop. |
| Session.RepetitionVisitsEachGrasp | experiments.py:181-186 | Repetition r of a follow-up captures the four grasps in list order, once each. |
| Session.GraspLabelsDistinct | experiments.py:57-62 | The four grasp labels are pairwise different. |
| Session.BuildPathIsOneJoin | experiments.py:383-390 | Joining the repetition folder and the grasp one at a time onto the type directory equals the single seven-segment join. |
| Session.FollowUpDirectoryShape | experiments.py:386-390 | A follow-up directory is the type directory, then `repetition_`, the number, a '/' and the grasp label. |
| Session.FollowUpDirectoryInjective | experiments.py:386-390 | Under one type directory, equal follow-up directories have equal repetition numbers and grasps. |
| Session.BuildPathInjective | experiments.py:378-390 | Two follow-up captures with the same parameters share a directory only if their counters are equal. |
| Session.DirectoryInjective | experiments.py:378-390 | Different follow-up captures with the same parameters have different directories. |
| Session.FollowUpCapturesDiffer | experiments.py:181-186 | The captures of a follow-up sub-session are pairwise different and have in-range grasps. |
| Session.FollowUpLogDistinct | experiments.py:172-188 | Behind any earlier log, the captures of a follow-up sub-session have pairwise different directories. |
| Session.FollowUpCapturesDistinct | experiments.py:170-191 | Whatever the keys and failures, one follow-up sub-session only appends captures, and each goes to its own directory. |
| Session.OtherCapturePath | experiments.py:383-390 | Outside follow-up, the directory ignores the counters: it is the five type segments plus `aberta`, with the empty repetition folder gone. |
| Session.OtherCapturesShareDirectory | experiments.py:383-390 | Every capture of a non-follow-up sub-session is appended with repetition numbers 0, 1, 2, ... and goes to that one directory. |
| Session.RunEnters | experiments.py:181-191 | Enters up to the target end the loop after exactly that many passes, with the counters at the target and cursor 0, and with all those captures logged. |
| Session.SubSessionOfEnters | experiments.py:181-191 | A sub-session with R >= 1 repetitions takes exactly 4R Enters for a follow-up and R otherwise. It ends with R repetitions, cursor 0, the captures of `Captures` logged and `force_exit` unchanged. |
| PyStrings.IntToString | experiments.py:387 | `str` of an integer is non-empty, starts with '-' exactly for negative numbers, and is digits everywhere else; a non-negative number prints as its digits. |
| PyStrings.NatToStringValue | experiments.py:387 | The digits printed for a natural number, read left to right in base ten, denote that number. |
| PyStrings.IntToStringValue | experiments.py:387 | The digits of `str(i)`, after the sign of a negative number, denote the magnitude of `i`. |
| PyStrings.IntToStringInjective | experiments.py:387 | Different integers print differently. |
| PyStrings.JoinSkipsEmpty | experiments.py:383-390 | An empty segment in `os.path.join` adds nothing once the next segment is joined. |
| Plan.DefaultIterationPlan | experiments.py:403-406 | Each distance runs the left-hand gold-standard capture, then the ten right-hand follow-up repetitions. |
| Plan.DefaultDistancePlan | experiments.py:408-412 | Each light runs distances 28, 35 and 37 in that order. |
| Plan.DefaultSetupsPlan | experiments.py:414-418 | The plan runs the lights "luz-na-mao", "luz-de-lado" and "luz-na-cam" in that order. |
| Plan.DefaultLightOrder | experiments.py:408-412 | The six sub-sessions of one light are ordered by distance, then by iteration. |
| Plan.DefaultPlanAt | experiments.py:403-418 | Entry 6l + k of the plan is iteration k mod 2 at distance k / 2 under light l, out of 18 entries. |
| Plan.DefaultPlanOrder | experiments.py:403-418 | The default plan has 18 sub-sessions in light, distance, iteration order. |
| Plan.Sweep | experiments.py:431-461 | A completed sweep started every entry. A forced exit leaves both flags set. Running out of passes leaves the loop waiting. The last parameters are those of the last entry started. A runner already forced to exit never completes a non-empty plan. |
| Plan.SweepAppend | experiments.py:431-461 | A sweep that stops inside the first part of a plan is the sweep of the whole plan. One that completes the first part goes on with the second part on the remaining passes. |
| Plan.SweepPrefix | experiments.py:457-461 | Once a prefix of the plan ends without completing, no later entry is run. |
| Plan.SweepOne | experiments.py:447-461 | A one-entry plan runs one sub-session, and the result is its outcome. |
| Plan.SweepNext | experiments.py:447-461 | After a completed sweep of the entries done so far, the next entry runs on the remaining passes, and its outcome decides the sweep. |
| Plan.IterationPlanPrefix | experiments.py:442-454 | The `set_params` calls of the first k iterations start the calls of all of them. |
| Plan.DistancePlanPrefix | experiments.py:437-454 | The same holds for the first j distance setups. |
| Plan.PlanOfPrefix | experiments.py:432-454 | The same holds for the first i light setups. |
| Plan.PlanBeforeNext | experiments.py:442-454 | Iteration k appends its own `set_params` call to the calls made before it. |
| Plan.PlanBeforeDistanceDone | experiments.py:437-454 | After the last iteration of distance setup j, the calls made are those of the first j + 1 distance setups. |
| Plan.PlanBeforeLightDone | experiments.py:432-454 | After the last distance setup of light setup i, the calls made are those of the first i + 1 light setups. |
| Plan.PlanBeforeIsPrefix | experiments.py:432-454 | The calls made before any point of the triple loop start the whole plan. |
| Plan.IterationStep | experiments.py:442-461 | After one pass of the inner loop, either the sweep has completed one more entry, or it ended there, and that is the whole plan's result. |
| Plan.EscEndsSweep | experiments.py:457-461 | Esc in the first pass of the first sub-session ends the sweep with a forced exit after one sub-session and one pass. |
| Plan.DeclinedPromptContinues | experiments.py:127-137 | Answering "n" after a failed pass ends only that sub-session, and the sweep continues with the next entry. |
| Plan.SweepOfEnters | experiments.py:431-461 | Pressing Enter exactly as often as each sub-session needs completes the whole plan, consumes exactly those presses and forces no exit. |
| Plan.CaptureThenAbortExample | experiments.py:403-461 | On a fresh runner, Enter then Esc captures one left-hand gold-standard frame, starts the follow-up at the same light and distance, and ends the sweep there. |
| Metrics.SquaredDistance | metric_calculator.py:62-65 | The squared distance is non-negative and is zero exactly for equal points. |
| Metrics.SqrtOfSquare | metric_calculator.py:67 | The root of the square of a non-negative number is that number. |
| Metrics.Distance | metric_calculator.py:54-67 | The distance is non-negative, its square is the squared distance, and it is zero exactly for equal points. |
| Metrics.DistanceSymmetric | metric_calculator.py:62-67 | d(a, b) == d(b, a). |
| Metrics.SquaredDistanceExamples | metric_calculator.py:65 | The 3-4-5 and 5-12-13 triangles have squared distances 25 and 169. |
| Metrics.DistanceExample | metric_calculator.py:62-67 | d((0,0,0), (3,4,0)) == 5. |
| Metrics.MeanPerJointPositionError | metric_calculator.py:39-52 | The row loop's result is `MeanPerJointError`. That is `IndexError` at the first missing comparison row, NaN (`EmptyMean`) for no rows, and otherwise the mean of the row-by-row distances. |
| Metrics.SumNonNegative | metric_calculator.py:52 | A sum of non-negative distances is non-negative, and it is zero exactly when every distance is zero. |
| Metrics.MeanPerJointErrorZero | metric_calculator.py:39-52 | A computed error is non-negative. It is zero exactly when every gold joint equals the comparison joint in its row. |
| Metrics.ExtraComparisonRowsIgnored | metric_calculator.py:46-47 | Comparison rows past the last gold row do not change the result. |
| Metrics.MeanPerJointErrorSymmetric | metric_calculator.py:46-52 | With equally many rows, swapping the two recordings gives the same result. |
| Metrics.MeanPerJointErrorExample | metric_calculator.py:39-52 | Joints at distances 5 and 13 average to 9. |
| Metrics.Reshape | metric_calculator.py:34-37 | Reshaping succeeds exactly when the size is 3 × `total_joints`, or, for a negative count (the unknown dimension), when the size is a multiple of 3. Row i is then elements 3i, 3i + 1 and 3i + 2. |
| Metrics.ReshapeFlatten | metric_calculator.py:34-37 | Reshaping the row-major flattening of n points into n rows gives the points back. |
| Metrics.FlattenReshape | metric_calculator.py:34-37 | A successful reshape is undone by flattening. |
| Metrics.ReshapeExamples | metric_calculator.py:34-37 | Six numbers reshape into two rows, and not into fourteen; a count of -2 infers the same two rows; five numbers fit no row count. |
| Metrics.JointsPathShape | metric_calculator.py:26-27 | The dated file is the undated file of the date's folder. Either way the name ends in `/<grasp>`, and the undated one starts with `<root>/`. |
| Metrics.MetricCalculator.FetchJoints | metric_calculator.py:26-32 | The joints are read from the composed path. The read fails, naming that path, exactly when the file is missing. |
| Metrics.MetricCalculator.CalculateMetrics | metric_calculator.py:10-24 | The steps run in order: read gold, read comparison, reshape gold, reshape comparison, score. The first failure is the result. |
| Metrics.MetricCalculator.MetricsReadsTwoFiles | metric_calculator.py:16-17 | The score depends only on the gold-standard file without a date and the comparison file with it. |
| Metrics.MetricCalculator.MetricsWithFixedJointCount | metric_calculator.py:19-22 | With a fixed joint count the score never fails on a missing row. It is non-negative, or NaN only for zero joints. |
| Metrics.MetricCalculator.IdenticalRecordingScoresZero | metric_calculator.py:10-24 | A comparison identical to the gold standard scores exactly 0. |

## Left out

- Camera set-up, streaming, alignment, depth filtering, background removal, the centroid and all drawing (`config_cam`, `process_frames` before the key read, experiments.py:90-120 and 193-340): hardware and image work. A pass is reduced to the key it read.
- A pass whose frames are missing (experiments.py:148-149) returns before the key read. It changes no state, the same as `Frame(-1)`.
- `start` is `config_cam` followed by `start_main_loop`. Only the loop is modelled. `stop` and `pipeline.stop()` only close windows and the camera.
- Experiments.ExperimentRunner.StartMainLoop: the loop also returns when the supplied passes run out with the stop flag still clear. The real loop would wait for more frames.
- Experiments.ExperimentController.ExecuteSetups: `execute_setups` returns nothing on every path; a caller learns of a forced exit only from the runner's `force_exit`. The outcome, the number of sub-sessions started and the number of passes consumed that the model returns are observations added to state its contract, and the outcome `AwaitingInput` reports the case where the supplied passes run out.
- The exception caught in `start_main_loop` is a `Failed` pass taken before any state change. An exception thrown after `save_frames` began, leaving a partly advanced state, is not modelled.
- The images, depth matrix and centroid file written by `save_frames` and the `os.makedirs` in `build_path`. The persister is a log of the captures it was handed, and the path is computed.
- `ExperimentController.execute` only wraps `execute_setups` in a catch that prints. The `__main__` block, `main.py`, `gui.py`, `main-metric-calculator.py` and the `study` scripts are not part of this model. `test_metric_calculator.py` calls the calculator's constructor without its arguments and a method that does not exist, so it states nothing.
- `read_file` / `np.loadtxt`: text parsing is not modelled. The readable files are a map from path to the numbers they hold, in order.
- Floating point: coordinates are reals and `math.sqrt` is a parameter with the defining property of a square root (`IsSqrt`). Rounding is not modelled. NaN appears only as `EmptyMean`, the mean of no distances.
- Metrics.Reshape: a negative joint count is inferred from the size, as NumPy 1.x does for any negative entry of the shape; NumPy versions that accept only -1 as the unknown dimension would reject the other negative counts. No caller of the calculator passes a negative count.
- `np.reshape` of a file with more than one line reads the numbers in the same row-major order, so only the flat sequence is modelled.
