# Verified model of the multi-robot BCI teleoperation core

This project models, in Dafny, the logic that sits between a brain-computer interface
and a fleet of simulated robot arms.

- **Vectorised environment coordinator** (`AsyncVectorEnv`). One coordinator drives
  several sub-environments, each living in its own worker process.
  - It fans every call out as a two-phase protocol: an `*_async` half sends one message
    per pipe and records a pending-call tag; a `*_wait` half checks the tag, polls,
    drains the shared error queue and receives one reply per pipe.
  - The worker side is a dispatch loop that answers every command it takes with exactly
    one reply.
- **EEG decoders.** The two threshold models latch each emitted class until its
  likelihood falls below 0.8. The `get_model` closure turns an RMS vector into a
  1-based command, and the `Decoder` has a start/stop guard.
- **Session bookkeeping.**
  - The error-rate counter, the interaction recorder and the task timer of `metrics.py`.
  - The two `AppState.update_command` variants.
  - The per-agent action masking that zeroes the action block of every idle robot;
    it appears in three copies.
  - The two gaze-to-quadrant maps.
- **Browser helpers.**
  - The `rgba(...)` encoder and scaler of `utils.js`.
  - The keyboard key map.
  - The cue list of the data-collection screen, with its Fisher–Yates shuffle and its
    LIFO trial loop.
- **Mock EEG buffer.** A bounded buffer that drops its oldest columns first.

Python values are modelled by one datatype, `Values.Value`, with `None`, booleans,
integers, reals, strings, lists, tuples and string-keyed dictionaries. An exception is
modelled as a value: `Outcome.Raised` carries the exception's name, and the coordinator
uses `Result.Err` over an `Error` datatype.

The coordinator is a class whose state is:
- the pending-call tag;
- the `closed` flag;
- the pipes, each either a queue of sent messages plus a queue of replies, or `Gone` once
  `_raise_if_errors` has replaced it with `None`;
- the error queue;
- the observation batch.

Replies, worker errors and, in shared-memory mode, the workers' writes to the shared
observation buffer enter this state through three input methods: `Deliver`, `ReportError`
and `WriteSlot`. Construction (`Open`) sets the coordinator up and then runs the
observation-space check, which makes it fail with RuntimeError when the workers' spaces
disagree. Each sub-environment is a function from its state, a method name and the
argument tuple to a return value or an exception. The worker loop is proved against that
function.

## Model

| member | source | states |
|---|---|---|
| Values.Item | app/utils/metrics.py:48-49 | `x[key]` succeeds exactly when `x` is a dict holding `key` and then yields its entry; otherwise it raises KeyError on a dict and TypeError on anything else |
| Values.PyIndex | app/async_vector_env.py:348 | a Python list index is valid exactly when `-n <= i < n`; a negative index counts from the end |
| Values.PySlice | app/async_vector_env.py:507 | `s[lo:hi]` is the ordinary slice when the bounds are in range, is empty when `lo` is past the end or `hi <= lo`, and is never longer than `s` |
| Decimal.DigitsValueOfNatToString | app/static/utils.js:9 | reading back the decimal text JavaScript writes for a natural number gives that number again |
| Decimal.NatToStringInjective | app/static/keyboard.js:7 | distinct numbers are written as distinct decimal strings |
| Worker.Dispatch | app/async_vector_env.py:579-623 | one pass through the command chain: only `close` leaves the loop politely, an unrecognised command fails with RuntimeError whose message names the command and lists the accepted ones (without `visuals` in the shared-memory worker), `visual` fails with NotImplementedError, `_check_observation_space` answers whether the given space equals the worker's, and only `reset` and `step` in shared-memory mode write the slot |
| Worker.Serve | app/async_vector_env.py:577-626 | serving a command stream changes nothing once the loop is left or no command is left, takes at least one command otherwise, and only ever appends to the error queue |
| Worker.RunWorker | app/async_vector_env.py:573-629 | the worker loop computes exactly the trace of serving the command stream; it never takes more commands than it was given, and it has sent one reply per command taken |
| Worker.OneReplyPerCommand | app/async_vector_env.py:578-626 | every command taken off the pipe gets exactly one reply, earlier replies are kept, and a loop still running has taken every command |
| Worker.AtMostOneError | app/async_vector_env.py:623-625 | a worker puts at most one record on the error queue, under its own index, and only as it leaves the loop |
| Worker.CloseEndsLoop | app/async_vector_env.py:615-617 | `close` is answered with None, adds no error and ends the loop, so nothing after it is read |
| Worker.UnknownCommandFails | app/async_vector_env.py:620-626 | an unrecognised command queues `(index, RuntimeError, …)`, still sends a None reply and ends the loop |
| Worker.NoneAnswers | app/async_vector_env.py:612-626 | `seed`, `close` and unrecognised commands are always answered with None, whether the sub-environment call succeeds or raises |
| Worker.StepDoneAutoResets | app/async_vector_env.py:583-587 | after a step whose `done` is truthy, the reply carries the observation of the following reset with the terminal reward, done and info; in shared-memory mode the observation goes to the slot and None is sent in its place |
| VectorEnv.FirstUnsendable | app/async_vector_env.py:152-153 | the first pipe a broadcast cannot send on: every earlier pipe is open, and this one is closed or gone |
| VectorEnv.Broadcast | app/async_vector_env.py:152-153 | the fan-out sends the same `(command, data)` message to each of the `n` workers |
| VectorEnv.PolicyActionMsgs | app/async_vector_env.py:501-507 | worker `idx` is sent the observation, the block `command[idx*k : idx*k+k]` and the norm flag |
| VectorEnv.BlockIsSlice | app/async_vector_env.py:505-507 | when the command is long enough, the block of worker `idx` is exactly `command[idx*k .. idx*k+k]` |
| VectorEnv.BlocksCover | app/async_vector_env.py:501-507 | the blocks sent to the `n` workers, joined in worker order, are exactly the first `n*k` command entries: they are contiguous and disjoint |
| VectorEnv.CommandBlocksPartition | app/async_vector_env.py:501-507 | when the command has exactly `n*k` entries, the blocks partition it |
| VectorEnv.PollFrom | app/async_vector_env.py:298-310 | `_poll` raises AttributeError only at a pipe replaced by None; it blocks (WouldBlock) only when no timeout was given |
| VectorEnv.PollWithoutTimeout | app/async_vector_env.py:298-310 | without a timeout `_poll` answers false exactly when it reaches a closed pipe after open pipes that all had replies |
| VectorEnv.PollTrueIffAllReady | app/async_vector_env.py:298-310 | `_poll` answers true exactly when every pipe is open and has a reply ready |
| VectorEnv.DrainSpec | app/async_vector_env.py:327-337 | draining empties the queue and replaces exactly the pipes at reported indices with Gone; it raises the last record's exception, and an empty queue changes nothing |
| VectorEnv.Drain | app/async_vector_env.py:327-337 | `_raise_if_errors` keeps one entry per pipe; it raises exactly when an error was queued; records are left queued only when it stops with AttributeError at a second record for a pipe already replaced by None |
| VectorEnv.DrainSuffix | app/async_vector_env.py:327-337 | what is left queued was queued before, and what is raised is a worker's exception or that AttributeError, never a timeout |
| VectorEnv.WaitPrelude | app/async_vector_env.py:169-179 | the prelude of a `_wait` keeps one entry per pipe, and every entry left in the error queue was already in it |
| VectorEnv.WaitPreludeProtocol | app/async_vector_env.py:169-179 | every `_wait` raises ClosedEnvironment when closed and NoAsyncCall unless its own tag is pending; when the poll fails it resets the tag to DEFAULT and raises TimeoutError, or TypeError when no timeout was given (formatting `timeout > 1` compares None with an int); it goes on only when all pipes are ready and no error is queued |
| VectorEnv.SeedsFor | app/async_vector_env.py:129-133 | `seed(None)` gives one None per worker, `seed(s)` gives `s, s+1, …, s+n-1`, and a list is used only when its length is `num_envs` (AssertionError otherwise) |
| VectorEnv.CamKeyInjective | app/async_vector_env.py:381-384 | the keys `rgb:franka{idx}_front_cam:256x256:2d` of different workers differ |
| VectorEnv.HasWaitMethodExactly | app/async_vector_env.py:274 | only the `reset`, `step` and `policy_reset_env` tags name an existing `_wait` method |
| VectorEnv.StepMsgs | app/async_vector_env.py:202-203 | `zip(pipes, actions)` sends `("step", actions[i])` to the first `min(n, len(actions))` workers only |
| VectorEnv.UnpackStep | app/async_vector_env.py:239-248 | `zip(*results)` unpacks into observations, rewards, dones and infos exactly when every reply is a sequence and the shortest has 4 items; otherwise it raises TypeError or ValueError; each field is taken per worker |
| VectorEnv.Subscript | app/async_vector_env.py:527-528 | `v[k]` yields entry `k` of a list or tuple and the one-character string at `k` of a string; past the end it raises IndexError, on a dict KeyError, and on anything else TypeError |
| VectorEnv.Elements | app/async_vector_env.py:528 | `extend(v)` appends the entries of a list or tuple, or the characters of a string one by one; anything else is not iterable |
| VectorEnv.PairError | app/async_vector_env.py:526-528 | one pass of the unpacking loop succeeds exactly when `pair[0]` and `pair[1]` exist and `pair[1]` is iterable, so only sequences and strings of at least two entries pass; a short one raises IndexError, a dict KeyError |
| VectorEnv.FirstPairError | app/async_vector_env.py:526-528 | the unpacking loop fails exactly when some reply fails its pass, and the error is that reply's |
| VectorEnv.UnpackPolicy | app/async_vector_env.py:522-532 | the unpacking succeeds exactly when there is a reply and every reply passes the loop with a sequence as its action, so a string reply always fails (in `np.concatenate`, with ValueError); the error is the loop's first, else ValueError |
| VectorEnv.PolicyActionsLayout | app/async_vector_env.py:526-529 | the action is the concatenation of the workers' actions and the flags are the flattened done lists: their lengths are the sums of the parts, and entry `j` of worker `i` sits at that worker's offset plus `j` |
| VectorEnv.FirstWithoutFrontCam | app/async_vector_env.py:381-384 | the first visuals reply without the `franka0` front-camera entry; every earlier reply has it |
| VectorEnv.CamKeysGrow | app/async_vector_env.py:381-384 | each worker adds one new key to the visuals dictionary |
| VectorEnv.CollectVisuals | app/async_vector_env.py:379-384 | it receives replies in worker order until one lacks the front camera, then raises that reply's error; otherwise it builds the dictionary from the keys of all workers |
| VectorEnv.SeedMsgs | app/async_vector_env.py:140-141 | worker `i` is sent `("seed", seeds[i])` |
| VectorEnv.AsyncVectorEnv.constructor | app/async_vector_env.py:65-113 | before the observation-space check, a new coordinator has one open, empty pipe per environment, no pending call, an empty error queue, one observation slot per environment, and is not closed |
| VectorEnv.Open | app/async_vector_env.py:65-115 | construction succeeds exactly when every worker's observation space equals the given one and raises RuntimeError otherwise; the new coordinator then has no pending call and each open pipe has sent just the space check, whose answer was received |
| VectorEnv.AsyncVectorEnv.WriteSlot | app/async_vector_env.py:639-650 | in shared-memory mode a worker's write replaces its own observation slot and no other |
| VectorEnv.AsyncVectorEnv.Deliver | app/async_vector_env.py:580-626 | a worker's reply is appended to its pipe's reply queue; a pipe that was replaced by None stays gone |
| VectorEnv.AsyncVectorEnv.ReportError | app/async_vector_env.py:623-624 | a worker's error record is appended to the shared queue |
| VectorEnv.AsyncVectorEnv.RunningCheck | app/async_vector_env.py:322-325 | `_assert_is_running` raises ClosedEnvironment exactly when the coordinator is closed |
| VectorEnv.AsyncVectorEnv.Poll | app/async_vector_env.py:298-310 | `_poll` raises ClosedEnvironment when closed and otherwise answers as `PollFrom` does |
| VectorEnv.AsyncVectorEnv.RaiseIfErrors | app/async_vector_env.py:327-337 | the drain loop leaves the pipes, the queue and the raised error that `Drain` describes |
| VectorEnv.AsyncVectorEnv.SendEach | app/async_vector_env.py:152-153 | it sends message `i` to pipe `i` in order and stops with the error of the first pipe it cannot send on |
| VectorEnv.AsyncVectorEnv.StartCall | app/async_vector_env.py:145-154 | the shared `_async` half: ClosedEnvironment when closed; AlreadyPendingCall with nothing changed while a call is pending; otherwise one message per pipe and the new tag, with the tag left as it was when a send fails |
| VectorEnv.AsyncVectorEnv.ResetAsync | app/async_vector_env.py:145-154 | `reset_async` broadcasts `("reset", None)` and sets WAITING_RESET, guarded as in StartCall |
| VectorEnv.AsyncVectorEnv.StepAsync | app/async_vector_env.py:189-204 | `step_async` sends the zipped step messages and sets WAITING_STEP, guarded as in StartCall |
| VectorEnv.AsyncVectorEnv.GetVisualsAsync | app/async_vector_env.py:355-366 | `get_visuals_async` performs no pending-call check: it broadcasts `("visuals", None)` and overwrites any pending tag with WAITING_VISUALS |
| VectorEnv.AsyncVectorEnv.SetupMotionPlannerPoliciesAsync | app/async_vector_env.py:422-430 | it broadcasts the horizon and sets WAITING_MPP_SETUP, guarded as in StartCall |
| VectorEnv.AsyncVectorEnv.PolicyResetEnvAsync | app/async_vector_env.py:454-462 | it broadcasts `policy_reset_env` and sets WAITING_POLICY_RESET, guarded as in StartCall |
| VectorEnv.AsyncVectorEnv.GetPolicyActionAsync | app/async_vector_env.py:495-508 | it sends every worker its own command block and sets WAITING_POLICY_ACTION, guarded as in StartCall |
| VectorEnv.AsyncVectorEnv.GetPolicyDoneSubtasksAsync | app/async_vector_env.py:539-547 | it broadcasts `get_policy_done_subtasks` and sets WAITING_POLICY_DONE_SUBTASKS, guarded as in StartCall |
| VectorEnv.AsyncVectorEnv.BeginWait | app/async_vector_env.py:169-179 | the shared `_wait` prelude leaves the state `WaitPrelude` describes, including the TypeError of a failed poll without a timeout; when it goes on, every pipe is ready, nothing was queued and the tag is its own |
| VectorEnv.AsyncVectorEnv.RecvAll | app/async_vector_env.py:180 | it receives the head reply of every pipe, in worker order, and removes exactly those replies |
| VectorEnv.AsyncVectorEnv.ResetWait | app/async_vector_env.py:156-187 | `reset_wait` either raises the prelude's error or receives one reply per pipe and ends in DEFAULT; the observations are those replies, or in shared-memory mode the buffer as the workers' writes (`WriteSlot`) left it |
| VectorEnv.AsyncVectorEnv.StepWait | app/async_vector_env.py:206-248 | `step_wait` either raises the prelude's error or receives one reply per pipe and ends in DEFAULT, and then either raises the unpacking error or returns the unpacked batch, whose observations in shared-memory mode are the buffer as the workers' writes left it |
| VectorEnv.AsyncVectorEnv.RecvVisuals | app/async_vector_env.py:379-385 | it receives visuals in worker order, stops at the first reply without the front camera and raises its error; otherwise it returns the dictionary of all front-camera images |
| VectorEnv.AsyncVectorEnv.GetVisualsWait | app/async_vector_env.py:368-387 | `get_visuals_wait` passes the prelude and then either builds the visuals dictionary and ends in DEFAULT, or raises on the first bad reply with WAITING_VISUALS still pending |
| VectorEnv.AsyncVectorEnv.CollectWait | app/async_vector_env.py:432-447 | the plain `_wait` either raises the prelude's error or returns the head reply of every pipe in worker order and ends in DEFAULT |
| VectorEnv.AsyncVectorEnv.SetupMotionPlannerPoliciesWait | app/async_vector_env.py:432-447 | it returns one result per worker in worker order and ends in DEFAULT, or raises the prelude's error |
| VectorEnv.AsyncVectorEnv.PolicyResetEnvWait | app/async_vector_env.py:464-479 | it returns one result per worker in worker order and ends in DEFAULT, or raises the prelude's error |
| VectorEnv.AsyncVectorEnv.GetPolicyDoneSubtasksWait | app/async_vector_env.py:549-565 | it returns one list per worker in worker order and ends in DEFAULT, or raises the prelude's error |
| VectorEnv.AsyncVectorEnv.GetPolicyActionWait | app/async_vector_env.py:510-532 | it receives one pair per worker and returns their unpacking; it ends in DEFAULT only when the unpacking succeeds |
| VectorEnv.AsyncVectorEnv.ExchangeAll | app/async_vector_env.py:142-143 | every pipe answers its message and hands back its oldest reply, in worker order |
| VectorEnv.AsyncVectorEnv.Seed | app/async_vector_env.py:117-143 | `seed` raises ClosedEnvironment, the length assertion or AlreadyPendingCall with the pipes untouched; otherwise it sends `("seed", seed_i)` to every worker and receives each None reply |
| VectorEnv.AsyncVectorEnv.CheckObservationSpaces | app/async_vector_env.py:312-320 | every worker is asked about the space and answers whether its own space equals it; with no stale replies, the check passes exactly when all spaces agree, and it raises RuntimeError otherwise |
| VectorEnv.AsyncVectorEnv.AnswerSpaceChecks | app/async_vector_env.py:316-320 | the receiving half: each pipe receives its answer; with no stale replies, it succeeds exactly when every answer is true |
| VectorEnv.AsyncVectorEnv.SendTo | app/async_vector_env.py:486-488 | a single-worker send: ClosedEnvironment when closed, IndexError for an index outside `-n..n-1`, the pipe's error when it cannot send, and otherwise exactly that pipe gets the message |
| VectorEnv.AsyncVectorEnv.SetStatusLedOff | app/async_vector_env.py:407-411 | sends `("led_off", robot_idx)` to the chosen worker and returns True |
| VectorEnv.AsyncVectorEnv.SetStatusLedOn | app/async_vector_env.py:414-418 | sends `("led_on", robot_idx)` to the chosen worker and returns True |
| VectorEnv.AsyncVectorEnv.PolicyResetEnvSingle | app/async_vector_env.py:486-488 | sends `("policy_reset_env_single", robot_idx)` to the chosen worker |
| VectorEnv.AsyncVectorEnv.PolicyResetDoneSubtasks | app/async_vector_env.py:490-492 | sends `("policy_reset_done_subtasks", robot_idx)` to the chosen worker |
| VectorEnv.AsyncVectorEnv.GetSingleVisuals | app/async_vector_env.py:345-351 | it sends `("get_single_visuals", robot_idx)` to one worker and returns that pipe's next reply; the checks are as in SendTo |
| VectorEnv.AsyncVectorEnv.FinishPending | app/async_vector_env.py:269-277 | a pending call whose tag has no `_wait` method raises AttributeError and changes nothing; a TimeoutError of the `_wait` turns into terminate, and every other error of its prelude, including the TypeError of a failed poll without a timeout, escapes unchanged |
| VectorEnv.AsyncVectorEnv.AskWorkersToClose | app/async_vector_env.py:284-289 | each still-open pipe is sent `("close", None)` exactly once; a pipe that is None raises AttributeError, after the pipes before it were sent `close` and with the rest untouched |
| VectorEnv.AsyncVectorEnv.ClosePipes | app/async_vector_env.py:291-292 | every pipe is closed and keeps its queues; a pipe that is None raises AttributeError, after the pipes before it were closed and with the rest untouched |
| VectorEnv.AsyncVectorEnv.Close | app/async_vector_env.py:250-296 | closing twice is a no-op; a successful close leaves every pipe closed and the coordinator closed, and without terminate each open pipe was sent one `close`; a failed close leaves it open; a timeout of the pending `_wait` terminates the workers, while any other error of its prelude (such as the TypeError of a failed poll without a timeout) escapes, leaving the coordinator open and nothing terminated |
| VectorEnv.AsyncVectorEnv.GetVisuals | app/async_vector_env.py:401-403 | ClosedEnvironment when closed, the send error of the first unsendable pipe, and DEFAULT after a success |
| VectorEnv.AsyncVectorEnv.SetupMotionPlannerPolicies | app/async_vector_env.py:449-451 | refused while closed or while a call is pending (the tag stays); a success returns one result per worker and ends in DEFAULT |
| VectorEnv.AsyncVectorEnv.PolicyResetEnv | app/async_vector_env.py:481-483 | refused while closed or while a call is pending (the tag stays); a success returns one result per worker and ends in DEFAULT |
| VectorEnv.AsyncVectorEnv.GetPolicyAction | app/async_vector_env.py:534-536 | refused while closed or while a call is pending (the tag stays); a success ends in DEFAULT |
| VectorEnv.AsyncVectorEnv.GetPolicyDoneSubtasks | app/async_vector_env.py:567-569 | refused while closed or while a call is pending (the tag stays); a success returns one list per worker and ends in DEFAULT |
| Vectors.PadOrTruncate | app/devices/eeg/models/threshold_model.py:29-34 | the vector gets exactly `n` entries: its own values where it has them, and zeros after its end |
| Vectors.ArgMax | app/devices/eeg/models/threshold_model.py:37 | `np.argmax` is an index of a maximum, and the first such index |
| Vectors.Broadcast | app/devices/eeg/models/threshold_model.py:26 | numpy elementwise arithmetic succeeds exactly when the lengths agree or one of them is 1; it has the broadcast length and applies the operator entry by entry |
| Vectors.Scale | app/devices/eeg/models/threshold_model.py:36 | every entry is divided by the threshold |
| Vectors.ClipNegative | app/devices/eeg/models/threshold_model.py:102 | `np.maximum(v, 0)` keeps non-negative entries and turns negative ones into 0 |
| ThresholdModels.Decide | app/devices/eeg/models/threshold_model.py:37-43 | a class is emitted exactly when the first maximum is at least 1 and its flag is clear, and it is that maximum, which lies below `num_classes` |
| ThresholdModels.NextFlags | app/devices/eeg/models/threshold_model.py:38-48 | a flag whose likelihood is below 0.8 is cleared, the emitted class's flag is set, and every other flag keeps its value |
| ThresholdModels.Latch | app/devices/eeg/models/threshold_model.py:37-48 | the set-then-clear loop emits what Decide says and leaves the flags NextFlags describes |
| ThresholdModels.LatchHolds | app/devices/eeg/models/threshold_model.py:38-48 | a set flag stays set over any run of calls in which that class's likelihood stays at or above 0.8 |
| ThresholdModels.NotEmittedAgain | app/devices/eeg/models/threshold_model.py:38-48 | once a class is emitted, it is not emitted again until some later call sees its likelihood below 0.8 |
| ThresholdModels.RatioLikelihoods | app/devices/eeg/models/threshold_model.py:26-36 | the likelihoods exist exactly when the RMS and baseline broadcast; they have `num_classes` entries, each a ratio divided by the threshold, or 0 past the ratio's end |
| ThresholdModels.DiffLikelihoods | app/devices/eeg/models/threshold_model.py:90-102 | when they exist, the difference likelihoods have `num_classes` entries and none is negative |
| ThresholdModels.DiffLikelihoodsBroadcast | app/devices/eeg/models/threshold_model.py:90-102 | for operands of any lengths, the difference likelihoods raise ValueError exactly when numpy cannot broadcast them; otherwise class `i` gets its clipped rise over the baseline divided by the threshold (length-1 operands repeated), or 0 past the broadcast length |
| ThresholdModels.DiffLikelihoodsValues | app/devices/eeg/models/threshold_model.py:90-102 | with matching lengths and a positive baseline, a class whose RMS did not rise gets 0, and the others get their rise over the baseline divided by the threshold |
| ThresholdModels.Ones | app/devices/eeg/models/threshold_model.py:20 | the default baseline has `num_classes` entries, all positive |
| ThresholdModels.ThresholdModel.constructor | app/devices/eeg/models/threshold_model.py:9-23 | the baseline is the given one or `num_classes` ones, and every flag starts clear |
| ThresholdModels.ThresholdModel.Call | app/devices/eeg/models/threshold_model.py:25-50 | a call raises ValueError with the flags untouched when the shapes do not broadcast or there are no classes; otherwise it returns Decide's class and the likelihoods, and moves the flags to NextFlags |
| ThresholdModels.ThresholdDiffModel.constructor | app/devices/eeg/models/threshold_model.py:72-87 | the baseline is the given one or ones, `prev_rms` starts as the baseline, and every flag starts clear |
| ThresholdModels.ThresholdDiffModel.Call | app/devices/eeg/models/threshold_model.py:89-110 | `prev_rms` becomes the current RMS whenever the difference is computed; otherwise the call behaves as ThresholdModel.Call over the difference likelihoods |
| EegDecoder.Classify | app/devices/eeg.py:54-66 | the likelihoods are the RMS padded or truncated to `num_classes`; the command lies in `0..num_classes` and is non-zero exactly when some likelihood exceeds the threshold; it is then one plus the first maximum |
| EegDecoder.Decoder.constructor | app/devices/eeg.py:78-85 | a new decoder is not running and has no subscription |
| EegDecoder.Decoder.Start | app/devices/eeg.py:87-100 | starting a running decoder changes nothing; otherwise it subscribes once and becomes running |
| EegDecoder.Decoder.Stop | app/devices/eeg.py:111-115 | stopping always clears the running flag and disposes of the subscription when there is one |
| Metrics.Zip | app/utils/metrics.py:140 | `zip` pairs entries up to the length of the shorter list |
| Metrics.ComputeErrorRate | app/utils/metrics.py:137-149 | `totalCount` is the number of acceptable pairs, `errorCount` the number of acceptable pairs whose subtask was done, so `errorCount <= totalCount` |
| Metrics.TotalIsCountedCardinality | app/utils/metrics.py:140-143 | the running total counts exactly the indices of acceptable pairs |
| Metrics.ErrorIsErrorCardinality | app/utils/metrics.py:140-145 | the error counter counts exactly the indices of acceptable pairs with `hasSubtaskNotDone` false |
| Metrics.ErrorsAtMostTotal | app/utils/metrics.py:143-145 | there are never more errors than counted interactions |
| Metrics.CountsAppend | app/utils/metrics.py:140-145 | the counts over two concatenated histories are the sums of the counts |
| Metrics.UnacceptableIgnored | app/utils/metrics.py:141-142 | inserting an entry that is not acceptable changes neither count |
| Metrics.ZipIgnoresSurplus | app/utils/metrics.py:140 | entries past the end of the shorter list do not matter |
| Metrics.FieldValues | app/utils/metrics.py:48-49 | the list comprehension yields every record's field in order when all have it, and raises the error of the first record that lacks it |
| Metrics.Distinct | app/utils/metrics.py:48-49 | `set(...)` holds exactly the values of the list |
| Metrics.SessionSummary | app/utils/metrics.py:48-49 | it succeeds exactly when every record has `username` and `agentId`; the usernames are the distinct usernames in the history, and `numAgents` is the number of distinct agent ids, at most the number of records |
| Metrics.DistinctAtMostLength | app/utils/metrics.py:48-49 | a list has at most as many distinct values as entries |
| Metrics.InteractionRecorder.constructor | app/utils/metrics.py:26-28 | the recorder starts with an empty history and no users |
| Metrics.InteractionRecorder.Reset | app/utils/metrics.py:30-32 | `reset` empties the history and the user table |
| Metrics.InteractionRecorder.AddUser | app/utils/metrics.py:34-35 | `add_user` sets or overwrites exactly one key and leaves every other user as it was |
| Metrics.InteractionRecorder.Record | app/utils/metrics.py:37-39 | `record` raises AssertionError with the history untouched unless the user was added, and otherwise appends exactly the given record |
| Metrics.InteractionRecorder.SaveSession | app/utils/metrics.py:41-53 | the summary `save_session` writes is SessionSummary of the history, with no more usernames or agents than records |
| Metrics.TaskCompletionTimer.constructor | app/utils/metrics.py:11-13 | a new timer has neither a start time nor an elapsed time |
| Metrics.TaskCompletionTimer.Start | app/utils/metrics.py:15-17 | `start` records the given time and clears `elapsed` |
| Metrics.TaskCompletionTimer.Stop | app/utils/metrics.py:19-22 | `stop` raises ValueError exactly when the timer was never started, and otherwise sets `elapsed` to the time since the start |
| AppSession.Written | app/app_state.py:20-28 | an `eeg` event writes its data; a keydown writes 0 for "0" and 1 for "1", "2" or "3"; nothing else writes |
| AppSession.UpdatedCommand | app/app_state.py:16-28 | without a focus nothing changes; with one, only the focused index can change, to the written value; the length is kept, and a focus outside the list raises IndexError |
| AppSession.AppState.constructor | app/app_state.py:11-12 | the command vector starts as four zeros and the focus as None |
| AppSession.AppState.UpdateCommand | app/app_state.py:16-28 | the command vector becomes UpdatedCommand of the old one, and an IndexError leaves it untouched |
| AppSession.UpdateKeepsAgents | app/app_state.py:16-28 | an update keeps one command per agent, and a focus inside `0..3` never raises |
| AppSession.KeysKeepBinary | app/app_state.py:23-28 | any sequence of key presses keeps a 0/1 command vector 0/1 |
| MabmiSession.Written | mabmi/app/app_state.py:25-31 | `type` is read first; an `eeg` message writes its `command` and a keydown writes 0 or 1 for the keys "0".."3"; a missing entry raises KeyError or TypeError, and other types write nothing |
| MabmiSession.UpdatedCommand | mabmi/app/app_state.py:21-31 | without a focus nothing changes; a lookup error propagates; only the focused index can change, to the written value |
| MabmiSession.AppState.constructor | mabmi/app/app_state.py:13-14 | the command vector starts as four zeros and the focus as None |
| MabmiSession.AppState.UpdateCommand | mabmi/app/app_state.py:21-31 | the command vector becomes UpdatedCommand of the old one, and an exception leaves it untouched |
| MabmiSession.AgreesWithEventVariant | mabmi/app/app_state.py:21-31 | the dictionary-message variant and the `(event, data)` variant of the app agree on every eeg or keydown message |
| ActionBlocks.DimPerAgent | app/env.py:15 | `a_dim_per_agent` is `action_dim // num_agents`: the largest `a` with `a * num_agents <= action_dim` |
| ActionBlocks.Masked | app/env.py:57-63 | the masked action has the sampled action's length |
| ActionBlocks.BlockOfPosition | app/env.py:61 | position `j` lies in block `i` exactly when `j / a == i` |
| ActionBlocks.IdleBlocksZeroed | app/env.py:59-61 | every entry of the block of an agent whose command is 0 is zero |
| ActionBlocks.ActiveBlocksKept | app/env.py:57-63 | the block of an agent with a non-zero command keeps its sampled values |
| ActionBlocks.TrailingKept | app/env.py:57-63 | entries past `num_agents * a` keep their sampled values |
| ActionBlocks.MaskedIdempotent | app/env.py:59-61 | masking twice is the same as masking once |
| ActionBlocks.ZeroIdleBlocks | app/env.py:57-63 | the loop turns the sampled array into Masked of it; a command list shorter than `num_agents` raises IndexError after the blocks before it are zeroed |
| AppEnv.EnvRunner.constructor | app/env.py:11-15 | `a_dim_per_agent` is `action_dim // num_agents` |
| AppEnv.EnvRunner.GetAction | app/env.py:54-63 | `_get_action` zeroes exactly the blocks of idle agents and raises IndexError exactly when the command is shorter than `num_agents` |
| MabuiBrowser.EnvRunner.constructor | mabui/routes/browser.py:72-76 | `a_dim_per_agent` is `action_dim // num_agents` |
| MabuiBrowser.EnvRunner.GetAction | mabui/routes/browser.py:115-124 | the same block zeroing as the app's `_get_action` |
| MabmiBrowser.EnvProcess.constructor | mabmi/routes/browser.py:70-74 | `a_dim_per_agent` is `action_dim // num_agents` |
| MabmiBrowser.EnvProcess.GetAction | mabmi/routes/browser.py:109-118 | the same block zeroing as the app's `_get_action` |
| Gaze.MabmiFocusArea | mabmi/device_client/pupil.py:23-36 | every point of the closed unit square gets exactly one quadrant in `0..3` (right half odd, lower half 2 or 3), and every other point gets None |
| Gaze.ClientFocusArea | client/pupil_client.py:12-24 | every point of the half-open square `[0,1)²` gets one quadrant in `0..3` (right half odd, upper half 2 or 3), and every other point gets None |
| Gaze.RowsSwapped | client/pupil_client.py:12-24 | inside `[0,1)²` the two maps differ exactly by swapping the rows: mabmi's quadrant is the client's plus 2 modulo 4 |
| Gaze.EdgesDiffer | mabmi/device_client/pupil.py:26-31 | on the edges `x = 1` or `y = 1` the mabmi map answers and the client map gives None |
| Gaze.MabmiQuadrants | mabmi/device_client/pupil.py:25-34 | the mabmi map gives quadrant `q` exactly for the points of the square in that half by `x` and that half by `y` |
| ColorUtils.LeadingDigits | app/static/utils.js:13 | the leading digit run of a string ends at its first non-digit |
| ColorUtils.DigitRuns | app/static/utils.js:13 | every run `match(/\d+/g)` finds is a non-empty string of digits |
| ColorUtils.SkipNonDigits | app/static/utils.js:13 | text without digits contributes no runs |
| ColorUtils.TakeRun | app/static/utils.js:13 | a digit run followed by a non-digit is the next match |
| ColorUtils.RunsOfRgba | app/static/utils.js:9 | the runs of `rgba(r, g, b, a)` are `r`, `g`, `b` and then the runs of the alpha text |
| ColorUtils.BinStr2Rgba | app/static/utils.js:1-10 | it throws exactly unless the input is three characters, each 0 or 1; otherwise the output starts with `rgba(`, ends with the alpha and `)`, and its digit runs are the three channels, each 0 or 255 as its digit says, followed by the runs of the alpha |
| ColorUtils.BinRgbaReadsBack | app/static/utils.js:1-10 | reading the built text back finds the three channels `255 * digit`, then the runs of the alpha |
| ColorUtils.ScaleRgba | app/static/utils.js:12-16 | it throws TypeError exactly when the input holds no digits at all, because destructuring `null` throws |
| ColorUtils.ScaledChannelsReadBack | app/static/utils.js:13-15 | for a non-negative scale and an input with three numbers, the output's first three numbers are `floor(channel * scale)` |
| ColorUtils.ScaleRgbaAlpha | app/static/utils.js:13-15 | the output starts with `rgba(` and ends with the alpha and `)`, where the alpha is the given one, else the fourth number of the input, else `undefined` |
| ColorUtils.ScaleRgbaMissingChannels | app/static/utils.js:13-15 | with only one or two numbers in the input, each missing channel is written `NaN` |
| ColorUtils.ReadBack | app/static/utils.js:15 | the three scaled channels written into `rgba(...)` read back as their values |
| ColorUtils.ReadBackNat | app/static/utils.js:9 | numbers written into `rgba(...)` read back as themselves |
| ColorUtils.ScalingDims | app/static/utils.js:15 | with a scale in `[0, 1]` a channel never grows and never goes negative |
| ColorUtils.ScaleByOneRoundTrip | app/static/utils.js:9-15 | scaling `binStr2Rgba(s, alpha)` by 1 with the same alpha gives back the very same string |
| ColorUtils.ChannelsAtScaleOne | app/static/utils.js:15 | at scale 1 the three channels of an encoded colour are rewritten unchanged |
| ColorUtils.DefaultAlphaBecomesZero | app/static/utils.js:1-14 | with the default alpha `0.3` and no alpha given to the scaler, the fourth run is "0": the channels come back unchanged and the alpha becomes 0 |
| Keyboard.WithoutCancel | app/static/keyboard.js:6 | the filter keeps exactly the labels other than `cancel` |
| Keyboard.BuildKeyMap | app/static/keyboard.js:4-8 | "0" maps to `cancel` exactly when the labels contain it, the `i`-th other label maps to `i+1`, and there are no other keys |
| Keyboard.KeysDistinct | app/static/keyboard.js:7 | the numbered keys never clash with "0" or with each other |
| Keyboard.HandlerArgument | app/static/keyboard.js:10 | the handler receives the label of a mapped key, and `undefined` for any other key |
| Keyboard.OneKeyPerLabel | app/static/keyboard.js:4-8 | for distinct labels, every label sits under exactly one key |
| Keyboard.FilterDistinct | app/static/keyboard.js:6 | filtering out `cancel` keeps distinct labels distinct |
| MockEeg.TrimStart | client/mock_eeg.py:27 | the start of the negative slice `[-max_length + length:]`, clamped as Python clamps it |
| MockEeg.AppendChunk | client/mock_eeg.py:26-29 | an append keeps the whole chunk and at most all the old columns |
| MockEeg.AppendKeepsNewest | client/mock_eeg.py:26-29 | the chunk ends the buffer, preceded by the newest old columns; nothing is dropped when everything fits; a chunk narrower than `max_length` leaves at most `max_length` columns, exactly `max_length` when trimming happened |
| MockEeg.FullWidthChunkKeepsAll | client/mock_eeg.py:27 | a chunk exactly `max_length` wide makes the slice start at 0, so nothing is dropped and the buffer exceeds the bound |
| MockEeg.BoundedUnderAppends | client/mock_eeg.py:21-29 | with chunks narrower than `max_length`, the buffer never holds more than `max_length` columns |
| MockEeg.MockEEG.constructor | client/mock_eeg.py:8-13 | the buffer starts with no columns and the generator running |
| MockEeg.MockEEG.Append | client/mock_eeg.py:24-29 | one locked append is AppendChunk of the buffer |
| MockEeg.MockEEG.GenerateEeg | client/mock_eeg.py:19-31 | the generator appends the chunks in order while running; a stopped generator leaves the buffer alone |
| MockEeg.MockEEG.Pop | client/mock_eeg.py:33-40 | `pop` returns everything buffered, in order, or None when the buffer is empty, and leaves the buffer empty |
| MockEeg.MockEEG.Stop | client/mock_eeg.py:42-44 | `stop` clears the running flag |
| DataCollection.Repeated | app/static/dataCollection.js:86-91 | the unshuffled list has `n * k` entries, all colour indices below `n` |
| DataCollection.RepeatedAscending | app/static/dataCollection.js:86-91 | the unshuffled list is in ascending order |
| DataCollection.RepeatedCounts | app/static/dataCollection.js:86-91 | every colour below `n` occurs exactly `k` times, and no other value occurs |
| DataCollection.Swap | app/static/dataCollection.js:96 | a swap keeps the length and the multiset of the list |
| DataCollection.ShufflePermutes | app/static/dataCollection.js:94-97 | the Fisher–Yates passes only permute the list |
| DataCollection.ShuffleFixesAbove | app/static/dataCollection.js:94-97 | the positions above the current `i` are final: later passes do not touch them |
| DataCollection.GenerateColorIdxList | app/static/dataCollection.js:84-99 | the array the in-place loops build is the shuffled list, of length `n * numTrialForEachColor` |
| DataCollection.ShuffledCounts | app/static/dataCollection.js:84-99 | the shuffled list holds every colour exactly `numTrialForEachColor` times |
| DataCollection.CueOrder | app/static/dataCollection.js:53-54 | `pop()` takes the trials from the end: the cue order is the list reversed, with the same multiset |
| DataCollection.FullSessionCuesEveryColour | app/static/dataCollection.js:53-54 | a session that runs to the end cues every colour exactly `numTrialForEachColor` times |
| DataCollection.LabelOf | app/static/dataCollection.js:69 | the onset label is `commandLabels[colorIdx]`, and `undefined` past the end |
| DataCollection.CueLabels | app/static/dataCollection.js:53-69 | the first `count` onsets carry the labels of the last `count` list entries, last entry first |
| DataCollection.CueLabelsNext | app/static/dataCollection.js:53-69 | each further trial appends the label of the next entry from the end |
| DataCollection.Session.constructor | app/static/dataCollection.js:6-7 | data collection starts not running, with no onsets and not completed |
| DataCollection.Session.StartDataCollection | app/static/dataCollection.js:9-18 | `startDataCollection` only warns when already running; it sets running, and then either throws on a colour without digits or stores the scaled cues, the labels and the shuffled list |
| DataCollection.Session.LoopDataCollection | app/static/dataCollection.js:50-82 | trials are taken from the end until the list is empty or a stop is noticed; each onset carries its label; completion is signalled exactly when the list runs out uninterrupted, and the loop ends not running |
| DataCollection.Session.StopDataCollection | app/static/dataCollection.js:20-24 | `stopDataCollection` clears the running flag |
| DataCollection.ScaleCues | app/static/dataCollection.js:13 | every command colour is rescaled at scale 1 with alpha 0.5, and the map throws when some colour holds no digits |
| DataCollection.ScaledCue | app/static/dataCollection.js:13 | one colour rescales exactly when it holds digits |

## Left out

- Processes, pipes and shared memory are modelled as data. Process creation, `mp.Queue`,
  `clear_mpi_env_vars`, `CloudpickleWrapper`, shared-memory buffers, `deepcopy`,
  `concatenate`, `__del__` and process termination and joining are not modelled.
  - A pipe is a queue of sent messages plus a queue of replies.
  - The observation batch is a sequence of values. A shared-memory write is the worker
    trace's `slot` on the worker side and the input `WriteSlot` on the coordinator side.
- Wall-clock timing. `_poll` with a finite timeout is true exactly when every reply is
  already there. With no timeout, a missing reply gives the error `WouldBlock` and changes
  nothing; it stands for the coordinator blocking until the reply arrives.
- The blocking `recv` in `seed`, `close`, `_check_observation_spaces` and
  `get_single_visuals` is answered in the model by the reply that pipe holds: None for
  `seed` and `close`. `_check_observation_spaces` takes the workers' own observation
  spaces as an input.
- VectorEnv.AsyncVectorEnv.Seed: assumes every worker is still running its loop and
  answers. A worker that has left it after an error closes its end, so in Python the
  `send` raises BrokenPipeError or the `recv` raises EOFError; the model has no such path.
- VectorEnv.AsyncVectorEnv.GetSingleVisuals: the same gap as `Seed`. A reply from a
  worker that has stopped is assumed instead of BrokenPipeError or EOFError.
- VectorEnv.AsyncVectorEnv.Close: the same gap as `Seed` for the `close` messages and
  their replies. The model does not raise BrokenPipeError or EOFError for a worker that
  has stopped.
- A step reply that is a string or a dictionary is treated as not unpackable
  (TypeError). Python would iterate over its characters or keys. The same holds for the
  `*data` of a `get_policy_action` command, which the coordinator always sends as a tuple.
- VectorEnv.PairError: a dictionary as the subtask-done flags of a reply is rejected with
  TypeError. Python would extend the list with its keys in insertion order, which `Dict`,
  a map, does not keep.
- VectorEnv.FirstPairError: inherits the dictionary-flags gap of `PairError`.
- VectorEnv.UnpackPolicy: inherits the dictionary-flags gap of `PairError`. The shapes
  `np.concatenate` checks beyond "not zero-dimensional" are not modelled.
- VectorEnv.AsyncVectorEnv.GetPolicyActionWait: inherits the gaps of `UnpackPolicy`.
- VectorEnv.Open: the observation space is a parameter. Taking it from a dummy
  environment built from `env_fns[0]` when none is given is not modelled.
- Sub-environments (`reset`, `step`, `get_visuals`, LEDs, motion-planner policies) are a
  function supplied as a parameter. The multi-robot wrapper that sets
  `max_agents_per_env` is not part of this model; that value is a constructor
  parameter.
- The worker's `finally: env.close()` and `parent_pipe.close()` are not modelled. They
  only release resources.
- VectorEnv.AsyncVectorEnv.GetVisuals: states only the refusals and the final tag. The
  `GetVisualsAsync` and `GetVisualsWait` members it calls state the rest in full.
- VectorEnv.AsyncVectorEnv.SetupMotionPlannerPolicies: states only the refusals, the
  final tag and the number of results. The matching `Async` and `Wait` members state the
  rest.
- VectorEnv.AsyncVectorEnv.PolicyResetEnv: states only the refusals, the final tag and the
  number of results. The matching `Async` and `Wait` members state the rest.
- VectorEnv.AsyncVectorEnv.GetPolicyAction: states only the refusals and the final tag.
  The matching `Async` and `Wait` members state the rest.
- VectorEnv.AsyncVectorEnv.GetPolicyDoneSubtasks: states only the refusals, the final tag
  and the number of results. The matching `Async` and `Wait` members state the rest.
- VectorEnv.AsyncVectorEnv.FinishPending: states the AttributeError case, which prelude
  errors escape (all but TimeoutError), and how `terminate` is decided. What the `_wait`
  it calls does after its prelude is stated by that `_wait`.
- VectorEnv.AsyncVectorEnv.Close: after a pending call was finished, states only that
  every pipe ends closed, not the tag or the pipes' queues.
- RMS, `sqrt`, the baseline normalisation of `get_model`, and `fit`, `save` and `load`
  of the threshold models are not modelled. The models start from the RMS vector, as reals.
- ThresholdModels.ThresholdModel.constructor: requires a positive threshold and a positive
  baseline. Python would divide by zero without them, which is floating-point behaviour
  outside this model.
- ThresholdModels.ThresholdDiffModel.constructor: the same two requirements, for the same
  reason.
- The `Decoder`'s ReactiveX pipeline, its window buffering and the `_publish` byte packing
  are not modelled. The decoder keeps only its running flag and its subscription count.
- `save_session` file I/O, `save_userinfo`, `compute_usermetrics`,
  `compute_sessionmetrics` and the interaction-time statistics (pandas, numpy, files) are
  not modelled. Records are assumed hashable by `set`.
- The timer reads the clock. The current time is a parameter.
- The `focus` field of both `AppState`s is set by the browser endpoint, which is not
  part of this model.
- `ActionBlocks` needs `num_agents > 0`, as `//` by zero would raise. That is the one
  requirement on the three constructors.
- The action space's random sample is the array passed in.
- JavaScript number formatting of the alpha is not modelled. The alpha is a string that
  is already formatted, so `0.3` stands for JavaScript's `String(0.3)`.
- ColorUtils.ScaleRgba: each channel times the scale is an exact real product before
  `Math.floor`. JavaScript multiplies in double precision, so a product such as
  `100 * 0.57` (56.99999999999999) floors one lower in the browser than in the model.
- ColorUtils.ScaledChannelsReadBack: states `floor(channel * scale)` over exact reals,
  with the same double-precision gap as `ScaleRgba`.
- `scaleRgba` with a negative scale is not modelled. `Math.floor` of a negative product
  would be written with a minus sign, and the read-back lemmas require `scale >= 0`.
- DOM work (the cue element, styles, event dispatch timestamps) and `addEventListener` /
  `removeEventListener` in `onToggleKeyboard` are not modelled. The onset events are the
  `onsets` sequence.
- `Math.random` in the shuffle is a list of picks, with `0 <= j <= i`.
- The asynchronous sleeps of `loopDataCollection` are not modelled. A concurrent
  `stopDataCollection` is an input `StopPoint`: no stop, a stop noticed before trial `k`'s
  onset, or one noticed after it. The loop works on local copies and writes the list and
  the onsets back when it ends.
- DataCollection.Session.LoopDataCollection: when it is stopped early it does not
  remove the cue element. When the list runs out it calls `stopDataCollection`, which the
  model reflects only as the running flag ending false.
- MockEeg.MockEEG.GenerateEeg: the infinite `while self.is_running` loop, the random
  chunk widths and values, `sleep` and the lock are modelled by a finite list of
  well-formed chunks of width 1 to 10, supplied as a parameter.
- `mabmi/device_client/mock_eeg.py` is not part of this model.
