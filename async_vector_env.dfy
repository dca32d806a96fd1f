/** The coordinator `AsyncVectorEnv`: a fixed row of worker pipes, one pending-call
    tag and a shared error queue. Every fan-out operation is a pair `X_async`
    (send one message per worker, remember which call is pending) and `X_wait`
    (check the tag, poll, drain the error queue, take one reply per pipe in
    index order, clear the tag, aggregate).

    The worker processes are not part of this class. Their side of the pipes is
    represented by two inputs: `Deliver` (a reply arrives on a pipe) and
    `ReportError` (a worker puts an error on the queue). A pipe is "ready" for
    `_poll` when a reply is waiting on it. */
module VectorEnv {
  import opened Values
  import opened Protocol
  import Decimal

  /** The pending-call tag `AsyncState`. */
  datatype AsyncState =
    | Default
    | WaitingReset
    | WaitingStep
    | WaitingVisuals
    | WaitingSingleVisual
    | WaitingLedOff
    | WaitingLedOn
    | WaitingMppSetup
    | WaitingPolicyReset
    | WaitingPolicyAction
    | WaitingPolicyDoneSubtasks
  {
    /** The enum member's string value. */
    function Tag(): string
    {
      match this
      case Default => "default"
      case WaitingReset => "reset"
      case WaitingStep => "step"
      case WaitingVisuals => "visuals"
      case WaitingSingleVisual => "visual"
      case WaitingLedOff => "led_off"
      case WaitingLedOn => "led_on"
      case WaitingMppSetup => "motion_planner_policies_setup"
      case WaitingPolicyReset => "policy_reset_env"
      case WaitingPolicyAction => "policy_action"
      case WaitingPolicyDoneSubtasks => "policy_done_subtasks"
    }
  }

  /** What the coordinator's operations raise. */
  datatype Error =
    | AlreadyPendingCall(pending: AsyncState)
    | NoAsyncCall(expected: AsyncState)
    | ClosedEnvironment
    | Timeout
    | WorkerFault(exc: Exc)    // a worker's exception, raised again in the caller
    | AssertionFailed
    | AttributeErr             // an attribute of a pipe that was replaced by None, or a missing `_wait` method
    | OSErr                    // sending on a closed pipe
    | IndexErr
    | KeyErr
    | TypeErr
    | ValueErr
    | RuntimeErr
    | WouldBlock               // the call blocks until a reply arrives (see `Poll`)

  datatype Result<+T> = Ok(value: T) | Err(error: Error)

  /** One entry of `parent_pipes`: replaced by None (`Gone`) after its worker failed,
      otherwise a pipe end with its open flag, what was sent on it and the replies
      that arrived and have not been received. */
  datatype Slot = Gone | Pipe(isOpen: bool, sent: seq<Msg>, replies: seq<Value>)

  predicate Sendable(p: Slot)
  {
    p.Pipe? && p.isOpen
  }

  function Send(p: Slot, m: Msg): (q: Slot)
    requires p.Pipe?
    ensures q.Pipe? && q.isOpen == p.isOpen && q.sent == p.sent + [m] && q.replies == p.replies
  {
    p.(sent := p.sent + [m])
  }

  /** What `pipe.send` raises on a pipe it cannot use. */
  function SendError(p: Slot): Error
  {
    if p.Gone? then AttributeErr else OSErr
  }

  /** The first of the first `k` pipes that cannot take a message, or `k`. */
  function FirstUnsendable(pipes: seq<Slot>, k: nat): (b: nat)
    requires k <= |pipes|
    ensures b <= k
    ensures forall i :: 0 <= i < b ==> Sendable(pipes[i])
    ensures b < k ==> !Sendable(pipes[b])
    decreases k
  {
    if k == 0 then 0
    else
      var b := FirstUnsendable(pipes, k - 1);
      if b < k - 1 then b
      else if Sendable(pipes[k - 1]) then k
      else k - 1
  }

  /** The pipes after `for pipe, m in zip(pipes, msgs): pipe.send(m)`, which stops at the first pipe it cannot use. */
  function AfterSends(pipes: seq<Slot>, msgs: seq<Msg>): (r: seq<Slot>)
    requires |msgs| <= |pipes|
    ensures |r| == |pipes|
  {
    var b := FirstUnsendable(pipes, |msgs|);
    seq(|pipes|, i requires 0 <= i < |pipes| => if i < b then Send(pipes[i], msgs[i]) else pipes[i])
  }

  /** The same message for each of `n` workers. */
  function Broadcast(command: string, data: Value, n: nat): (msgs: seq<Msg>)
    ensures |msgs| == n && forall i :: 0 <= i < n ==> msgs[i] == Msg(command, data)
  {
    seq(n, _ => Msg(command, data))
  }

  /** `command[idx * k : idx * k + k]`: the robots of sub-environment `idx`. */
  function CommandBlock(command: seq<Value>, idx: nat, k: nat): seq<Value>
  {
    PySlice(command, idx * k, idx * k + k)
  }

  /** The messages of `get_policy_action_async`: worker `idx` gets its own block of the command vector. */
  function PolicyActionMsgs(obs: Value, command: seq<Value>, norm: bool, n: nat, k: nat): (msgs: seq<Msg>)
    ensures |msgs| == n
    ensures forall idx :: 0 <= idx < n ==>
      msgs[idx] == Msg("get_policy_action", Tuple([obs, List(CommandBlock(command, idx, k)), Bool(norm)]))
  {
    seq(n, idx requires 0 <= idx < n => Msg("get_policy_action", Tuple([obs, List(CommandBlock(command, idx, k)), Bool(norm)])))
  }

  function Concat(blocks: seq<seq<Value>>): (r: seq<Value>)
    decreases |blocks|
  {
    if blocks == [] then [] else Concat(blocks[..|blocks| - 1]) + blocks[|blocks| - 1]
  }

  function SumLengths(blocks: seq<seq<Value>>): nat
    decreases |blocks|
  {
    if blocks == [] then 0 else SumLengths(blocks[..|blocks| - 1]) + |blocks[|blocks| - 1]|
  }

  /** The first `n` blocks of `k` robots. */
  function Blocks(command: seq<Value>, n: nat, k: nat): (bs: seq<seq<Value>>)
    ensures |bs| == n && forall idx :: 0 <= idx < n ==> bs[idx] == CommandBlock(command, idx, k)
  {
    seq(n, idx requires 0 <= idx < n => CommandBlock(command, idx, k))
  }

  lemma BlockEnd(idx: nat, n: nat, k: nat)
    requires idx < n
    ensures idx * k + k == (idx + 1) * k <= n * k
  {
    MulMono(idx + 1, n, k);
  }

  lemma MulMono(a: nat, b: nat, k: nat)
    requires a <= b
    ensures a * k <= b * k
  {
  }

  /** When the command vector holds at least `n` blocks of `k`, block `idx` is entries
      `idx*k .. idx*k+k`. */
  lemma BlockIsSlice(command: seq<Value>, n: nat, k: nat, idx: nat)
    requires n * k <= |command| && idx < n
    ensures idx * k + k <= |command|
    ensures CommandBlock(command, idx, k) == command[idx * k .. idx * k + k]
  {
    BlockEnd(idx, n, k);
  }

  /** The first `n` blocks, joined in worker order, are the first `n * k` entries. */
  lemma {:induction false} BlocksCover(command: seq<Value>, n: nat, k: nat)
    requires n * k <= |command|
    ensures Concat(Blocks(command, n, k)) == command[..n * k]
    decreases n
  {
    if n > 0 {
      var bs := Blocks(command, n, k);
      BlockEnd(n - 1, n, k);
      BlocksCover(command, n - 1, k);
      BlockIsSlice(command, n, k, n - 1);
      assert bs[..n - 1] == Blocks(command, n - 1, k);
      CoverStep(command, bs, (n - 1) * k, n * k);
    }
  }

  /** One more block: when the blocks but the last cover the first `m` entries and the
      last is entries `m .. e`, all of them cover the first `e`. */
  lemma CoverStep(command: seq<Value>, bs: seq<seq<Value>>, m: nat, e: nat)
    requires bs != [] && m <= e <= |command|
    requires Concat(bs[..|bs| - 1]) == command[..m] && bs[|bs| - 1] == command[m..e]
    ensures Concat(bs) == command[..e]
  {
    SliceJoin(command, m, e);
  }

  lemma SliceJoin(s: seq<Value>, a: nat, b: nat)
    requires a <= b <= |s|
    ensures s[..a] + s[a..b] == s[..b]
  {
  }

  /** When the command vector holds exactly `n` blocks of `k`, the blocks sent (each a
      contiguous slice, by `BlockIsSlice`) together are the whole vector, in worker order. */
  lemma CommandBlocksPartition(command: seq<Value>, n: nat, k: nat)
    requires |command| == n * k
    ensures Concat(Blocks(command, n, k)) == command
  {
    BlocksCover(command, n, k);
    assert command[..n * k] == command;
  }

  /** Length of a concatenation. */
  lemma {:induction false} ConcatLength(blocks: seq<seq<Value>>)
    ensures |Concat(blocks)| == SumLengths(blocks)
    decreases |blocks|
  {
    if blocks != [] {
      ConcatLength(blocks[..|blocks| - 1]);
    }
  }

  /** Entry `j` of block `i` sits right after the blocks before it. */
  lemma {:induction false} ConcatAt(blocks: seq<seq<Value>>, i: nat, j: nat)
    requires i < |blocks| && j < |blocks[i]|
    ensures SumLengths(blocks[..i]) + j < |Concat(blocks)|
    ensures Concat(blocks)[SumLengths(blocks[..i]) + j] == blocks[i][j]
    decreases |blocks|
  {
    var last := |blocks| - 1;
    var front := blocks[..last];
    ConcatLength(front);
    ConcatLength(blocks);
    if i < last {
      assert front[..i] == blocks[..i];
      ConcatAt(front, i, j);
    } else {
      assert blocks[..i] == front;
    }
  }

  /** `_poll` from pipe `i` on: a pipe replaced by None raises AttributeError; a closed
      pipe or one with no reply ends the loop with False; with no timeout, `pipe.poll(None)`
      waits for the reply instead. */
  function PollFrom(pipes: seq<Slot>, i: nat, timeout: Option<real>): (r: Result<bool>)
    requires i <= |pipes|
    ensures r.Err? ==> r.error == AttributeErr || (r.error == WouldBlock && timeout.None?)
    ensures r == Err(AttributeErr) ==> exists j :: i <= j < |pipes| && pipes[j].Gone?
    decreases |pipes| - i
  {
    if i == |pipes| then Ok(true)
    else match pipes[i]
      case Gone => Err(AttributeErr)
      case Pipe(isOpen, _, replies) =>
        if !isOpen then Ok(false)
        else if replies != [] then PollFrom(pipes, i + 1, timeout)
        else if timeout.None? then Err(WouldBlock)
        else Ok(false)
  }

  /** Every pipe is there, open, and has a reply waiting. */
  predicate AllReady(pipes: seq<Slot>)
  {
    forall i :: 0 <= i < |pipes| ==> pipes[i].Pipe? && pipes[i].isOpen && pipes[i].replies != []
  }

  /** `_poll` succeeds exactly when every pipe is open and ready. */
  lemma {:induction false} PollTrueIffAllReady(pipes: seq<Slot>, i: nat, timeout: Option<real>)
    requires i <= |pipes|
    ensures PollFrom(pipes, i, timeout) == Ok(true) <==>
      forall j :: i <= j < |pipes| ==> pipes[j].Pipe? && pipes[j].isOpen && pipes[j].replies != []
    decreases |pipes| - i
  {
    if i < |pipes| {
      PollTrueIffAllReady(pipes, i + 1, timeout);
    }
  }

  /** Without a timeout `_poll` only fails at a pipe that is closed (but still there):
      every open pipe before it had a reply. */
  lemma {:induction false} PollWithoutTimeout(pipes: seq<Slot>, i: nat)
    requires i <= |pipes|
    ensures PollFrom(pipes, i, None) == Ok(false) <==>
      exists j :: i <= j < |pipes| && pipes[j].Pipe? && !pipes[j].isOpen
        && forall k :: i <= k < j ==> pipes[k].Pipe? && pipes[k].isOpen && pipes[k].replies != []
    decreases |pipes| - i
  {
    if i < |pipes| {
      PollWithoutTimeout(pipes, i + 1);
      if pipes[i].Pipe? && pipes[i].isOpen && pipes[i].replies != [] && PollFrom(pipes, i, None) != Ok(false) {
        if exists j :: i <= j < |pipes| && pipes[j].Pipe? && !pipes[j].isOpen
            && forall k :: i <= k < j ==> pipes[k].Pipe? && pipes[k].isOpen && pipes[k].replies != [] {
          var j :| i <= j < |pipes| && pipes[j].Pipe? && !pipes[j].isOpen
            && forall k :: i <= k < j ==> pipes[k].Pipe? && pipes[k].isOpen && pipes[k].replies != [];
          assert j != i;
        }
      }
    }
  }

  /** The state `_raise_if_errors` leaves behind. */
  datatype Drained = Drained(pipes: seq<Slot>, queue: seq<ErrorRecord>, raised: Option<Error>)

  predicate IndicesBelow(queue: seq<ErrorRecord>, n: nat)
  {
    forall e :: e in queue ==> e.index < n
  }

  /** `_raise_if_errors`, with `last` the most recently dequeued error: take every
      queued error, close its worker's pipe and replace it with None, then raise the
      last one. A second error for a pipe already replaced fails with AttributeError
      when `.close()` is called on None. */
  function Drain(pipes: seq<Slot>, queue: seq<ErrorRecord>, last: Option<Exc>): (d: Drained)
    requires IndicesBelow(queue, |pipes|)
    ensures |d.pipes| == |pipes|
    ensures d.raised.None? <==> queue == [] && last.None?
    ensures d.queue != [] ==> d.raised == Some(AttributeErr)
    decreases |queue|
  {
    if queue == [] then Drained(pipes, [], if last.Some? then Some(WorkerFault(last.value)) else None)
    else
      var e := queue[0];
      if pipes[e.index].Gone? then Drained(pipes, queue[1..], Some(AttributeErr))
      else Drain(pipes[e.index := Gone], queue[1..], Some(e.exc))
  }

  predicate DistinctIndices(queue: seq<ErrorRecord>)
  {
    forall i, j :: 0 <= i < j < |queue| ==> queue[i].index != queue[j].index
  }

  /** With no error queued nothing changes; otherwise, when each failed worker reported
      once and still has its pipe, the queue is emptied, exactly the reported pipes are
      replaced by None, and the last reported exception is raised. */
  lemma {:induction false} DrainSpec(pipes: seq<Slot>, queue: seq<ErrorRecord>, last: Option<Exc>)
    requires IndicesBelow(queue, |pipes|)
    requires DistinctIndices(queue)
    requires forall e :: e in queue ==> pipes[e.index].Pipe?
    ensures var d := Drain(pipes, queue, last);
      && d.queue == []
      && |d.pipes| == |pipes|
      && (queue == [] ==> d.pipes == pipes && d.raised == (if last.Some? then Some(WorkerFault(last.value)) else None))
      && (queue != [] ==> d.raised == Some(WorkerFault(queue[|queue| - 1].exc)))
      && (forall k :: 0 <= k < |pipes| ==>
            d.pipes[k] == (if exists e :: e in queue && e.index == k then Gone else pipes[k]))
    decreases |queue|
  {
    if queue != [] {
      var e := queue[0];
      var rest := queue[1..];
      var pipes1 := pipes[e.index := Gone];
      forall e' | e' in rest
        ensures pipes1[e'.index].Pipe?
      {
        var j :| 0 <= j < |rest| && rest[j] == e';
        assert queue[j + 1] == e';
      }
      DrainSpec(pipes1, rest, Some(e.exc));
      var d := Drain(pipes1, rest, Some(e.exc));
      if rest != [] {
        assert queue[|queue| - 1] == rest[|rest| - 1];
      }
      forall k | 0 <= k < |pipes|
        ensures d.pipes[k] == (if exists e' :: e' in queue && e'.index == k then Gone else pipes[k])
      {
        if k == e.index {
          assert queue[0] in queue;
        } else if exists e' :: e' in queue && e'.index == k {
          var e' :| e' in queue && e'.index == k;
          assert e' in rest;
        }
      }
    }
  }

  /** `_raise_if_errors` changes nothing when the queue is empty. */
  lemma DrainEmptyQueue(pipes: seq<Slot>)
    ensures Drain(pipes, [], None) == Drained(pipes, [], None)
  {
  }

  function Recv(p: Slot): (q: Slot)
    requires p.Pipe? && p.replies != []
    ensures q.Pipe? && q.isOpen == p.isOpen && q.sent == p.sent && q.replies == p.replies[1..]
  {
    p.(replies := p.replies[1..])
  }

  /** What the part of every `_wait` before receiving does: `_assert_is_running`, the tag
      check, `_poll` (when it fails the tag goes back to DEFAULT and a TimeoutError is raised,
      except that with no timeout the message's `timeout > 1` compares None with an int and
      raises TypeError instead) and `_raise_if_errors`. */
  datatype Prelude = Prelude(err: Option<Error>, state: AsyncState, pipes: seq<Slot>, queue: seq<ErrorRecord>)

  function WaitPrelude(closed: bool, state: AsyncState, pipes: seq<Slot>, queue: seq<ErrorRecord>,
                       tag: AsyncState, timeout: Option<real>): (p: Prelude)
    requires IndicesBelow(queue, |pipes|)
    ensures |p.pipes| == |pipes| && IndicesBelow(p.queue, |pipes|)
    ensures forall e :: e in p.queue ==> e in queue
  {
    if closed then Prelude(Some(ClosedEnvironment), state, pipes, queue)
    else if state != tag then Prelude(Some(NoAsyncCall(tag)), state, pipes, queue)
    else
      var polled := PollFrom(pipes, 0, timeout);
      if polled.Err? then Prelude(Some(polled.error), state, pipes, queue)
      else if !polled.value then Prelude(Some(if timeout.None? then TypeErr else Timeout), Default, pipes, queue)
      else
        var d := Drain(pipes, queue, None);
        DrainSuffix(pipes, queue, None);
        Prelude(d.raised, state, d.pipes, d.queue)
  }

  lemma {:induction false} DrainSuffix(pipes: seq<Slot>, queue: seq<ErrorRecord>, last: Option<Exc>)
    requires IndicesBelow(queue, |pipes|)
    ensures var d := Drain(pipes, queue, last);
      |d.pipes| == |pipes| && (forall e :: e in d.queue ==> e in queue)
      && (d.raised.Some? ==> d.raised.value.WorkerFault? || d.raised.value == AttributeErr)
    decreases |queue|
  {
    if queue != [] {
      var e := queue[0];
      if !pipes[e.index].Gone? {
        DrainSuffix(pipes[e.index := Gone], queue[1..], Some(e.exc));
      }
    }
  }

  /** The tag protocol of every `_wait`: a closed environment refuses, a call other than the
      pending one is refused without any change, a failed poll clears the tag (and raises
      TimeoutError only when a timeout was given),
      and the prelude only lets the receive phase run when no error was queued and every pipe
      has a reply waiting. */
  lemma WaitPreludeProtocol(closed: bool, state: AsyncState, pipes: seq<Slot>, queue: seq<ErrorRecord>,
                            tag: AsyncState, timeout: Option<real>)
    requires IndicesBelow(queue, |pipes|)
    ensures var p := WaitPrelude(closed, state, pipes, queue, tag, timeout);
      && (closed ==> p == Prelude(Some(ClosedEnvironment), state, pipes, queue))
      && (!closed && state != tag ==> p == Prelude(Some(NoAsyncCall(tag)), state, pipes, queue))
      && (!closed && state == tag && PollFrom(pipes, 0, timeout) == Ok(false) ==>
            p == Prelude(Some(if timeout.None? then TypeErr else Timeout), Default, pipes, queue))
      && (p.err == Some(Timeout) ==> timeout.Some?)
      && (p.err.None? <==> !closed && state == tag && AllReady(pipes) && queue == [])
      && (p.err.None? ==> p == Prelude(None, tag, pipes, []))
  {
    PollTrueIffAllReady(pipes, 0, timeout);
    DrainSuffix(pipes, queue, None);
  }

  /** `seed(seeds)`'s list: None for every worker, `s + i` for worker `i`, or the given
      list, which must have one entry per worker. */
  datatype SeedArg = NoSeeds | SeedInt(s: int) | SeedValues(list: seq<Value>)

  function SeedsFor(arg: SeedArg, n: nat): (r: Result<seq<Value>>)
    ensures r.Ok? ==> |r.value| == n
    ensures arg.NoSeeds? ==> r.Ok? && forall i :: 0 <= i < n ==> r.value[i] == Nil
    ensures arg.SeedInt? ==> r.Ok? && forall i :: 0 <= i < n ==> r.value[i] == Int(arg.s + i)
    ensures arg.SeedValues? ==> (r.Ok? <==> |arg.list| == n) && (r.Ok? ==> r.value == arg.list)
    ensures r.Err? ==> r.error == AssertionFailed
  {
    match arg
    case NoSeeds => Ok(seq(n, _ => Nil))
    case SeedInt(s) => Ok(seq(n, i => Int(s + i)))
    case SeedValues(list) => if |list| == n then Ok(list) else Err(AssertionFailed)
  }

  /** What `step_wait` hands back. */
  datatype StepBatch = StepBatch(observations: seq<Value>, rewards: seq<Value>, dones: seq<bool>, infos: seq<Value>)

  /** What `get_policy_action_wait` hands back. */
  datatype PolicyActions = PolicyActions(action: seq<Value>, subtaskDones: seq<Value>)

  /** `v[k]` in the unpacking loop: lists and tuples give their entry, a string its
      one-character string; a dictionary has no int key; anything else is not subscriptable. */
  function Subscript(v: Value, k: nat): (r: Result<Value>)
    ensures r.Ok? <==> (IsSequence(v) && k < |v.items|) || (v.Str? && k < |v.s|)
    ensures r.Ok? && IsSequence(v) ==> r.value == v.items[k]
    ensures r.Ok? && v.Str? ==> r.value == Str([v.s[k]])
    ensures r.Err? ==> r.error == (if IsSequence(v) || v.Str? then IndexErr else if v.Dict? then KeyErr else TypeErr)
  {
    match v
    case List(items) => if k < |items| then Ok(items[k]) else Err(IndexErr)
    case Tuple(items) => if k < |items| then Ok(items[k]) else Err(IndexErr)
    case Str(s) => if k < |s| then Ok(Str([s[k]])) else Err(IndexErr)
    case Dict(_) => Err(KeyErr)
    case _ => Err(TypeErr)
  }

  /** What `list.extend(v)` appends: the entries of a list or tuple, the characters of a
      string; None when `v` is not iterable (a dictionary is left out, see the README). */
  function Elements(v: Value): (r: Option<seq<Value>>)
    ensures r.Some? <==> IsSequence(v) || v.Str?
    ensures r.Some? && IsSequence(v) ==> r.value == v.items
    ensures r.Some? && v.Str? ==> |r.value| == |v.s| && forall i :: 0 <= i < |v.s| ==> r.value[i] == Str([v.s[i]])
  {
    match v
    case List(items) => Some(items)
    case Tuple(items) => Some(items)
    case Str(s) => Some(seq(|s|, i requires 0 <= i < |s| => Str([s[i]])))
    case _ => None
  }

  /** Why one pass of the unpacking loop fails, if it does: `a_done_pair[0]`, then
      `a_done_pair[1]`, then `extend` with it. */
  function PairError(v: Value): (r: Option<Error>)
    ensures r.None? <==> Subscript(v, 0).Ok? && Subscript(v, 1).Ok? && Elements(Subscript(v, 1).value).Some?
    ensures r.None? ==> (IsSequence(v) && 2 <= |v.items|) || (v.Str? && 2 <= |v.s|)
    ensures r.Some? && (IsSequence(v) || v.Str?) ==> r == Some(if Subscript(v, 1).Err? then IndexErr else TypeErr)
    ensures r.Some? && v.Dict? ==> r == Some(KeyErr)
  {
    var first := Subscript(v, 0);
    if first.Err? then Some(first.error)
    else
      var second := Subscript(v, 1);
      if second.Err? then Some(second.error)
      else if Elements(second.value).None? then Some(TypeErr)
      else None
  }

  /** The action a well-formed pair contributes. */
  function PairAction(v: Value): Value
    requires PairError(v).None?
  {
    Subscript(v, 0).value
  }

  /** The subtask-done flags a well-formed pair contributes. */
  function PairFlags(v: Value): seq<Value>
    requires PairError(v).None?
  {
    Elements(Subscript(v, 1).value).value
  }

  /** The camera key worker `idx`'s image is filed under. */
  function CamKey(idx: nat): string
  {
    "rgb:franka" + Decimal.NatToString(idx) + "_front_cam:256x256:2d"
  }

  const FrontCam: string := "rgb:franka0_front_cam:256x256:2d"

  /** Different workers' images are filed under different keys. */
  lemma CamKeyInjective(a: nat, b: nat)
    ensures CamKey(a) == CamKey(b) ==> a == b
  {
    if CamKey(a) == CamKey(b) {
      var sa, sb := Decimal.NatToString(a), Decimal.NatToString(b);
      var pre, post := "rgb:franka", "_front_cam:256x256:2d";
      assert |sa| == |sb|;
      assert sa == CamKey(a)[|pre|..|pre| + |sa|];
      assert sb == CamKey(b)[|pre|..|pre| + |sb|];
      Decimal.NatToStringInjective(a, b);
    }
  }

  /** The `_wait` methods `close` can find with `getattr(self, state.value + '_wait')`. */
  const WaitMethods: set<string> := {"reset_wait", "step_wait", "get_visuals_wait",
    "setup_motion_planner_policies_wait", "policy_reset_env_wait",
    "get_policy_action_wait", "get_policy_done_subtasks_wait"}

  predicate HasWaitMethod(s: AsyncState)
  {
    s.Tag() + "_wait" in WaitMethods
  }

  /** Only three pending calls can be finished by `close`; the others' tags name no method. */
  lemma HasWaitMethodExactly(s: AsyncState)
    ensures HasWaitMethod(s) <==> s in {WaitingReset, WaitingStep, WaitingPolicyReset}
  {
    var w := s.Tag() + "_wait";
    match s
    case WaitingVisuals => assert w == "visuals_wait" && w !in WaitMethods;
    case WaitingSingleVisual => assert w == "visual_wait" && w !in WaitMethods;
    case WaitingLedOff => assert w == "led_off_wait" && w !in WaitMethods;
    case WaitingLedOn => assert w == "led_on_wait" && w !in WaitMethods;
    case WaitingMppSetup => assert w == "motion_planner_policies_setup_wait" && w !in WaitMethods;
    case WaitingPolicyAction => assert w == "policy_action_wait" && w !in WaitMethods;
    case WaitingPolicyDoneSubtasks => assert w == "policy_done_subtasks_wait" && w !in WaitMethods;
    case Default => assert w == "default_wait" && w !in WaitMethods;
    case WaitingReset => assert w == "reset_wait" && w in WaitMethods;
    case WaitingStep => assert w == "step_wait" && w in WaitMethods;
    case WaitingPolicyReset => assert w == "policy_reset_env_wait" && w in WaitMethods;
  }

  /** The messages of `step_async`: `zip(parent_pipes, actions)` stops at the shorter of the two. */
  function StepMsgs(actions: seq<Value>, n: nat): (msgs: seq<Msg>)
    ensures |msgs| <= n && |msgs| <= |actions|
    ensures |msgs| == n || |msgs| == |actions|
    ensures forall i :: 0 <= i < |msgs| ==> msgs[i] == Msg("step", actions[i])
  {
    var m := if |actions| < n then |actions| else n;
    seq(m, i requires 0 <= i < m => Msg("step", actions[i]))
  }

  /** The reply at the head of each pipe. */
  function Heads(pipes: seq<Slot>): (r: seq<Value>)
    requires AllReady(pipes)
    ensures |r| == |pipes| && forall i :: 0 <= i < |pipes| ==> r[i] == pipes[i].replies[0]
  {
    seq(|pipes|, i requires 0 <= i < |pipes| => pipes[i].replies[0])
  }

  /** The pipes after `recv()` was called on the first `m` of them. */
  function ReceivedUpTo(pipes: seq<Slot>, m: nat): (r: seq<Slot>)
    requires AllReady(pipes)
    ensures |r| == |pipes|
    ensures forall i :: 0 <= i < |pipes| ==> r[i] == if i < m then Recv(pipes[i]) else pipes[i]
  {
    seq(|pipes|, i requires 0 <= i < |pipes| => if i < m then Recv(pipes[i]) else pipes[i])
  }

  /** Receiving from pipe `m` next extends the received prefix by one; pipe `m` itself is
      still untouched before that. */
  lemma ReceiveNext(pipes: seq<Slot>, m: nat)
    requires AllReady(pipes) && m < |pipes|
    ensures ReceivedUpTo(pipes, m)[m] == pipes[m]
    ensures ReceivedUpTo(pipes, m)[m := Recv(pipes[m])] == ReceivedUpTo(pipes, m + 1)
  {
  }

  /** A blocking `recv()` on a pipe whose worker answers `answer`: the answer joins the
      queue and its head is taken. */
  function Exchange(p: Slot, answer: Value): (q: Slot)
    requires p.Pipe?
    ensures q.Pipe? && q.isOpen == p.isOpen && q.sent == p.sent
    ensures q.replies == (p.replies + [answer])[1..]
  {
    p.(replies := (p.replies + [answer])[1..])
  }

  /** What that `recv()` returns. */
  function ExchangeReply(p: Slot, answer: Value): Value
    requires p.Pipe?
  {
    (p.replies + [answer])[0]
  }

  /** The shortest reply of `step_wait`. */
  function MinLength(results: seq<Value>): (m: nat)
    requires forall i :: 0 <= i < |results| ==> results[i].List? || results[i].Tuple?
    requires results != []
    ensures forall i :: 0 <= i < |results| ==> m <= |results[i].items|
    ensures exists i :: 0 <= i < |results| && m == |results[i].items|
    decreases |results|
  {
    var here := |results[0].items|;
    if |results| == 1 then here
    else
      var rest := MinLength(results[1..]);
      assert forall i :: 1 <= i < |results| ==> results[i] == results[1..][i - 1];
      if here < rest then here else rest
  }

  predicate IsSequence(v: Value)
  {
    v.List? || v.Tuple?
  }

  /** `observations_list, rewards, dones, infos = zip(*results)` followed by
      `np.array(rewards)` and `np.array(dones, dtype=np.bool_)`. */
  function UnpackStep(results: seq<Value>): (r: Result<StepBatch>)
    ensures r.Ok? <==> results != [] && (forall i :: 0 <= i < |results| ==> IsSequence(results[i])) && MinLength(results) == 4
    ensures r.Err? ==> r.error == (if results != [] && exists i :: 0 <= i < |results| && !IsSequence(results[i]) then TypeErr else ValueErr)
    ensures r.Ok? ==> var b := r.value;
      && |b.observations| == |b.rewards| == |b.dones| == |b.infos| == |results|
      && forall i :: 0 <= i < |results| ==>
           && b.observations[i] == results[i].items[0]
           && b.rewards[i] == results[i].items[1]
           && b.dones[i] == Truthy(results[i].items[2])
           && b.infos[i] == results[i].items[3]
  {
    if results == [] then Err(ValueErr)
    else if exists i :: 0 <= i < |results| && !IsSequence(results[i]) then Err(TypeErr)
    else if MinLength(results) != 4 then Err(ValueErr)
    else
      var n := |results|;
      Ok(StepBatch(
        seq(n, i requires 0 <= i < n => results[i].items[0]),
        seq(n, i requires 0 <= i < n => results[i].items[1]),
        seq(n, i requires 0 <= i < n => Truthy(results[i].items[2])),
        seq(n, i requires 0 <= i < n => results[i].items[3])))
  }

  /** The first failure of the unpacking loop of `get_policy_action_wait`, if any. */
  function FirstPairError(replies: seq<Value>): (r: Option<Error>)
    ensures r.None? <==> forall i :: 0 <= i < |replies| ==> PairError(replies[i]).None?
    ensures r.Some? ==> exists i :: 0 <= i < |replies| && r == PairError(replies[i])
    decreases |replies|
  {
    if replies == [] then None
    else if PairError(replies[0]).Some? then PairError(replies[0])
    else
      var r := FirstPairError(replies[1..]);
      assert forall i :: 1 <= i < |replies| ==> replies[i] == replies[1..][i - 1];
      r
  }

  /** Every reply unpacks into a pair whose action is a sequence. */
  predicate WellFormedPairs(replies: seq<Value>)
  {
    forall i :: 0 <= i < |replies| ==> PairError(replies[i]).None? && IsSequence(PairAction(replies[i]))
  }

  /** The per-worker actions, in worker order. */
  function ActionLists(replies: seq<Value>): (r: seq<seq<Value>>)
    requires WellFormedPairs(replies)
    ensures |r| == |replies|
  {
    seq(|replies|, i requires 0 <= i < |replies| => PairAction(replies[i]).items)
  }

  /** The per-worker subtask-done flags, in worker order. */
  function FlagLists(replies: seq<Value>): (r: seq<seq<Value>>)
    requires WellFormedPairs(replies)
    ensures |r| == |replies|
  {
    seq(|replies|, i requires 0 <= i < |replies| => PairFlags(replies[i]))
  }

  /** `get_policy_action_wait`'s aggregation: the per-worker actions joined by
      `np.concatenate` (which refuses an empty list and zero-dimensional entries, such as
      a one-character string) and the subtask-done lists joined by `extend`. */
  function UnpackPolicy(replies: seq<Value>): (r: Result<PolicyActions>)
    ensures r.Ok? <==> replies != [] && WellFormedPairs(replies)
    ensures r.Ok? ==> forall i :: 0 <= i < |replies| ==> IsSequence(replies[i])
    ensures r.Err? ==> r.error == (if FirstPairError(replies).Some? then FirstPairError(replies).value else ValueErr)
  {
    var pairError := FirstPairError(replies);
    if pairError.Some? then Err(pairError.value)
    else if replies == [] then Err(ValueErr)
    else if !WellFormedPairs(replies) then Err(ValueErr)
    else Ok(PolicyActions(Concat(ActionLists(replies)), Concat(FlagLists(replies))))
  }

  /** The layout of a successful `get_policy_action_wait`: the flattened flag list is as
      long as all per-worker lists together, and entry `j` of worker `i`'s action (or flags)
      sits right after everything the workers before `i` returned. */
  lemma PolicyActionsLayout(replies: seq<Value>, i: nat, j: nat)
    requires UnpackPolicy(replies).Ok? && i < |replies|
    ensures var actions := ActionLists(replies);
      var flags := FlagLists(replies);
      var r := UnpackPolicy(replies).value;
      && |r.action| == SumLengths(actions)
      && |r.subtaskDones| == SumLengths(flags)
      && (j < |actions[i]| ==>
            SumLengths(actions[..i]) + j < |r.action| && r.action[SumLengths(actions[..i]) + j] == actions[i][j])
      && (j < |flags[i]| ==>
            SumLengths(flags[..i]) + j < |r.subtaskDones| && r.subtaskDones[SumLengths(flags[..i]) + j] == flags[i][j])
  {
    var actions := ActionLists(replies);
    var flags := FlagLists(replies);
    ConcatLength(actions);
    ConcatLength(flags);
    if j < |actions[i]| {
      ConcatAt(actions, i, j);
    }
    if j < |flags[i]| {
      ConcatAt(flags, i, j);
    }
  }

  /** The first reply `get_visuals_wait` cannot subscript with the front-camera key. */
  predicate HasFrontCam(v: Value)
  {
    v.Dict? && FrontCam in v.entries
  }

  function FirstWithoutFrontCam(replies: seq<Value>): (k: nat)
    ensures k <= |replies|
    ensures forall i :: 0 <= i < k ==> HasFrontCam(replies[i])
    ensures k < |replies| ==> !HasFrontCam(replies[k])
    decreases |replies|
  {
    if replies == [] then 0
    else if !HasFrontCam(replies[0]) then 0
    else
      var k := FirstWithoutFrontCam(replies[1..]);
      assert forall i :: 1 <= i < |replies| ==> replies[i] == replies[1..][i - 1];
      k + 1
  }

  /** The keys of the first `i` workers' images. */
  function CamKeys(i: nat): set<string>
  {
    set j | 0 <= j < i :: CamKey(j)
  }

  /** Worker `i`'s key is new among the first `i` workers' keys. */
  lemma CamKeysGrow(i: nat)
    ensures CamKey(i) !in CamKeys(i)
    ensures CamKeys(i + 1) == CamKeys(i) + {CamKey(i)}
  {
    forall j | 0 <= j < i
      ensures CamKey(j) != CamKey(i)
    {
      CamKeyInjective(i, j);
    }
  }

  /** `visuals` files reply `i`'s front-camera image under worker `i`'s key, and has no other key. */
  predicate VisualsOf(visuals: map<string, Value>, replies: seq<Value>)
    requires forall i :: 0 <= i < |replies| ==> HasFrontCam(replies[i])
  {
    && visuals.Keys == CamKeys(|replies|)
    && forall i :: 0 <= i < |replies| ==>
         HasFrontCam(replies[i]) && CamKey(i) in visuals && visuals[CamKey(i)] == replies[i].entries[FrontCam]
  }

  /** The dictionary comprehension of `get_visuals_wait`: `recv()` on each pipe in order,
      each reply subscripted with the first robot's front-camera key; the first reply
      without it raises and ends the comprehension. */
  method CollectVisuals(ps: seq<Slot>) returns (received: seq<Slot>, r: Result<map<string, Value>>)
    requires AllReady(ps)
    ensures var replies := Heads(ps);
      var k := FirstWithoutFrontCam(replies);
      && (k < |ps| ==> r == Err(VisualError(replies[k])) && received == ReceivedUpTo(ps, k + 1))
      && (k == |ps| ==> received == ReceivedUpTo(ps, |ps|) && r.Ok? && VisualsOf(r.value, replies))
  {
    ghost var replies := Heads(ps);
    ghost var k := FirstWithoutFrontCam(replies);
    received := ps;
    var visuals: map<string, Value> := map[];
    var missing: Option<Value> := None;
    var i := 0;
    while i < |ps|
      invariant 0 <= i <= |ps| && i <= k && missing.None?
      invariant received == ReceivedUpTo(ps, i)
      invariant visuals.Keys == CamKeys(i)
      invariant forall j :: 0 <= j < i ==> visuals[CamKey(j)] == replies[j].entries[FrontCam]
    {
      ReceiveNext(ps, i);
      var reply := received[i].replies[0];
      assert reply == replies[i];
      received := received[i := Recv(received[i])];
      if !HasFrontCam(reply) {
        assert i == k;
        missing := Some(reply);
        break;
      }
      CamKeysGrow(i);
      visuals := visuals[CamKey(i) := reply.entries[FrontCam]];
      i := i + 1;
    }
    if missing.Some? {
      return received, Err(VisualError(missing.value));
    }
    assert i == k == |ps|;
    return received, Ok(visuals);
  }

  /** What subscripting a reply without the key raises. */
  function VisualError(v: Value): Error
  {
    if v.Dict? then KeyErr else TypeErr
  }

  /** Everything `seed` sends. */
  function SeedMsgs(seeds: seq<Value>): (msgs: seq<Msg>)
    ensures |msgs| == |seeds| && forall i :: 0 <= i < |seeds| ==> msgs[i] == Msg("seed", seeds[i])
  {
    seq(|seeds|, i requires 0 <= i < |seeds| => Msg("seed", seeds[i]))
  }

  /** A vector of sub-environments, each run by a worker behind its own pipe. */
  class AsyncVectorEnv {
    const numEnvs: nat
    const sharedMemory: bool
    /** Robots per sub-environment: the width of a command block. */
    const maxAgentsPerEnv: nat
    var state: AsyncState
    var closed: bool
    var pipes: seq<Slot>
    var errorQueue: seq<ErrorRecord>
    /** The batch of observations returned by `reset_wait` and `step_wait`. */
    var observations: seq<Value>
    /** Whether `close` terminated the worker processes instead of asking them to close. */
    var terminated: bool

    ghost predicate Valid()
      reads this
    {
      |pipes| == numEnvs && IndicesBelow(errorQueue, numEnvs) && |observations| == numEnvs
    }

    /** The prelude of a `_wait` for `tag` in the current state. */
    ghost function PreludeFor(tag: AsyncState, timeout: Option<real>): (p: Prelude)
      requires Valid()
      reads this
    {
      WaitPrelude(closed, state, pipes, errorQueue, tag, timeout)
    }

    /** The setup part of `__init__`: worker `i` is started with an open pipe and the
        observation buffer holds one (not yet meaningful) entry per worker. The
        observation-space check that ends `__init__` is `Open`'s. */
    constructor (numEnvs: nat, sharedMemory: bool, maxAgentsPerEnv: nat)
      ensures Valid()
      ensures this.numEnvs == numEnvs && this.sharedMemory == sharedMemory && this.maxAgentsPerEnv == maxAgentsPerEnv
      ensures state == Default && !closed && errorQueue == [] && !terminated
      ensures pipes == seq(numEnvs, _ => Pipe(true, [], []))
      ensures |observations| == numEnvs
    {
      this.numEnvs := numEnvs;
      this.sharedMemory := sharedMemory;
      this.maxAgentsPerEnv := maxAgentsPerEnv;
      state := Default;
      closed := false;
      pipes := seq(numEnvs, _ => Pipe(true, [], []));
      errorQueue := [];
      observations := seq(numEnvs, _ => Nil);
      terminated := false;
    }

    /** Input: worker `i` sends `v` back. A pipe replaced by None can no longer receive. */
    method Deliver(i: nat, v: Value)
      requires Valid() && i < numEnvs
      modifies this`pipes
      ensures Valid()
      ensures pipes == old(pipes)[i := if old(pipes)[i].Pipe? then old(pipes)[i].(replies := old(pipes)[i].replies + [v]) else Gone]
    {
      if pipes[i].Pipe? {
        pipes := pipes[i := pipes[i].(replies := pipes[i].replies + [v])];
      }
    }

    /** Input: in shared-memory mode, worker `i` writes observation `v` into its slot of
        the shared buffer (`write_to_shared_memory`), which `observations` reads. */
    method WriteSlot(i: nat, v: Value)
      requires Valid() && sharedMemory && i < numEnvs
      modifies this`observations
      ensures Valid()
      ensures observations == old(observations)[i := v]
    {
      observations := observations[i := v];
    }

    /** Input: a worker puts `(index, exctype, value)` on the error queue. */
    method ReportError(e: ErrorRecord)
      requires Valid() && e.index < numEnvs
      modifies this`errorQueue
      ensures Valid()
      ensures errorQueue == old(errorQueue) + [e]
    {
      errorQueue := errorQueue + [e];
    }

    /** `_assert_is_running`. */
    function RunningCheck(): (r: Option<Error>)
      reads this
      ensures r.Some? <==> closed
      ensures r.Some? ==> r.value == ClosedEnvironment
    {
      if closed then Some(ClosedEnvironment) else None
    }

    /** `_poll`: walk the pipes in index order and stop at the first that is closed or has
        no reply (see `PollFrom`; `PollTrueIffAllReady` says when it succeeds). */
    method Poll(timeout: Option<real>) returns (r: Result<bool>)
      requires Valid()
      ensures r == if closed then Err(ClosedEnvironment) else PollFrom(pipes, 0, timeout)
    {
      if closed {
        return Err(ClosedEnvironment);
      }
      var i := 0;
      while i < |pipes|
        invariant 0 <= i <= |pipes|
        invariant PollFrom(pipes, i, timeout) == PollFrom(pipes, 0, timeout)
      {
        match pipes[i]
        case Gone =>
          return Err(AttributeErr);
        case Pipe(isOpen, _, replies) =>
          if !isOpen {
            return Ok(false);
          }
          if replies == [] {
            if timeout.None? {
              return Err(WouldBlock);
            }
            return Ok(false);
          }
        i := i + 1;
      }
      return Ok(true);
    }

    /** `_raise_if_errors` (specified by `Drain`). */
    method RaiseIfErrors() returns (err: Option<Error>)
      requires Valid()
      modifies this`pipes, this`errorQueue
      ensures Valid()
      ensures Drained(pipes, errorQueue, err) == Drain(old(pipes), old(errorQueue), None)
    {
      var last: Option<Exc> := None;
      while errorQueue != []
        invariant Valid()
        invariant Drain(pipes, errorQueue, last) == Drain(old(pipes), old(errorQueue), None)
        decreases |errorQueue|
      {
        var e := errorQueue[0];
        errorQueue := errorQueue[1..];
        if pipes[e.index].Gone? {
          return Some(AttributeErr);
        }
        pipes := pipes[e.index := Gone];
        last := Some(e.exc);
      }
      err := if last.Some? then Some(WorkerFault(last.value)) else None;
    }

    /** `for pipe, m in zip(parent_pipes, msgs): pipe.send(m)`. */
    method SendEach(msgs: seq<Msg>) returns (err: Option<Error>)
      requires Valid() && |msgs| <= numEnvs
      modifies this`pipes
      ensures Valid()
      ensures pipes == AfterSends(old(pipes), msgs)
      ensures var b := FirstUnsendable(old(pipes), |msgs|);
        err == if b < |msgs| then Some(SendError(old(pipes)[b])) else None
    {
      var i := 0;
      while i < |msgs|
        invariant 0 <= i <= |msgs| && |pipes| == |old(pipes)|
        invariant forall j :: 0 <= j < i ==> Sendable(old(pipes)[j]) && pipes[j] == Send(old(pipes)[j], msgs[j])
        invariant forall j :: i <= j < |pipes| ==> pipes[j] == old(pipes)[j]
      {
        if !Sendable(pipes[i]) {
          assert FirstUnsendable(old(pipes), |msgs|) == i;
          assert pipes == AfterSends(old(pipes), msgs);
          return Some(SendError(pipes[i]));
        }
        pipes := pipes[i := Send(pipes[i], msgs[i])];
        i := i + 1;
      }
      assert FirstUnsendable(old(pipes), |msgs|) == |msgs|;
      assert pipes == AfterSends(old(pipes), msgs);
      return None;
    }

    /** What an `_async` call (or, with `checkPending` false, `get_visuals_async`) does:
        refuse when closed, refuse a second pending call, send one message per worker
        (stopping at a pipe that cannot take it) and set the pending tag. */
    twostate predicate CallStarted(tag: AsyncState, msgs: seq<Msg>, checkPending: bool, new r: Result<()>)
      reads this
    {
      && |msgs| <= |old(pipes)|
      && (old(closed) ==> r == Err(ClosedEnvironment) && state == old(state) && pipes == old(pipes))
      && (!old(closed) && checkPending && old(state) != Default ==>
            r == Err(AlreadyPendingCall(old(state))) && state == old(state) && pipes == old(pipes))
      && (!old(closed) && (!checkPending || old(state) == Default) ==>
            var b := FirstUnsendable(old(pipes), |msgs|);
            && pipes == AfterSends(old(pipes), msgs)
            && (b == |msgs| ==> r == Ok(()) && state == tag)
            && (b < |msgs| ==> r == Err(SendError(old(pipes)[b])) && state == old(state)))
    }

    method StartCall(tag: AsyncState, msgs: seq<Msg>, checkPending: bool) returns (r: Result<()>)
      requires Valid() && |msgs| <= numEnvs
      modifies this`state, this`pipes
      ensures Valid() && CallStarted(tag, msgs, checkPending, r)
    {
      if closed {
        return Err(ClosedEnvironment);
      }
      if checkPending && state != Default {
        return Err(AlreadyPendingCall(state));
      }
      var err := SendEach(msgs);
      if err.Some? {
        return Err(err.value);
      }
      state := tag;
      return Ok(());
    }

    method ResetAsync() returns (r: Result<()>)
      requires Valid()
      modifies this`state, this`pipes
      ensures Valid() && CallStarted(WaitingReset, Broadcast("reset", Nil, numEnvs), true, r)
    {
      r := StartCall(WaitingReset, Broadcast("reset", Nil, numEnvs), true);
    }

    method StepAsync(actions: seq<Value>) returns (r: Result<()>)
      requires Valid()
      modifies this`state, this`pipes
      ensures Valid() && CallStarted(WaitingStep, StepMsgs(actions, numEnvs), true, r)
    {
      r := StartCall(WaitingStep, StepMsgs(actions, numEnvs), true);
    }

    /** No pending check: the tag is overwritten whatever was pending. */
    method GetVisualsAsync() returns (r: Result<()>)
      requires Valid()
      modifies this`state, this`pipes
      ensures Valid() && CallStarted(WaitingVisuals, Broadcast("visuals", Nil, numEnvs), false, r)
    {
      r := StartCall(WaitingVisuals, Broadcast("visuals", Nil, numEnvs), false);
    }

    method SetupMotionPlannerPoliciesAsync(horizon: Value) returns (r: Result<()>)
      requires Valid()
      modifies this`state, this`pipes
      ensures Valid() && CallStarted(WaitingMppSetup, Broadcast("setup_motion_planner_policies", horizon, numEnvs), true, r)
    {
      r := StartCall(WaitingMppSetup, Broadcast("setup_motion_planner_policies", horizon, numEnvs), true);
    }

    method PolicyResetEnvAsync() returns (r: Result<()>)
      requires Valid()
      modifies this`state, this`pipes
      ensures Valid() && CallStarted(WaitingPolicyReset, Broadcast("policy_reset_env", Nil, numEnvs), true, r)
    {
      r := StartCall(WaitingPolicyReset, Broadcast("policy_reset_env", Nil, numEnvs), true);
    }

    method GetPolicyActionAsync(obs: Value, command: seq<Value>, norm: bool) returns (r: Result<()>)
      requires Valid()
      modifies this`state, this`pipes
      ensures Valid() && CallStarted(WaitingPolicyAction, PolicyActionMsgs(obs, command, norm, numEnvs, maxAgentsPerEnv), true, r)
    {
      r := StartCall(WaitingPolicyAction, PolicyActionMsgs(obs, command, norm, numEnvs, maxAgentsPerEnv), true);
    }

    method GetPolicyDoneSubtasksAsync() returns (r: Result<()>)
      requires Valid()
      modifies this`state, this`pipes
      ensures Valid() && CallStarted(WaitingPolicyDoneSubtasks, Broadcast("get_policy_done_subtasks", Nil, numEnvs), true, r)
    {
      r := StartCall(WaitingPolicyDoneSubtasks, Broadcast("get_policy_done_subtasks", Nil, numEnvs), true);
    }

    /** The prelude every `_wait` shares (specified by `WaitPrelude`). */
    method BeginWait(tag: AsyncState, timeout: Option<real>) returns (err: Option<Error>)
      requires Valid()
      modifies this`state, this`pipes, this`errorQueue
      ensures Valid()
      ensures var p := old(PreludeFor(tag, timeout));
        err == p.err && state == p.state && pipes == p.pipes && errorQueue == p.queue
      ensures err.None? ==>
        AllReady(pipes) && old(AllReady(pipes)) && pipes == old(pipes) && state == tag
        && old(errorQueue) == [] && errorQueue == []
    {
      WaitPreludeProtocol(closed, state, pipes, errorQueue, tag, timeout);
      if closed {
        return Some(ClosedEnvironment);
      }
      if state != tag {
        return Some(NoAsyncCall(tag));
      }
      var polled := Poll(timeout);
      if polled.Err? {
        return Some(polled.error);
      }
      if !polled.value {
        // the TimeoutError message formats `timeout > 1`, a TypeError when timeout is None
        state := Default;
        return Some(if timeout.None? then TypeErr else Timeout);
      }
      err := RaiseIfErrors();
    }

    /** `[pipe.recv() for pipe in parent_pipes]` once every pipe has a reply waiting. */
    method RecvAll() returns (replies: seq<Value>)
      requires Valid() && AllReady(pipes)
      modifies this`pipes
      ensures Valid()
      ensures replies == Heads(old(pipes)) && pipes == ReceivedUpTo(old(pipes), numEnvs)
    {
      replies := [];
      var i := 0;
      while i < numEnvs
        invariant 0 <= i <= numEnvs && |pipes| == numEnvs
        invariant AllReady(old(pipes))
        invariant pipes == ReceivedUpTo(old(pipes), i)
        invariant replies == Heads(old(pipes))[..i]
      {
        ReceiveNext(old(pipes), i);
        replies := replies + [pipes[i].replies[0]];
        pipes := pipes[i := Recv(pipes[i])];
        i := i + 1;
      }
    }

    /** `reset_wait`. */
    method ResetWait(timeout: Option<real>) returns (r: Result<seq<Value>>)
      requires Valid()
      modifies this`state, this`pipes, this`errorQueue, this`observations
      ensures Valid()
      ensures var p := old(PreludeFor(WaitingReset, timeout));
        && (p.err.Some? ==>
              r == Err(p.err.value) && state == p.state && pipes == p.pipes
              && errorQueue == p.queue && observations == old(observations))
        && (p.err.None? ==>
              old(AllReady(pipes)) && old(errorQueue) == [] && errorQueue == []
              && state == Default && pipes == ReceivedUpTo(old(pipes), numEnvs)
              && observations == (if sharedMemory then old(observations) else Heads(old(pipes)))
              && r == Ok(observations))
    {
      var err := BeginWait(WaitingReset, timeout);
      if err.Some? {
        return Err(err.value);
      }
      var replies := RecvAll();
      state := Default;
      if !sharedMemory {
        observations := replies;
      }
      return Ok(observations);
    }

    /** `step_wait`: the tag is back to DEFAULT before the replies are unpacked. */
    method StepWait(timeout: Option<real>) returns (r: Result<StepBatch>)
      requires Valid()
      modifies this`state, this`pipes, this`errorQueue, this`observations
      ensures Valid()
      ensures var p := old(PreludeFor(WaitingStep, timeout));
        && (p.err.Some? ==>
              r == Err(p.err.value) && state == p.state && pipes == p.pipes
              && errorQueue == p.queue && observations == old(observations))
        && (p.err.None? ==>
              old(AllReady(pipes)) && old(errorQueue) == [] && errorQueue == []
              && state == Default && pipes == ReceivedUpTo(old(pipes), numEnvs)
              && var u := UnpackStep(Heads(old(pipes)));
              && (u.Err? ==> r == Err(u.error) && observations == old(observations))
              && (u.Ok? ==>
                    observations == (if sharedMemory then old(observations) else u.value.observations)
                    && r == Ok(u.value.(observations := observations))))
    {
      var err := BeginWait(WaitingStep, timeout);
      if err.Some? {
        return Err(err.value);
      }
      var results := RecvAll();
      state := Default;
      var u := UnpackStep(results);
      if u.Err? {
        return Err(u.error);
      }
      if !sharedMemory {
        observations := u.value.observations;
      }
      return Ok(u.value.(observations := observations));
    }

    /** The dictionary comprehension of `get_visuals_wait`: `recv()` from each pipe in turn
        and subscript the reply with the front-camera key; a reply without it ends the
        comprehension with KeyError (or TypeError for a reply that is not a dictionary). */
    method RecvVisuals() returns (r: Result<map<string, Value>>)
      requires Valid() && AllReady(pipes)
      modifies this`pipes
      ensures Valid()
      ensures var replies := Heads(old(pipes));
        var k := FirstWithoutFrontCam(replies);
        && (k < numEnvs ==> r == Err(VisualError(replies[k])) && pipes == ReceivedUpTo(old(pipes), k + 1))
        && (k == numEnvs ==> pipes == ReceivedUpTo(old(pipes), numEnvs) && r.Ok? && VisualsOf(r.value, replies))
    {
      var received;
      received, r := CollectVisuals(pipes);
      pipes := received;
    }

    /** `get_visuals_wait`: worker `idx`'s front-camera image under its own key. A reply
        without that key stops the collection with the tag still pending. */
    method GetVisualsWait(timeout: Option<real>) returns (r: Result<map<string, Value>>)
      requires Valid()
      modifies this`state, this`pipes, this`errorQueue
      ensures Valid()
      ensures var p := old(PreludeFor(WaitingVisuals, timeout));
        && (p.err.Some? ==> r == Err(p.err.value) && state == p.state && pipes == p.pipes && errorQueue == p.queue)
        && (p.err.None? ==>
              old(AllReady(pipes)) && old(errorQueue) == [] && errorQueue == []
              && var replies := Heads(old(pipes));
              var k := FirstWithoutFrontCam(replies);
              && (k < numEnvs ==>
                    r == Err(VisualError(replies[k])) && state == WaitingVisuals
                    && pipes == ReceivedUpTo(old(pipes), k + 1))
              && (k == numEnvs ==>
                    state == Default && pipes == ReceivedUpTo(old(pipes), numEnvs) && r.Ok?
                    && VisualsOf(r.value, replies)))
    {
      var err := BeginWait(WaitingVisuals, timeout);
      if err.Some? {
        return Err(err.value);
      }
      r := RecvVisuals();
      if r.Ok? {
        state := Default;
      }
    }

    /** The `_wait` methods that only collect the replies. */
    method CollectWait(tag: AsyncState, timeout: Option<real>) returns (r: Result<seq<Value>>)
      requires Valid()
      modifies this`state, this`pipes, this`errorQueue
      ensures Valid()
      ensures var p := old(PreludeFor(tag, timeout));
        && (p.err.Some? ==> r == Err(p.err.value) && state == p.state && pipes == p.pipes && errorQueue == p.queue)
        && (p.err.None? ==>
              old(AllReady(pipes)) && old(errorQueue) == [] && errorQueue == []
              && state == Default && pipes == ReceivedUpTo(old(pipes), numEnvs) && r == Ok(Heads(old(pipes))))
    {
      var err := BeginWait(tag, timeout);
      if err.Some? {
        return Err(err.value);
      }
      var replies := RecvAll();
      state := Default;
      return Ok(replies);
    }

    method SetupMotionPlannerPoliciesWait(timeout: Option<real>) returns (r: Result<seq<Value>>)
      requires Valid()
      modifies this`state, this`pipes, this`errorQueue
      ensures Valid()
      ensures var p := old(PreludeFor(WaitingMppSetup, timeout));
        && (p.err.Some? ==> r == Err(p.err.value) && state == p.state && pipes == p.pipes && errorQueue == p.queue)
        && (p.err.None? ==>
              old(AllReady(pipes)) && old(errorQueue) == [] && errorQueue == []
              && state == Default && pipes == ReceivedUpTo(old(pipes), numEnvs) && r == Ok(Heads(old(pipes))))
    {
      r := CollectWait(WaitingMppSetup, timeout);
    }

    method PolicyResetEnvWait(timeout: Option<real>) returns (r: Result<seq<Value>>)
      requires Valid()
      modifies this`state, this`pipes, this`errorQueue
      ensures Valid()
      ensures var p := old(PreludeFor(WaitingPolicyReset, timeout));
        && (p.err.Some? ==> r == Err(p.err.value) && state == p.state && pipes == p.pipes && errorQueue == p.queue)
        && (p.err.None? ==>
              old(AllReady(pipes)) && old(errorQueue) == [] && errorQueue == []
              && state == Default && pipes == ReceivedUpTo(old(pipes), numEnvs) && r == Ok(Heads(old(pipes))))
    {
      r := CollectWait(WaitingPolicyReset, timeout);
    }

    method GetPolicyDoneSubtasksWait(timeout: Option<real>) returns (r: Result<seq<Value>>)
      requires Valid()
      modifies this`state, this`pipes, this`errorQueue
      ensures Valid()
      ensures var p := old(PreludeFor(WaitingPolicyDoneSubtasks, timeout));
        && (p.err.Some? ==> r == Err(p.err.value) && state == p.state && pipes == p.pipes && errorQueue == p.queue)
        && (p.err.None? ==>
              old(AllReady(pipes)) && old(errorQueue) == [] && errorQueue == []
              && state == Default && pipes == ReceivedUpTo(old(pipes), numEnvs) && r == Ok(Heads(old(pipes))))
    {
      r := CollectWait(WaitingPolicyDoneSubtasks, timeout);
    }

    /** `get_policy_action_wait`: all replies are received, then unpacked; the tag is only
        cleared when unpacking and concatenation succeed. */
    method GetPolicyActionWait(timeout: Option<real>) returns (r: Result<PolicyActions>)
      requires Valid()
      modifies this`state, this`pipes, this`errorQueue
      ensures Valid()
      ensures var p := old(PreludeFor(WaitingPolicyAction, timeout));
        && (p.err.Some? ==> r == Err(p.err.value) && state == p.state && pipes == p.pipes && errorQueue == p.queue)
        && (p.err.None? ==>
              old(AllReady(pipes)) && old(errorQueue) == [] && errorQueue == []
              && pipes == ReceivedUpTo(old(pipes), numEnvs)
              && r == UnpackPolicy(Heads(old(pipes)))
              && state == (if r.Ok? then Default else WaitingPolicyAction))
    {
      var err := BeginWait(WaitingPolicyAction, timeout);
      if err.Some? {
        return Err(err.value);
      }
      var replies := RecvAll();
      r := UnpackPolicy(replies);
      if r.Ok? {
        state := Default;
      }
    }
  
    /** A blocking `recv()` on every pipe in index order, worker `i` answering `answers[i]`. */
    method ExchangeAll(answers: seq<Value>) returns (replies: seq<Value>)
      requires Valid() && |answers| == numEnvs
      requires forall i :: 0 <= i < numEnvs ==> pipes[i].Pipe?
      modifies this`pipes
      ensures Valid() && |replies| == numEnvs
      ensures forall i :: 0 <= i < numEnvs ==>
        replies[i] == ExchangeReply(old(pipes)[i], answers[i]) && pipes[i] == Exchange(old(pipes)[i], answers[i])
    {
      replies := [];
      var i := 0;
      while i < numEnvs
        invariant 0 <= i <= numEnvs && |pipes| == numEnvs && |replies| == i
        invariant forall j :: 0 <= j < i ==>
          replies[j] == ExchangeReply(old(pipes)[j], answers[j]) && pipes[j] == Exchange(old(pipes)[j], answers[j])
        invariant forall j :: i <= j < numEnvs ==> pipes[j] == old(pipes)[j]
      {
        replies := replies + [ExchangeReply(pipes[i], answers[i])];
        pipes := pipes[i := Exchange(pipes[i], answers[i])];
        i := i + 1;
      }
    }

    /** `seed`: the running check, then the seed list and its length assertion, then the
        pending check; every worker answers a seed with None. */
    method Seed(seeds: SeedArg) returns (r: Result<()>)
      requires Valid()
      modifies this`pipes
      ensures Valid()
      ensures closed ==> r == Err(ClosedEnvironment) && pipes == old(pipes)
      ensures !closed && SeedsFor(seeds, numEnvs).Err? ==> r == Err(AssertionFailed) && pipes == old(pipes)
      ensures !closed && SeedsFor(seeds, numEnvs).Ok? && state != Default ==>
        r == Err(AlreadyPendingCall(state)) && pipes == old(pipes)
      ensures !closed && SeedsFor(seeds, numEnvs).Ok? && state == Default ==>
        var msgs := SeedMsgs(SeedsFor(seeds, numEnvs).value);
        var b := FirstUnsendable(old(pipes), numEnvs);
        && (b < numEnvs ==> r == Err(SendError(old(pipes)[b])) && pipes == AfterSends(old(pipes), msgs))
        && (b == numEnvs ==>
              r == Ok(()) && forall i :: 0 <= i < numEnvs ==> pipes[i] == Exchange(Send(old(pipes)[i], msgs[i]), Nil))
    {
      if closed {
        return Err(ClosedEnvironment);
      }
      var list := SeedsFor(seeds, numEnvs);
      if list.Err? {
        return Err(AssertionFailed);
      }
      if state != Default {
        return Err(AlreadyPendingCall(state));
      }
      var err := SendEach(SeedMsgs(list.value));
      if err.Some? {
        return Err(err.value);
      }
      var _ := ExchangeAll(seq(numEnvs, _ => Nil));
      return Ok(());
    }

    /** `_check_observation_spaces`: worker `i` answers whether its own observation space
        `workerSpaces[i]` equals `space`, and all answers received must be true. */
    method CheckObservationSpaces(space: Value, workerSpaces: seq<Value>) returns (r: Result<()>)
      requires Valid() && |workerSpaces| == numEnvs
      modifies this`pipes
      ensures Valid()
      ensures closed ==> r == Err(ClosedEnvironment) && pipes == old(pipes)
      ensures !closed ==>
        var msgs := Broadcast("_check_observation_space", space, numEnvs);
        var b := FirstUnsendable(old(pipes), numEnvs);
        && (b < numEnvs ==> r == Err(SendError(old(pipes)[b])) && pipes == AfterSends(old(pipes), msgs))
        && (b == numEnvs ==>
              && (forall i :: 0 <= i < numEnvs ==>
                    pipes[i] == Exchange(Send(old(pipes)[i], msgs[i]), Bool(workerSpaces[i] == space)))
              && (r.Err? ==> r.error == RuntimeErr)
              && ((forall i :: 0 <= i < numEnvs ==> old(pipes)[i].replies == []) ==>
                    (r.Ok? <==> forall i :: 0 <= i < numEnvs ==> workerSpaces[i] == space)))
    {
      if closed {
        return Err(ClosedEnvironment);
      }
      var msgs := Broadcast("_check_observation_space", space, numEnvs);
      var err := SendEach(msgs);
      if err.Some? {
        r := Err(err.value);
      } else {
        ghost var start, sent := old(pipes), pipes;
        assert forall i :: 0 <= i < numEnvs ==> sent[i] == Send(start[i], msgs[i]);
        r := AnswerSpaceChecks(space, workerSpaces);
      }
    }

    /** The receiving half of `_check_observation_spaces`, once every message is sent. */
    method AnswerSpaceChecks(space: Value, workerSpaces: seq<Value>) returns (r: Result<()>)
      requires Valid() && |workerSpaces| == numEnvs
      requires forall i :: 0 <= i < numEnvs ==> pipes[i].Pipe?
      modifies this`pipes
      ensures Valid()
      ensures forall i :: 0 <= i < numEnvs ==> pipes[i] == Exchange(old(pipes)[i], Bool(workerSpaces[i] == space))
      ensures r.Err? ==> r.error == RuntimeErr
      ensures (forall i :: 0 <= i < numEnvs ==> old(pipes)[i].replies == []) ==>
        (r.Ok? <==> forall i :: 0 <= i < numEnvs ==> workerSpaces[i] == space)
    {
      ghost var start := pipes;
      var answers := seq(numEnvs, i requires 0 <= i < numEnvs => Bool(workerSpaces[i] == space));
      var replies := ExchangeAll(answers);
      if forall i :: 0 <= i < numEnvs ==> start[i].replies == [] {
        forall i | 0 <= i < numEnvs
          ensures replies[i] == answers[i]
        {
          assert start[i].replies == [];
        }
      }
      r := if exists i :: 0 <= i < numEnvs && !Truthy(replies[i]) then Err(RuntimeErr) else Ok(());
    }

    /** `parent_pipes[sub_env_idx].send(m)` after the running check. */
    twostate predicate SentTo(subEnvIdx: int, m: Msg, new r: Result<()>)
      reads this
    {
      && (old(closed) ==> r == Err(ClosedEnvironment) && pipes == old(pipes))
      && (!old(closed) && PyIndex(subEnvIdx, |old(pipes)|).None? ==> r == Err(IndexErr) && pipes == old(pipes))
      && (!old(closed) && PyIndex(subEnvIdx, |old(pipes)|).Some? ==>
            var i := PyIndex(subEnvIdx, |old(pipes)|).value;
            && (Sendable(old(pipes)[i]) ==> r == Ok(()) && pipes == old(pipes)[i := Send(old(pipes)[i], m)])
            && (!Sendable(old(pipes)[i]) ==> r == Err(SendError(old(pipes)[i])) && pipes == old(pipes)))
    }

    method SendTo(subEnvIdx: int, m: Msg) returns (r: Result<()>)
      requires Valid()
      modifies this`pipes
      ensures Valid() && SentTo(subEnvIdx, m, r)
    {
      if closed {
        return Err(ClosedEnvironment);
      }
      var idx := PyIndex(subEnvIdx, numEnvs);
      if idx.None? {
        return Err(IndexErr);
      }
      var i := idx.value;
      if !Sendable(pipes[i]) {
        return Err(SendError(pipes[i]));
      }
      pipes := pipes[i := Send(pipes[i], m)];
      return Ok(());
    }

    /** `set_status_led_off`: one message to one worker, answered with True without waiting. */
    method SetStatusLedOff(subEnvIdx: int, robotIdx: Value) returns (r: Result<bool>)
      requires Valid()
      modifies this`pipes
      ensures Valid()
      ensures exists sent: Result<()> ::
        SentTo(subEnvIdx, Msg("led_off", robotIdx), sent) && r == (if sent.Ok? then Ok(true) else Err(sent.error))
    {
      var sent := SendTo(subEnvIdx, Msg("led_off", robotIdx));
      r := if sent.Ok? then Ok(true) else Err(sent.error);
    }

    /** `set_status_led_on`. */
    method SetStatusLedOn(subEnvIdx: int, robotIdx: Value) returns (r: Result<bool>)
      requires Valid()
      modifies this`pipes
      ensures Valid()
      ensures exists sent: Result<()> ::
        SentTo(subEnvIdx, Msg("led_on", robotIdx), sent) && r == (if sent.Ok? then Ok(true) else Err(sent.error))
    {
      var sent := SendTo(subEnvIdx, Msg("led_on", robotIdx));
      r := if sent.Ok? then Ok(true) else Err(sent.error);
    }

    /** `policy_reset_env_single`. */
    method PolicyResetEnvSingle(subEnvIdx: int, robotIdx: Value) returns (r: Result<()>)
      requires Valid()
      modifies this`pipes
      ensures Valid() && SentTo(subEnvIdx, Msg("policy_reset_env_single", robotIdx), r)
    {
      r := SendTo(subEnvIdx, Msg("policy_reset_env_single", robotIdx));
    }

    /** `policy_reset_done_subtasks`. */
    method PolicyResetDoneSubtasks(subEnvIdx: int, robotIdx: Value) returns (r: Result<()>)
      requires Valid()
      modifies this`pipes
      ensures Valid() && SentTo(subEnvIdx, Msg("policy_reset_done_subtasks", robotIdx), r)
    {
      r := SendTo(subEnvIdx, Msg("policy_reset_done_subtasks", robotIdx));
    }

    /** `get_single_visuals`: send, then block for the answer. The worker does not know the
        command, so it answers None (and reports a RuntimeError through the error queue). */
    method GetSingleVisuals(subEnvIdx: int, robotIdx: Value) returns (r: Result<Value>)
      requires Valid()
      modifies this`pipes
      ensures Valid()
      ensures closed ==> r == Err(ClosedEnvironment) && pipes == old(pipes)
      ensures !closed && PyIndex(subEnvIdx, numEnvs).None? ==> r == Err(IndexErr) && pipes == old(pipes)
      ensures !closed && PyIndex(subEnvIdx, numEnvs).Some? ==>
        var i := PyIndex(subEnvIdx, numEnvs).value;
        var m := Msg("get_single_visuals", robotIdx);
        && (!Sendable(old(pipes)[i]) ==> r == Err(SendError(old(pipes)[i])) && pipes == old(pipes))
        && (Sendable(old(pipes)[i]) ==>
              r == Ok(ExchangeReply(old(pipes)[i], Nil))
              && pipes == old(pipes)[i := Exchange(Send(old(pipes)[i], m), Nil)])
    {
      var sent := SendTo(subEnvIdx, Msg("get_single_visuals", robotIdx));
      if sent.Err? {
        return Err(sent.error);
      }
      var i := PyIndex(subEnvIdx, numEnvs).value;
      r := Ok(ExchangeReply(pipes[i], Nil));
      pipes := pipes[i := Exchange(pipes[i], Nil)];
    }

    /** The first part of `close` on a pending call: run its `_wait` (a timeout there, or a
        forced close, which waits for nothing, means the workers are terminated instead; any
        other exception of the `_wait`, including the TypeError of a failed poll without a
        timeout, escapes `close`). */
    method FinishPending(timeout: Option<real>, terminate: bool) returns (err: Option<Error>, term: bool)
      requires Valid() && !closed && state != Default
      modifies this`state, this`pipes, this`errorQueue, this`observations
      ensures Valid()
      ensures !HasWaitMethod(old(state)) ==> err == Some(AttributeErr) && unchanged(this)
      ensures err.None? ==> term == (terminate || old(PreludeFor(state, if terminate then Some(0.0) else timeout)).err == Some(Timeout))
      ensures err != Some(Timeout)
      ensures var p := old(PreludeFor(state, if terminate then Some(0.0) else timeout));
        HasWaitMethod(old(state)) && p.err.Some? ==>
          (p.err == Some(Timeout) ==> err.None? && term)
          && (p.err != Some(Timeout) ==> err == p.err && term == terminate)
    {
      HasWaitMethodExactly(state);
      var t := if terminate then Some(0.0) else timeout;
      var e: Option<Error>;
      if state == WaitingReset {
        var w := ResetWait(t);
        e := if w.Err? then Some(w.error) else None;
      } else if state == WaitingStep {
        var w := StepWait(t);
        e := if w.Err? then Some(w.error) else None;
      } else if state == WaitingPolicyReset {
        var w := PolicyResetEnvWait(t);
        e := if w.Err? then Some(w.error) else None;
      } else {
        return Some(AttributeErr), terminate;
      }
      if e == Some(Timeout) {
        return None, true;
      }
      return e, terminate;
    }

    /** The polite half of `close`: send `('close', None)` on every open pipe, then wait
        for every open pipe's answer. */
    method AskWorkersToClose() returns (r: Result<()>)
      requires Valid()
      modifies this`pipes
      ensures Valid()
      ensures r.Err? <==> exists i :: 0 <= i < numEnvs && old(pipes)[i].Gone?
      ensures r.Err? ==> r.error == AttributeErr
      ensures r.Ok? ==> forall i :: 0 <= i < numEnvs ==>
        (old(pipes)[i].Pipe? && pipes[i].Pipe? && pipes[i].isOpen == old(pipes)[i].isOpen
         && pipes[i].sent == old(pipes)[i].sent + (if old(pipes)[i].isOpen then [Msg("close", Nil)] else []))
      ensures r.Err? ==>
        exists e ::
          && 0 <= e < numEnvs && old(pipes)[e].Gone?
          && (forall j :: 0 <= j < e ==>
                old(pipes)[j].Pipe?
                && pipes[j] == (if old(pipes)[j].isOpen then Send(old(pipes)[j], Msg("close", Nil)) else old(pipes)[j]))
          && (forall j :: e <= j < numEnvs ==> pipes[j] == old(pipes)[j])
    {
      var i := 0;
      while i < numEnvs
        invariant 0 <= i <= numEnvs && |pipes| == numEnvs
        invariant forall j :: 0 <= j < i ==>
          (old(pipes)[j].Pipe? && pipes[j].Pipe? && pipes[j].isOpen == old(pipes)[j].isOpen
           && pipes[j].sent == old(pipes)[j].sent + (if old(pipes)[j].isOpen then [Msg("close", Nil)] else []))
        invariant forall j :: 0 <= j < i ==>
          pipes[j] == (if old(pipes)[j].isOpen then Send(old(pipes)[j], Msg("close", Nil)) else old(pipes)[j])
        invariant forall j :: i <= j < numEnvs ==> pipes[j] == old(pipes)[j]
      {
        if pipes[i].Gone? {
          return Err(AttributeErr);
        }
        if pipes[i].isOpen {
          pipes := pipes[i := Send(pipes[i], Msg("close", Nil))];
        }
        i := i + 1;
      }
      ghost var sent := pipes;
      i := 0;
      while i < numEnvs
        invariant 0 <= i <= numEnvs && |pipes| == numEnvs
        invariant forall j :: 0 <= j < numEnvs ==>
          (pipes[j].Pipe? && pipes[j].isOpen == sent[j].isOpen && pipes[j].sent == sent[j].sent)
      {
        if pipes[i].isOpen {
          pipes := pipes[i := Exchange(pipes[i], Nil)];
        }
        i := i + 1;
      }
      return Ok(());
    }

    /** `for pipe in parent_pipes: pipe.close()`. */
    method ClosePipes() returns (r: Result<()>)
      requires Valid()
      modifies this`pipes
      ensures Valid()
      ensures r.Err? <==> exists i :: 0 <= i < numEnvs && old(pipes)[i].Gone?
      ensures r.Err? ==> r.error == AttributeErr
      ensures r.Ok? ==> forall i :: 0 <= i < numEnvs ==>
        (old(pipes)[i].Pipe? && pipes[i] == old(pipes)[i].(isOpen := false))
      ensures r.Err? ==>
        exists e ::
          && 0 <= e < numEnvs && old(pipes)[e].Gone?
          && (forall j :: 0 <= j < e ==> old(pipes)[j].Pipe? && pipes[j] == old(pipes)[j].(isOpen := false))
          && (forall j :: e <= j < numEnvs ==> pipes[j] == old(pipes)[j])
    {
      var i := 0;
      while i < numEnvs
        invariant 0 <= i <= numEnvs && |pipes| == numEnvs
        invariant forall j :: 0 <= j < i ==> (old(pipes)[j].Pipe? && pipes[j] == old(pipes)[j].(isOpen := false))
        invariant forall j :: i <= j < numEnvs ==> pipes[j] == old(pipes)[j]
      {
        if pipes[i].Gone? {
          return Err(AttributeErr);
        }
        pipes := pipes[i := pipes[i].(isOpen := false)];
        i := i + 1;
      }
      return Ok(());
    }

    /** `close`: finish a pending reset, step or policy reset (any other pending call names
        no `_wait` method), then either ask every open pipe's worker to close and wait for
        its answer, or terminate the workers; then close every pipe. */
    method Close(timeout: Option<real>, terminate: bool) returns (r: Result<()>)
      requires Valid()
      modifies this
      ensures Valid()
      ensures old(closed) ==> r == Ok(()) && unchanged(this)
      ensures !old(closed) && old(state) != Default && !HasWaitMethod(old(state)) ==>
        r == Err(AttributeErr) && unchanged(this)
      ensures r.Ok? ==> closed
      ensures r.Ok? && !old(closed) ==> forall i :: 0 <= i < numEnvs ==> pipes[i].Pipe? && !pipes[i].isOpen
      ensures r.Err? ==> !closed
      ensures !old(closed) && old(state) == Default && r.Ok? ==>
        && terminated == (terminate || old(terminated))
        && forall i :: 0 <= i < numEnvs ==>
             (old(pipes)[i].Pipe? && pipes[i].sent ==
                old(pipes)[i].sent + (if !terminate && old(pipes)[i].isOpen then [Msg("close", Nil)] else []))
      ensures !old(closed) && old(state) == Default && (exists i :: 0 <= i < numEnvs && old(pipes)[i].Gone?) ==>
        r == Err(AttributeErr)
      ensures var p := old(PreludeFor(state, if terminate then Some(0.0) else timeout));
        !old(closed) && old(state) != Default && HasWaitMethod(old(state)) && p.err.Some? ==>
          if p.err == Some(Timeout) then terminated
          else r == Err(p.err.value) && !closed && terminated == old(terminated)
    {
      if closed {
        return Ok(());
      }
      var term := terminate;
      if state != Default {
        var err;
        err, term := FinishPending(timeout, terminate);
        if err.Some? {
          return Err(err.value);
        }
      }
      if term {
        terminated := true;
      } else {
        r := AskWorkersToClose();
        if r.Err? {
          return;
        }
      }
      r := ClosePipes();
      if r.Ok? {
        closed := true;
      }
    }

    /** `get_visuals`: `get_visuals_async` then `get_visuals_wait` without a timeout. */
    method GetVisuals() returns (r: Result<map<string, Value>>)
      requires Valid()
      modifies this`state, this`pipes, this`errorQueue
      ensures Valid()
      ensures old(closed) ==> r == Err(ClosedEnvironment)
      ensures !old(closed) && FirstUnsendable(old(pipes), numEnvs) < numEnvs ==>
        r == Err(SendError(old(pipes)[FirstUnsendable(old(pipes), numEnvs)]))
      ensures r.Ok? ==> state == Default
    {
      var started := GetVisualsAsync();
      if started.Err? {
        return Err(started.error);
      }
      r := GetVisualsWait(None);
    }

    /** `setup_motion_planner_policies`. */
    method SetupMotionPlannerPolicies(horizon: Value) returns (r: Result<seq<Value>>)
      requires Valid()
      modifies this`state, this`pipes, this`errorQueue
      ensures Valid()
      ensures old(closed) ==> r == Err(ClosedEnvironment)
      ensures !old(closed) && old(state) != Default ==> r == Err(AlreadyPendingCall(old(state))) && state == old(state)
      ensures r.Ok? ==> state == Default && |r.value| == numEnvs
    {
      var started := SetupMotionPlannerPoliciesAsync(horizon);
      if started.Err? {
        return Err(started.error);
      }
      r := SetupMotionPlannerPoliciesWait(None);
    }

    /** `policy_reset_env`. */
    method PolicyResetEnv() returns (r: Result<seq<Value>>)
      requires Valid()
      modifies this`state, this`pipes, this`errorQueue
      ensures Valid()
      ensures old(closed) ==> r == Err(ClosedEnvironment)
      ensures !old(closed) && old(state) != Default ==> r == Err(AlreadyPendingCall(old(state))) && state == old(state)
      ensures r.Ok? ==> state == Default && |r.value| == numEnvs
    {
      var started := PolicyResetEnvAsync();
      if started.Err? {
        return Err(started.error);
      }
      r := PolicyResetEnvWait(None);
    }

    /** `get_policy_action`. */
    method GetPolicyAction(obs: Value, command: seq<Value>, norm: bool) returns (r: Result<PolicyActions>)
      requires Valid()
      modifies this`state, this`pipes, this`errorQueue
      ensures Valid()
      ensures old(closed) ==> r == Err(ClosedEnvironment)
      ensures !old(closed) && old(state) != Default ==> r == Err(AlreadyPendingCall(old(state))) && state == old(state)
      ensures r.Ok? ==> state == Default
    {
      var started := GetPolicyActionAsync(obs, command, norm);
      if started.Err? {
        return Err(started.error);
      }
      r := GetPolicyActionWait(None);
    }

    /** `get_policy_done_subtasks`. */
    method GetPolicyDoneSubtasks() returns (r: Result<seq<Value>>)
      requires Valid()
      modifies this`state, this`pipes, this`errorQueue
      ensures Valid()
      ensures old(closed) ==> r == Err(ClosedEnvironment)
      ensures !old(closed) && old(state) != Default ==> r == Err(AlreadyPendingCall(old(state))) && state == old(state)
      ensures r.Ok? ==> state == Default && |r.value| == numEnvs
    {
      var started := GetPolicyDoneSubtasksAsync();
      if started.Err? {
        return Err(started.error);
      }
      r := GetPolicyDoneSubtasksWait(None);
    }
  }

  /** `AsyncVectorEnv(env_fns, observation_space, ...)`: start the workers, then
      `_check_observation_spaces`, which makes construction fail with RuntimeError when
      some worker's observation space (`workerSpaces[i]`) differs from `space`. */
  method Open(numEnvs: nat, sharedMemory: bool, maxAgentsPerEnv: nat, space: Value, workerSpaces: seq<Value>)
    returns (r: Result<AsyncVectorEnv>)
    requires |workerSpaces| == numEnvs
    ensures r.Ok? <==> forall i :: 0 <= i < numEnvs ==> workerSpaces[i] == space
    ensures r.Err? ==> r.error == RuntimeErr
    ensures r.Ok? ==> var env := r.value;
      && fresh(env) && env.Valid()
      && env.numEnvs == numEnvs && env.sharedMemory == sharedMemory && env.maxAgentsPerEnv == maxAgentsPerEnv
      && env.state == Default && !env.closed && env.errorQueue == [] && !env.terminated
      && env.pipes == seq(numEnvs, _ => Pipe(true, [Msg("_check_observation_space", space)], []))
  {
    var env := new AsyncVectorEnv(numEnvs, sharedMemory, maxAgentsPerEnv);
    var checked := env.CheckObservationSpaces(space, workerSpaces);
    if checked.Err? {
      return Err(checked.error);
    }
    assert env.pipes == seq(numEnvs, _ => Pipe(true, [Msg("_check_observation_space", space)], [])) by {
      forall i | 0 <= i < numEnvs
        ensures env.pipes[i] == Pipe(true, [Msg("_check_observation_space", space)], [])
      {
      }
    }
    return Ok(env);
  }

}
