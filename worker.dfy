/** The worker process loop (`_worker` and `_worker_shared_memory`): it owns one
    sub-environment, serves the commands arriving on its pipe one at a time and
    answers each with exactly one reply. The sub-environment is a foreign object:
    it is the function `call`, which maps the environment's state, a method name
    and the argument tuple to what the call returned or raised. */
module Worker {
  import opened Values
  import opened Protocol

  /** What a call into the sub-environment did. */
  datatype Outcome<S> = Returned(env: S, v: Value) | Raised(exc: Exc)

  /** What serving one command does. */
  datatype Step<S> =
    | Reply(env: S, reply: Value, write: Option<Value>)  // keep serving; `write` goes to the shared slot
    | Exit                                               // `close`: reply None and leave the loop
    | Fail(exc: Exc)                                     // an exception: queue it, reply None, leave the loop

  /** What the worker has done so far. */
  datatype Trace<S> = Trace(
    env: S,
    replies: seq<Value>,         // everything sent back on the pipe, in order
    errors: seq<ErrorRecord>,    // everything put on the shared error queue
    slot: Option<Value>,         // this worker's slot of the shared observation buffer
    running: bool,               // still inside `while True`
    received: nat)               // commands taken off the pipe

  function Start<S>(env: S): Trace<S>
  {
    Trace(env, [], [], None, true, 0)
  }

  /** The commands the dispatch chain recognises; `visual` is recognised only to raise. */
  predicate Known(command: string)
  {
    command in {"reset", "step", "visuals", "visual", "led_on", "led_off",
                "setup_motion_planner_policies", "policy_reset_env",
                "policy_reset_env_single", "get_policy_action",
                "get_policy_done_subtasks", "seed", "close", "_check_observation_space"}
  }

  /** Why `a, b, c, d = v` fails, if it does (strings and dicts are not unpacked in this model). */
  function UnpackError(v: Value, n: nat): Option<Exc>
  {
    match v
    case List(items) => if |items| == n then None else Some(Exc("ValueError", "wrong number of values to unpack"))
    case Tuple(items) => if |items| == n then None else Some(Exc("ValueError", "wrong number of values to unpack"))
    case _ => Some(Exc("TypeError", "cannot unpack non-iterable object"))
  }

  /** A sub-environment method whose return value is sent back as it is. */
  function Forward<S>(call: (S, string, Value) -> Outcome<S>, env: S, name: string, args: seq<Value>): Step<S>
  {
    match call(env, name, Tuple(args))
    case Raised(e) => Fail(e)
    case Returned(env1, v) => Reply(env1, v, None)
  }

  /** The reply to `step`: in shared-memory mode the observation goes to the slot and None takes its place. */
  function StepReply<S>(sharedMemory: bool, env: S, obs: Value, reward: Value, done: Value, info: Value): Step<S>
  {
    if sharedMemory then Reply(env, Tuple([Nil, reward, done, info]), Some(obs))
    else Reply(env, Tuple([obs, reward, done, info]), None)
  }

  /** The text of the RuntimeError for an unrecognised command; the shared-memory worker's
      list of commands leaves out `visuals`. */
  function UnknownCommandMessage(sharedMemory: bool, command: string): string
  {
    "Received unknown command `" + command + "`. Must be one of {`reset`, `step`, "
    + (if sharedMemory then "" else "`visuals`, ")
    + "`seed`, `close`, `_check_observation_space`}."
  }

  /** One pass through the `if command == ...` chain. */
  function Dispatch<S>(sharedMemory: bool, call: (S, string, Value) -> Outcome<S>, space: Value, env: S, m: Msg): (st: Step<S>)
    ensures st.Exit? <==> m.command == "close"
    ensures !Known(m.command) ==> st == Fail(Exc("RuntimeError", UnknownCommandMessage(sharedMemory, m.command)))
    ensures m.command == "visual" ==> st.Fail? && st.exc.typeName == "NotImplementedError"
    ensures m.command == "_check_observation_space" ==> st == Reply(env, Bool(m.data == space), None)
    ensures st.Reply? && st.write.Some? ==> sharedMemory && (m.command == "reset" || m.command == "step")
  {
    var data := m.data;
    if m.command == "reset" then
      match call(env, "reset", Tuple([]))
      case Raised(e) => Fail(e)
      case Returned(env1, obs) =>
        if sharedMemory then Reply(env1, Nil, Some(obs)) else Reply(env1, obs, None)
    else if m.command == "step" then
      match call(env, "step", Tuple([data]))
      case Raised(e) => Fail(e)
      case Returned(env1, result) =>
        if UnpackError(result, 4).Some? then Fail(UnpackError(result, 4).value)
        else
          var obs, reward, done, info := result.items[0], result.items[1], result.items[2], result.items[3];
          if Truthy(done) then
            match call(env1, "reset", Tuple([]))
            case Raised(e) => Fail(e)
            case Returned(env2, obs2) => StepReply(sharedMemory, env2, obs2, reward, done, info)
          else StepReply(sharedMemory, env1, obs, reward, done, info)
    else if m.command == "visuals" then Forward(call, env, "get_visuals", [])
    else if m.command == "visual" then Fail(Exc("NotImplementedError", "Async query of sub envs visual not implemented yet !"))
    else if m.command == "led_on" then Forward(call, env, "status_led_on", [data])
    else if m.command == "led_off" then Forward(call, env, "status_led_off", [data])
    else if m.command == "setup_motion_planner_policies" then Forward(call, env, "setup_motion_planner_policies", [data])
    else if m.command == "policy_reset_env" then Forward(call, env, "policy_reset_env", [])
    else if m.command == "policy_reset_env_single" then Forward(call, env, "policy_reset_env_single", [data])
    else if m.command == "get_policy_action" then
      (match data
       case Tuple(args) => Forward(call, env, "get_policy_action", args)
       case List(args) => Forward(call, env, "get_policy_action", args)
       case _ => Fail(Exc("TypeError", "argument after * must be an iterable")))
    else if m.command == "get_policy_done_subtasks" then Forward(call, env, "get_policy_done_subtasks", [])
    else if m.command == "seed" then
      (match call(env, "seed", Tuple([data]))
       case Raised(e) => Fail(e)
       case Returned(env1, _) => Reply(env1, Nil, None))
    else if m.command == "close" then Exit
    else if m.command == "_check_observation_space" then Reply(env, Bool(data == space), None)
    else Fail(Exc("RuntimeError", UnknownCommandMessage(sharedMemory, m.command)))
  }

  /** The effect of one served command on the trace; every path sends exactly one reply. */
  function Apply<S>(index: nat, t: Trace<S>, st: Step<S>): Trace<S>
  {
    match st
    case Reply(env1, reply, write) =>
      t.(env := env1, replies := t.replies + [reply],
         slot := if write.Some? then write else t.slot, received := t.received + 1)
    case Exit =>
      t.(replies := t.replies + [Nil], running := false, received := t.received + 1)
    case Fail(e) =>
      t.(replies := t.replies + [Nil], errors := t.errors + [ErrorRecord(index, e)],
         running := false, received := t.received + 1)
  }

  /** The loop over the command stream, as a specification: serve until the loop is left or no command is left. */
  function Serve<S>(index: nat, sharedMemory: bool, call: (S, string, Value) -> Outcome<S>, space: Value,
                    t: Trace<S>, cmds: seq<Msg>): (r: Trace<S>)
    ensures !t.running || cmds == [] ==> r == t
    ensures t.running && cmds != [] ==> t.received < r.received
    ensures |t.errors| <= |r.errors| && r.errors[..|t.errors|] == t.errors
    decreases |cmds|
  {
    if !t.running || cmds == [] then t
    else Serve(index, sharedMemory, call, space,
               Apply(index, t, Dispatch(sharedMemory, call, space, t.env, cmds[0])), cmds[1..])
  }

  /** The worker loop: takes commands off the pipe until `close` or an exception ends it. */
  method RunWorker<S>(index: nat, sharedMemory: bool, call: (S, string, Value) -> Outcome<S>, space: Value,
                      env: S, cmds: seq<Msg>) returns (t: Trace<S>)
    ensures t == Serve(index, sharedMemory, call, space, Start(env), cmds)
    ensures t.received <= |cmds| && |t.replies| == t.received
  {
    t := Start(env);
    var i := 0;
    while i < |cmds| && t.running
      invariant 0 <= i <= |cmds| && t.received == i && |t.replies| == i
      invariant Serve(index, sharedMemory, call, space, t, cmds[i..])
             == Serve(index, sharedMemory, call, space, Start(env), cmds)
    {
      var m := cmds[i];
      var st := Dispatch(sharedMemory, call, space, t.env, m);
      t := Apply(index, t, st);
      i := i + 1;
    }
  }

  /** Every command taken off the pipe gets exactly one reply; the loop only stops
      early by leaving it, and then it has taken the command that made it leave. */
  lemma {:induction false} OneReplyPerCommand<S>(index: nat, sharedMemory: bool, call: (S, string, Value) -> Outcome<S>,
                                                  space: Value, t: Trace<S>, cmds: seq<Msg>)
    ensures var r := Serve(index, sharedMemory, call, space, t, cmds);
      && |r.replies| - |t.replies| == r.received - t.received
      && t.received <= r.received <= t.received + |cmds|
      && r.replies[..|t.replies|] == t.replies
      && (r.running ==> r.received == t.received + |cmds|)
    decreases |cmds|
  {
    if t.running && cmds != [] {
      var t1 := Apply(index, t, Dispatch(sharedMemory, call, space, t.env, cmds[0]));
      OneReplyPerCommand(index, sharedMemory, call, space, t1, cmds[1..]);
      var r := Serve(index, sharedMemory, call, space, t1, cmds[1..]);
      assert r.replies[..|t.replies|] == r.replies[..|t1.replies|][..|t.replies|];
    }
  }

  /** A worker reports at most one error, always under its own index, and only as it leaves the loop. */
  lemma {:induction false} AtMostOneError<S>(index: nat, sharedMemory: bool, call: (S, string, Value) -> Outcome<S>,
                                              space: Value, t: Trace<S>, cmds: seq<Msg>)
    requires t.running && t.errors == []
    ensures var r := Serve(index, sharedMemory, call, space, t, cmds);
      && |r.errors| <= 1
      && (r.errors != [] ==> !r.running && r.errors[0].index == index)
    decreases |cmds|
  {
    if cmds != [] {
      var st := Dispatch(sharedMemory, call, space, t.env, cmds[0]);
      var t1 := Apply(index, t, st);
      if st.Reply? {
        AtMostOneError(index, sharedMemory, call, space, t1, cmds[1..]);
      }
    }
  }

  /** `close` is answered with None and ends the loop: nothing after it is read. */
  lemma CloseEndsLoop<S>(index: nat, sharedMemory: bool, call: (S, string, Value) -> Outcome<S>, space: Value,
                         t: Trace<S>, data: Value, rest: seq<Msg>)
    requires t.running
    ensures var r := Serve(index, sharedMemory, call, space, t, [Msg("close", data)] + rest);
      && r.replies == t.replies + [Nil] && r.errors == t.errors
      && !r.running && r.received == t.received + 1 && r.env == t.env
  {
    var cmds := [Msg("close", data)] + rest;
    assert cmds[0] == Msg("close", data) && cmds[1..] == rest;
  }

  /** An unrecognised command puts `(index, RuntimeError, ...)` on the error queue,
      still sends a None reply, and ends the loop. */
  lemma UnknownCommandFails<S>(index: nat, sharedMemory: bool, call: (S, string, Value) -> Outcome<S>, space: Value,
                               t: Trace<S>, m: Msg, rest: seq<Msg>)
    requires t.running && !Known(m.command)
    ensures var r := Serve(index, sharedMemory, call, space, t, [m] + rest);
      && r.replies == t.replies + [Nil]
      && |r.errors| == |t.errors| + 1
      && r.errors[|t.errors|].index == index && r.errors[|t.errors|].exc.typeName == "RuntimeError"
      && !r.running && r.received == t.received + 1
  {
    var cmds := [m] + rest;
    assert cmds[0] == m && cmds[1..] == rest;
  }

  /** The commands the coordinator sends and then receives without looking at the
      answer (`seed`, `close`, `get_single_visuals`) are always answered with None,
      whether the sub-environment call succeeds or raises. */
  lemma NoneAnswers<S>(index: nat, sharedMemory: bool, call: (S, string, Value) -> Outcome<S>, space: Value,
                       t: Trace<S>, m: Msg)
    requires m.command == "seed" || m.command == "close" || !Known(m.command)
    ensures Apply(index, t, Dispatch(sharedMemory, call, space, t.env, m)).replies == t.replies + [Nil]
  {
  }

  /** Auto-reset on `done`: the reply carries the observation of the reset that
      follows, with the reward, done flag and info of the terminal step
      (None in place of the observation in shared-memory mode, where it goes to the slot). */
  lemma StepDoneAutoResets<S>(sharedMemory: bool, call: (S, string, Value) -> Outcome<S>, space: Value,
                              env: S, action: Value, env1: S, obs: Value, reward: Value, done: Value, info: Value,
                              env2: S, obs2: Value)
    requires call(env, "step", Tuple([action])) == Returned(env1, Tuple([obs, reward, done, info]))
    requires Truthy(done)
    requires call(env1, "reset", Tuple([])) == Returned(env2, obs2)
    ensures var st := Dispatch(sharedMemory, call, space, env, Msg("step", action));
      && st.Reply? && st.env == env2
      && st.reply == Tuple([if sharedMemory then Nil else obs2, reward, done, info])
      && st.write == (if sharedMemory then Some(obs2) else None)
  {
  }
}
