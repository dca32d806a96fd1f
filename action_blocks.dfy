/** The per-agent action layout the environment runners share: agent `i` owns the block
    `[i*a, (i+1)*a)` of the flat action vector, where `a = action_dim // num_agents`, and the
    block of an agent whose command is 0 is zeroed before the step. */
module ActionBlocks {
  import opened Values

  /** Python's `command[i] == 0`: true for the int 0, the float 0.0 and False. */
  predicate IsZeroCommand(v: Value)
  {
    v == Int(0) || v == Real(0.0) || v == Bool(false)
  }

  /** `a_dim_per_agent`: floor division of the action dimension by the number of agents. */
  function DimPerAgent(actionDim: nat, numAgents: nat): (a: nat)
    requires numAgents > 0
    ensures a * numAgents <= actionDim < (a + 1) * numAgents
  {
    actionDim / numAgents
  }

  /** Whether position `j` lies in the block of one of the first `m` agents whose command
      is zero. */
  predicate Idle(j: nat, command: seq<Value>, a: nat, m: nat)
    requires m <= |command|
  {
    a > 0 && j / a < m && IsZeroCommand(command[j / a])
  }

  /** The action after zeroing the blocks of the first `m` agents with a zero command. */
  function Masked(action: seq<real>, command: seq<Value>, a: nat, m: nat): (r: seq<real>)
    requires m <= |command|
    ensures |r| == |action|
  {
    seq(|action|, j requires 0 <= j < |action| => if Idle(j, command, a, m) then 0.0 else action[j])
  }

  /** Position `j` belongs to block `i` exactly when `j / a == i`. */
  lemma BlockOfPosition(j: nat, a: nat, i: nat)
    requires a > 0
    ensures i * a <= j < (i + 1) * a <==> j / a == i
  {
    var q := j / a;
    assert j == q * a + j % a;
    if q < i {
      assert q * a + a <= i * a by { MulLeq(q + 1, i, a); }
    } else if q > i {
      assert (i + 1) * a <= q * a by { MulLeq(i + 1, q, a); }
    }
  }

  lemma MulLeq(x: nat, y: nat, a: nat)
    requires x <= y
    ensures x * a <= y * a
  {
  }

  /** Every position of the block of an agent with a zero command is 0. */
  lemma {:induction false} IdleBlocksZeroed(action: seq<real>, command: seq<Value>, a: nat, m: nat, i: nat, j: nat)
    requires m <= |command| && i < m && IsZeroCommand(command[i])
    requires i * a <= j < (i + 1) * a && j < |action|
    ensures Masked(action, command, a, m)[j] == 0.0
  {
    BlockOfPosition(j, a, i);
  }

  /** Positions in the block of an agent with a non-zero command keep their values. */
  lemma {:induction false} ActiveBlocksKept(action: seq<real>, command: seq<Value>, a: nat, m: nat, i: nat, j: nat)
    requires m <= |command| && i < m && !IsZeroCommand(command[i])
    requires i * a <= j < (i + 1) * a && j < |action|
    ensures Masked(action, command, a, m)[j] == action[j]
  {
    BlockOfPosition(j, a, i);
  }

  /** Positions beyond the last agent's block keep their values. */
  lemma {:induction false} TrailingKept(action: seq<real>, command: seq<Value>, a: nat, m: nat, j: nat)
    requires m <= |command| && m * a <= j < |action|
    ensures Masked(action, command, a, m)[j] == action[j]
  {
    if a > 0 && j / a < m {
      assert (j / a + 1) * a <= m * a by { MulLeq(j / a + 1, m, a); }
      BlockOfPosition(j, a, j / a);
    }
  }

  /** Zeroing is idempotent. */
  lemma MaskedIdempotent(action: seq<real>, command: seq<Value>, a: nat, m: nat)
    requires m <= |command|
    ensures Masked(Masked(action, command, a, m), command, a, m) == Masked(action, command, a, m)
  {
  }

  /** `_get_action` after the sample is drawn: for each of the first `numAgents` agents with a
      zero command, `action[i*a:(i+1)*a] = 0` (numpy clamps the slice to the array). A command
      list shorter than `numAgents` raises IndexError once the loop reaches its end, after the
      earlier blocks were zeroed. */
  method ZeroIdleBlocks(action: array<real>, command: seq<Value>, numAgents: nat, a: nat)
    returns (r: Outcome<()>)
    modifies action
    ensures r.Raised? <==> |command| < numAgents
    ensures r.Raised? ==> r.exception == "IndexError"
    ensures action[..] == Masked(old(action[..]), command, a, if |command| < numAgents then |command| else numAgents)
  {
    var m := if |command| < numAgents then |command| else numAgents;
    ghost var sample := action[..];
    var i := 0;
    while i < m
      invariant 0 <= i <= m
      invariant action[..] == Masked(sample, command, a, i)
    {
      ghost var before := action[..];
      if IsZeroCommand(command[i]) {
        var lo := if i * a < action.Length then i * a else action.Length;
        var hi := if (i + 1) * a < action.Length then (i + 1) * a else action.Length;
        forall j | lo <= j < hi {
          action[j] := 0.0;
        }
      }
      NextBlock(before, action[..], sample, command, a, i);
      i := i + 1;
    }
    if m < numAgents {
      return Raised("IndexError");
    }
    return Done(());
  }

  /** One loop step: the block of agent `i` is the only change from `i` agents to `i + 1`. */
  lemma NextBlock(before: seq<real>, after: seq<real>, sample: seq<real>, command: seq<Value>, a: nat, i: nat)
    requires i < |command| && |before| == |after| == |sample|
    requires before == Masked(sample, command, a, i)
    requires forall j :: 0 <= j < |after| ==>
      after[j] == (if IsZeroCommand(command[i]) && i * a <= j < (i + 1) * a then 0.0 else before[j])
    ensures after == Masked(sample, command, a, i + 1)
  {
    forall j | 0 <= j < |after|
      ensures after[j] == Masked(sample, command, a, i + 1)[j]
    {
      if a > 0 {
        BlockOfPosition(j, a, i);
      }
    }
  }
}

/** `EnvRunner` of the single-page app (app/env.py). */
module AppEnv {
  import opened Values
  import opened ActionBlocks

  class EnvRunner {
    const numAgents: nat
    const aDimPerAgent: nat

    /** The constructor's `a_dim_per_agent` from the action space's dimension. */
    constructor (numAgents: nat, actionDim: nat)
      requires numAgents > 0
      ensures this.numAgents == numAgents && aDimPerAgent == DimPerAgent(actionDim, numAgents)
    {
      this.numAgents := numAgents;
      aDimPerAgent := actionDim / numAgents;
    }

    /** `_get_action`, given the sampled action. */
    method GetAction(action: array<real>, command: seq<Value>) returns (r: Outcome<()>)
      modifies action
      ensures r.Raised? <==> |command| < numAgents
      ensures action[..] == Masked(old(action[..]), command, aDimPerAgent,
        if |command| < numAgents then |command| else numAgents)
    {
      r := ZeroIdleBlocks(action, command, numAgents, aDimPerAgent);
    }
  }
}

/** `EnvRunner` of the multi-agent browser routes (mabui/routes/browser.py). */
module MabuiBrowser {
  import opened Values
  import opened ActionBlocks

  class EnvRunner {
    const numAgents: nat
    const aDimPerAgent: nat

    constructor (numAgents: nat, actionDim: nat)
      requires numAgents > 0
      ensures this.numAgents == numAgents && aDimPerAgent == DimPerAgent(actionDim, numAgents)
    {
      this.numAgents := numAgents;
      aDimPerAgent := actionDim / numAgents;
    }

    method GetAction(action: array<real>, command: seq<Value>) returns (r: Outcome<()>)
      modifies action
      ensures r.Raised? <==> |command| < numAgents
      ensures action[..] == Masked(old(action[..]), command, aDimPerAgent,
        if |command| < numAgents then |command| else numAgents)
    {
      r := ZeroIdleBlocks(action, command, numAgents, aDimPerAgent);
    }
  }
}

/** `EnvProcess` of the mabmi browser routes (mabmi/routes/browser.py). */
module MabmiBrowser {
  import opened Values
  import opened ActionBlocks

  class EnvProcess {
    const numAgents: nat
    const aDimPerAgent: nat

    constructor (numAgents: nat, actionDim: nat)
      requires numAgents > 0
      ensures this.numAgents == numAgents && aDimPerAgent == DimPerAgent(actionDim, numAgents)
    {
      this.numAgents := numAgents;
      aDimPerAgent := actionDim / numAgents;
    }

    method GetAction(action: array<real>, command: seq<Value>) returns (r: Outcome<()>)
      modifies action
      ensures r.Raised? <==> |command| < numAgents
      ensures action[..] == Masked(old(action[..]), command, aDimPerAgent,
        if |command| < numAgents then |command| else numAgents)
    {
      r := ZeroIdleBlocks(action, command, numAgents, aDimPerAgent);
    }
  }
}
