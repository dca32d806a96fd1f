/** Session metrics: the interaction error-rate counter, the interaction recorder and the
    task-completion timer. Wall-clock readings are parameters; files are not written. */
module Metrics {
  import opened Values

  // ----- _compute_error_rate -------------------------------------------------------------

  /** `zip(a, b)`: pairs up to the shorter of the two lists. */
  function Zip(a: seq<Value>, b: seq<Value>): (r: seq<(Value, Value)>)
    ensures |r| == if |a| < |b| then |a| else |b|
    ensures forall i :: 0 <= i < |r| ==> r[i] == (a[i], b[i])
  {
    var n := if |a| < |b| then |a| else |b|;
    seq(n, i requires 0 <= i < n => (a[i], b[i]))
  }

  /** An interaction counts when its `isNowAcceptable` entry is truthy. */
  predicate Counted(p: (Value, Value))
  {
    Truthy(p.0)
  }

  /** A counted interaction is an error when its `hasSubtaskNotDone` entry is falsy. */
  predicate IsError(p: (Value, Value))
  {
    Truthy(p.0) && !Truthy(p.1)
  }

  /** Number of counted pairs, taken from the front. */
  function TotalCount(ps: seq<(Value, Value)>): nat
  {
    if |ps| == 0 then 0
    else TotalCount(ps[..|ps| - 1]) + (if Counted(ps[|ps| - 1]) then 1 else 0)
  }

  /** Number of erroneous pairs, taken from the front. */
  function ErrorCount(ps: seq<(Value, Value)>): nat
  {
    if |ps| == 0 then 0
    else ErrorCount(ps[..|ps| - 1]) + (if IsError(ps[|ps| - 1]) then 1 else 0)
  }

  /** The positions of the counted pairs. */
  function CountedIndices(ps: seq<(Value, Value)>): set<nat>
  {
    set i: nat | i < |ps| && Counted(ps[i])
  }

  /** The positions of the erroneous pairs. */
  function ErrorIndices(ps: seq<(Value, Value)>): set<nat>
  {
    set i: nat | i < |ps| && IsError(ps[i])
  }

  /** `_compute_error_rate`: walks the zipped lists, skips unacceptable entries, counts the
      rest and counts as errors those whose subtask is already done. */
  method ComputeErrorRate(acceptable: seq<Value>, notDone: seq<Value>)
    returns (totalCount: nat, errorCount: nat)
    ensures totalCount == |CountedIndices(Zip(acceptable, notDone))|
    ensures errorCount == |ErrorIndices(Zip(acceptable, notDone))|
    ensures errorCount <= totalCount
  {
    var ps := Zip(acceptable, notDone);
    totalCount, errorCount := 0, 0;
    var i := 0;
    while i < |ps|
      invariant 0 <= i <= |ps|
      invariant totalCount == TotalCount(ps[..i])
      invariant errorCount == ErrorCount(ps[..i])
    {
      assert ps[..i + 1][..i] == ps[..i];
      var (acc, nd) := ps[i];
      if !Truthy(acc) {
        i := i + 1;
        continue;
      }
      totalCount := totalCount + 1;
      if !Truthy(nd) {
        errorCount := errorCount + 1;
      }
      i := i + 1;
    }
    assert ps[..i] == ps;
    TotalIsCountedCardinality(ps);
    ErrorIsErrorCardinality(ps);
    ErrorsAtMostTotal(ps);
  }

  /** `totalCount` is the number of acceptable entries among the zipped pairs. */
  lemma {:induction false} TotalIsCountedCardinality(ps: seq<(Value, Value)>)
    ensures TotalCount(ps) == |CountedIndices(ps)|
    decreases |ps|
  {
    if |ps| > 0 {
      var n := |ps| - 1;
      TotalIsCountedCardinality(ps[..n]);
      var before := CountedIndices(ps[..n]);
      assert n !in before;
      if Counted(ps[n]) {
        assert CountedIndices(ps) == before + {n};
      } else {
        assert CountedIndices(ps) == before;
      }
    }
  }

  /** `errorCount` is the number of acceptable entries whose subtask is done. */
  lemma {:induction false} ErrorIsErrorCardinality(ps: seq<(Value, Value)>)
    ensures ErrorCount(ps) == |ErrorIndices(ps)|
    decreases |ps|
  {
    if |ps| > 0 {
      var n := |ps| - 1;
      ErrorIsErrorCardinality(ps[..n]);
      var before := ErrorIndices(ps[..n]);
      assert n !in before;
      if IsError(ps[n]) {
        assert ErrorIndices(ps) == before + {n};
      } else {
        assert ErrorIndices(ps) == before;
      }
    }
  }

  /** Every error is also counted. */
  lemma {:induction false} ErrorsAtMostTotal(ps: seq<(Value, Value)>)
    ensures ErrorCount(ps) <= TotalCount(ps)
    decreases |ps|
  {
    if |ps| > 0 {
      ErrorsAtMostTotal(ps[..|ps| - 1]);
    }
  }

  /** Both counts are additive over concatenation. */
  lemma {:induction false} CountsAppend(ps: seq<(Value, Value)>, qs: seq<(Value, Value)>)
    ensures TotalCount(ps + qs) == TotalCount(ps) + TotalCount(qs)
    ensures ErrorCount(ps + qs) == ErrorCount(ps) + ErrorCount(qs)
    decreases |qs|
  {
    if |qs| > 0 {
      var m := |qs| - 1;
      CountsAppend(ps, qs[..m]);
      assert (ps + qs)[..|ps + qs| - 1] == ps + qs[..m];
    } else {
      assert ps + qs == ps;
    }
  }

  /** An entry whose `isNowAcceptable` is falsy changes neither count, wherever it sits. */
  lemma UnacceptableIgnored(ps: seq<(Value, Value)>, x: (Value, Value), qs: seq<(Value, Value)>)
    requires !Truthy(x.0)
    ensures TotalCount(ps + [x] + qs) == TotalCount(ps + qs)
    ensures ErrorCount(ps + [x] + qs) == ErrorCount(ps + qs)
  {
    CountsAppend(ps + [x], qs);
    CountsAppend(ps, [x]);
    CountsAppend(ps, qs);
    assert [x][..0] == [];
  }

  /** Because of `zip`, entries of the longer list beyond the shorter one are never read. */
  lemma ZipIgnoresSurplus(a: seq<Value>, extra: seq<Value>, b: seq<Value>)
    requires |a| >= |b|
    ensures Zip(a + extra, b) == Zip(a, b)
    ensures Zip(b, a + extra) == Zip(b, a)
  {
  }

  // ----- InteractionRecorder -------------------------------------------------------------

  /** `[x[key] for x in history]`: the first record that lacks the key raises. */
  function FieldValues(history: seq<Value>, key: string): (r: Outcome<seq<Value>>)
    ensures r.Done? <==> forall i :: 0 <= i < |history| ==> HasKey(history[i], key)
    ensures r.Done? ==> (|r.value| == |history| &&
      forall i :: 0 <= i < |history| ==> r.value[i] == history[i].entries[key])
    ensures r.Raised? ==> exists i :: (0 <= i < |history| &&
      (forall j :: 0 <= j < i ==> HasKey(history[j], key)) &&
      Item(history[i], key) == Raised(r.exception))
  {
    if |history| == 0 then Done([])
    else
      var head := Item(history[0], key);
      if head.Raised? then Raised(head.exception)
      else
        var rest := FieldValues(history[1..], key);
        if rest.Raised? then
          assert forall i :: 0 < i < |history| ==> history[i] == history[1..][i - 1];
          rest
        else
          assert forall i :: 0 < i < |history| ==> history[i] == history[1..][i - 1];
          Done([head.value] + rest.value)
  }

  /** What `save_session` writes to `info.json`: the distinct usernames (the order of
      `list(set(...))` is unspecified, so a set) and the number of distinct agent ids. */
  datatype SessionInfo = SessionInfo(usernames: set<Value>, numAgents: nat)

  function Distinct(vs: seq<Value>): (s: set<Value>)
    ensures forall v :: v in s <==> v in vs
  {
    set v | v in vs
  }

  /** The counting part of `save_session`: usernames first, then agent ids; a record that
      lacks either key raises. */
  function SessionSummary(history: seq<Value>): (r: Outcome<SessionInfo>)
    ensures r.Done? <==> forall i :: 0 <= i < |history| ==>
      HasKey(history[i], "username") && HasKey(history[i], "agentId")
    ensures r.Done? ==> forall u ::
      u in r.value.usernames <==> exists i :: 0 <= i < |history| && history[i].entries["username"] == u
    ensures r.Done? ==> r.value.numAgents <= |history| && r.value.usernames == Distinct(FieldValues(history, "username").value)
    ensures r.Done? ==> r.value.numAgents == |Distinct(FieldValues(history, "agentId").value)|
  {
    var names := FieldValues(history, "username");
    if names.Raised? then Raised(names.exception)
    else
      var agents := FieldValues(history, "agentId");
      if agents.Raised? then Raised(agents.exception)
      else
        DistinctAtMostLength(agents.value);
        Done(SessionInfo(Distinct(names.value), |Distinct(agents.value)|))
  }

  /** There are never more distinct values than entries. */
  lemma {:induction false} DistinctAtMostLength(vs: seq<Value>)
    ensures |Distinct(vs)| <= |vs|
    decreases |vs|
  {
    if |vs| > 0 {
      var n := |vs| - 1;
      DistinctAtMostLength(vs[..n]);
      assert Distinct(vs) <= Distinct(vs[..n]) + {vs[n]} by {
        forall v | v in Distinct(vs)
          ensures v in Distinct(vs[..n]) + {vs[n]}
        {
          var k :| 0 <= k < |vs| && vs[k] == v;
          if k < n {
            assert vs[..n][k] == v;
          }
        }
      }
      SubsetCardinality(Distinct(vs), Distinct(vs[..n]) + {vs[n]});
    }
  }

  lemma SubsetCardinality(a: set<Value>, b: set<Value>)
    requires a <= b
    ensures |a| <= |b|
  {
    assert b == a + (b - a);
  }

  /** `InteractionRecorder`: the per-session interaction history and the registered users. */
  class InteractionRecorder {
    var history: seq<Value>
    var userinfo: map<string, Value>

    constructor ()
      ensures history == [] && userinfo == map[]
    {
      history := [];
      userinfo := map[];
    }

    /** `reset`: forgets every record and every user. */
    method Reset()
      modifies this
      ensures history == [] && userinfo == map[]
    {
      history := [];
      userinfo := map[];
    }

    /** `add_user`: registers or overwrites one user and touches nothing else. */
    method AddUser(userId: string, info: Value)
      modifies this`userinfo
      ensures userId in userinfo && userinfo[userId] == info
      ensures forall u :: u != userId ==> (u in userinfo <==> u in old(userinfo))
      ensures forall u :: u != userId && u in userinfo ==> userinfo[u] == old(userinfo)[u]
    {
      userinfo := userinfo[userId := info];
    }

    /** `record`: the assertion that the user was added fails otherwise; on success exactly
        one element is appended. */
    method Record(userId: string, data: Value) returns (r: Outcome<()>)
      modifies this`history
      ensures r.Done? <==> userId in userinfo
      ensures r.Done? ==> history == old(history) + [data]
      ensures r.Raised? ==> r.exception == "AssertionError" && history == old(history)
    {
      if userId !in userinfo {
        return Raised("AssertionError");
      }
      history := history + [data];
      return Done(());
    }

    /** The `usernames` and `numAgents` that `save_session` computes. */
    function SaveSession(): (r: Outcome<SessionInfo>)
      reads this
      ensures r.Done? ==> |r.value.usernames| <= |history| && r.value.numAgents <= |history|
      ensures r == SessionSummary(history)
    {
      var s := SessionSummary(history);
      if s.Done? then
        DistinctAtMostLength(FieldValues(history, "username").value);
        s
      else s
    }
  }

  // ----- taskCompletionTimer -------------------------------------------------------------

  /** `taskCompletionTimer`: the clock reading is passed in. */
  class TaskCompletionTimer {
    var startTime: Option<real>
    var elapsed: Option<real>

    constructor ()
      ensures startTime == None && elapsed == None
    {
      startTime := None;
      elapsed := None;
    }

    /** `start`: records the time and forgets any earlier measurement. */
    method Start(now: real)
      modifies this
      ensures startTime == Some(now) && elapsed == None
    {
      startTime := Some(now);
      elapsed := None;
    }

    /** `stop`: ValueError when never started; otherwise the time since `start`. */
    method Stop(now: real) returns (r: Outcome<()>)
      modifies this`elapsed
      ensures r.Raised? <==> startTime == None
      ensures r.Raised? ==> r.exception == "ValueError" && elapsed == old(elapsed)
      ensures r.Done? ==> elapsed == Some(now - startTime.value)
    {
      if startTime == None {
        return Raised("ValueError");
      }
      elapsed := Some(now - startTime.value);
      return Done(());
    }
  }
}
