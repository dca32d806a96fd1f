/** The EEG threshold classifiers. Each call turns an RMS vector into per-class
    likelihoods, emits the most likely class when its likelihood reaches 1, and keeps a
    latch flag per class so that an emitted class is not emitted again until its
    likelihood has fallen below `1 - flag_reset_margin`. The RMS computation itself is
    an input. */
module ThresholdModels {
  import opened Values
  import opened Vectors

  /** What a call returns: the emitted class, if any, and the likelihood vector. */
  datatype Decision = Decision(cls: Option<nat>, likelihoods: seq<real>)

  const FlagResetMargin: real := 0.2

  /** The class the latch emits for `likelihoods`: the first maximum, unless it is below 1
      or its flag is still set. */
  function Decide(flags: seq<bool>, likelihoods: seq<real>): (cls: Option<nat>)
    requires |likelihoods| == |flags| > 0
    ensures cls.Some? ==> cls.value < |flags|
    ensures cls.Some? <==> likelihoods[ArgMax(likelihoods)] >= 1.0 && !flags[ArgMax(likelihoods)]
    ensures cls.Some? ==> cls.value == ArgMax(likelihoods)
  {
    var m := ArgMax(likelihoods);
    if likelihoods[m] < 1.0 || flags[m] then None else Some(m)
  }

  /** The flags after a call: the emitted class is set, then every class whose likelihood is
      below `1 - margin` is cleared; nothing else changes. */
  function NextFlags(flags: seq<bool>, likelihoods: seq<real>): (r: seq<bool>)
    requires |likelihoods| == |flags| > 0
    ensures |r| == |flags|
    ensures forall i :: 0 <= i < |flags| ==>
      r[i] == if likelihoods[i] < 1.0 - FlagResetMargin then false
              else if Decide(flags, likelihoods) == Some(i) then true
              else flags[i]
  {
    var d := Decide(flags, likelihoods);
    seq(|flags|, i requires 0 <= i < |flags| =>
      if likelihoods[i] < 1.0 - FlagResetMargin then false else if d == Some(i) then true else flags[i])
  }

  /** The decision and flag update of `__call__`, in the source's order: set the emitted
      class's flag, then clear flags in a loop over the classes. */
  method Latch(flags: seq<bool>, likelihoods: seq<real>) returns (cls: Option<nat>, next: seq<bool>)
    requires |likelihoods| == |flags| > 0
    ensures cls == Decide(flags, likelihoods) && next == NextFlags(flags, likelihoods)
  {
    var m := ArgMax(likelihoods);
    next := flags;
    if likelihoods[m] < 1.0 || flags[m] {
      cls := None;
    } else {
      cls := Some(m);
      next := next[m := true];
    }
    ghost var decided := next;
    var i := 0;
    while i < |flags|
      invariant 0 <= i <= |flags| && |next| == |flags|
      invariant forall j :: 0 <= j < i ==> next[j] == NextFlags(flags, likelihoods)[j]
      invariant forall j :: i <= j < |flags| ==> next[j] == decided[j]
    {
      if likelihoods[i] < 1.0 - FlagResetMargin {
        next := next[i := false];
      }
      i := i + 1;
    }
  }

  /** The flags after a series of calls with the given likelihood vectors. */
  function FlagsAfter(flags: seq<bool>, calls: seq<seq<real>>): (r: seq<bool>)
    requires |flags| > 0 && forall t :: 0 <= t < |calls| ==> |calls[t]| == |flags|
    ensures |r| == |flags|
    decreases |calls|
  {
    if calls == [] then flags else FlagsAfter(NextFlags(flags, calls[0]), calls[1..])
  }

  /** A set flag survives every call in which its class's likelihood stays at or above
      `1 - margin`, and while it is set the class is not emitted. */
  lemma {:induction false} LatchHolds(flags: seq<bool>, calls: seq<seq<real>>, c: nat)
    requires |flags| > 0 && forall t :: 0 <= t < |calls| ==> |calls[t]| == |flags|
    requires c < |flags| && flags[c]
    requires forall t :: 0 <= t < |calls| ==> calls[t][c] >= 1.0 - FlagResetMargin
    ensures FlagsAfter(flags, calls)[c]
    decreases |calls|
  {
    if calls != [] {
      var next := NextFlags(flags, calls[0]);
      assert next[c];
      LatchHolds(next, calls[1..], c);
    }
  }

  /** A class that has been emitted is not emitted again until a later call sees its
      likelihood below `1 - margin`: if every call between the emission and call `u`
      keeps it at or above that level, call `u` does not emit it. */
  lemma NotEmittedAgain(flags: seq<bool>, calls: seq<seq<real>>, c: nat, u: nat)
    requires |flags| > 0 && forall t :: 0 <= t < |calls| ==> |calls[t]| == |flags|
    requires 0 < u < |calls|
    requires Decide(flags, calls[0]) == Some(c)
    requires forall t :: 1 <= t < u ==> calls[t][c] >= 1.0 - FlagResetMargin
    ensures Decide(FlagsAfter(flags, calls[..u]), calls[u]) != Some(c)
  {
    var next := NextFlags(flags, calls[0]);
    assert next[c];
    var prefix, middle := calls[..u], calls[1..u];
    assert forall t :: 0 <= t < |middle| ==> middle[t] == calls[t + 1];
    LatchHolds(next, middle, c);
    assert prefix[0] == calls[0] && prefix[1..] == middle;
    assert FlagsAfter(flags, prefix) == FlagsAfter(next, middle);
  }

  /** The likelihoods of `ThresholdModel`: RMS over baseline RMS, padded or truncated to
      the number of classes, over the threshold. */
  function RatioLikelihoods(rms: seq<real>, baselineRms: seq<real>, numClasses: nat, thres: real): (r: Outcome<seq<real>>)
    requires NonZero(baselineRms) && thres > 0.0
    ensures r.Done? <==> Broadcast(rms, baselineRms, Div).Done?
    ensures r.Done? ==> |r.value| == numClasses
    ensures r.Done? ==> var ratio := Broadcast(rms, baselineRms, Div).value;
      forall i :: 0 <= i < numClasses ==> r.value[i] == (if i < |ratio| then ratio[i] / thres else 0.0)
  {
    match Broadcast(rms, baselineRms, Div)
    case Raised(e) => Raised(e)
    case Done(ratio) => Done(Scale(PadOrTruncate(ratio, numClasses), thres))
  }

  /** The likelihoods of `ThresholdDiffModel`: the change of RMS since the previous call
      over baseline RMS, padded or truncated, negative values clipped to 0, over the
      threshold. */
  function DiffLikelihoods(rms: seq<real>, prevRms: seq<real>, baselineRms: seq<real>, numClasses: nat, thres: real): (r: Outcome<seq<real>>)
    requires NonZero(baselineRms) && thres > 0.0
    ensures r.Done? ==> |r.value| == numClasses
    ensures r.Done? ==> forall i :: 0 <= i < numClasses ==> r.value[i] >= 0.0
  {
    match Broadcast(rms, prevRms, Sub)
    case Raised(e) => Raised(e)
    case Done(diff) =>
      match Broadcast(diff, baselineRms, Div)
      case Raised(e) => Raised(e)
      case Done(ratioDiff) => Done(Scale(ClipNegative(PadOrTruncate(ratioDiff, numClasses)), thres))
  }

  /** The likelihoods of the difference model are exactly the clipped, scaled rises: a
      class whose RMS did not rise gets 0, the others their rise over the baseline. */
  lemma DiffLikelihoodsValues(rms: seq<real>, prevRms: seq<real>, baselineRms: seq<real>, numClasses: nat, thres: real)
    requires Positive(baselineRms) && thres > 0.0
    requires |rms| == |prevRms| == |baselineRms| == numClasses
    ensures NonZero(baselineRms)
    ensures var r := DiffLikelihoods(rms, prevRms, baselineRms, numClasses, thres);
      && r.Done?
      && forall i :: 0 <= i < numClasses ==>
           r.value[i] == (if rms[i] <= prevRms[i] then 0.0 else (rms[i] - prevRms[i]) / baselineRms[i] / thres)
  {
    var r := DiffLikelihoods(rms, prevRms, baselineRms, numClasses, thres);
    var diff := Broadcast(rms, prevRms, Sub).value;
    var ratioDiff := Broadcast(diff, baselineRms, Div).value;
    forall i | 0 <= i < numClasses
      ensures r.value[i] == (if rms[i] <= prevRms[i] then 0.0 else (rms[i] - prevRms[i]) / baselineRms[i] / thres)
    {
      assert diff[i] == rms[i] - prevRms[i];
      assert ratioDiff[i] == diff[i] / baselineRms[i];
      DivSign(diff[i], baselineRms[i]);
    }
  }

  /** Where entry `i` of a broadcast result reads an operand of length `len`. */
  function Bi(len: nat, i: nat): nat
  {
    if len == 1 then 0 else i
  }

  /** The length numpy gives `a op b` for operands of lengths `m` and `n` it accepts. */
  function BroadcastLength(m: nat, n: nat): nat
  {
    if m == n || n == 1 then m else n
  }

  predicate Compatible(m: nat, n: nat)
  {
    m == n || m == 1 || n == 1
  }

  /** The difference model for operands of any lengths: it raises ValueError exactly when
      numpy cannot broadcast `rms - prev_rms` or that over `baseline_rms`; otherwise class `i`
      gets its clipped, scaled rise (operands of length 1 repeated), and 0 past the end of
      the broadcast result. */
  lemma DiffLikelihoodsBroadcast(rms: seq<real>, prevRms: seq<real>, baselineRms: seq<real>, numClasses: nat, thres: real)
    requires Positive(baselineRms) && thres > 0.0
    ensures NonZero(baselineRms)
    ensures var r := DiffLikelihoods(rms, prevRms, baselineRms, numClasses, thres);
      var n := BroadcastLength(|rms|, |prevRms|);
      && (r.Done? <==> Compatible(|rms|, |prevRms|) && Compatible(n, |baselineRms|))
      && (r.Raised? ==> r.exception == "ValueError")
      && (r.Done? ==> forall i :: 0 <= i < numClasses ==>
            r.value[i] ==
              if i >= BroadcastLength(n, |baselineRms|) then 0.0
              else
                var rise := rms[Bi(|rms|, i)] - prevRms[Bi(|prevRms|, i)];
                if rise <= 0.0 then 0.0 else rise / baselineRms[Bi(|baselineRms|, i)] / thres)
  {
    var r := DiffLikelihoods(rms, prevRms, baselineRms, numClasses, thres);
    var d := Broadcast(rms, prevRms, Sub);
    if d.Done? {
      var diff := d.value;
      var n := |diff|;
      var q := Broadcast(diff, baselineRms, Div);
      if q.Done? {
        var ratioDiff := q.value;
        forall i | 0 <= i < numClasses
          ensures r.value[i] ==
            if i >= BroadcastLength(n, |baselineRms|) then 0.0
            else
              var rise := rms[Bi(|rms|, i)] - prevRms[Bi(|prevRms|, i)];
              if rise <= 0.0 then 0.0 else rise / baselineRms[Bi(|baselineRms|, i)] / thres
        {
          if i < |ratioDiff| {
            var j := Bi(n, i);
            assert ratioDiff[i] == diff[j] / baselineRms[Bi(|baselineRms|, i)];
            assert diff[j] == rms[Bi(|rms|, i)] - prevRms[Bi(|prevRms|, i)];
            DivSign(diff[j], baselineRms[Bi(|baselineRms|, i)]);
          }
        }
      }
    }
  }

  lemma DivSign(x: real, y: real)
    requires y > 0.0
    ensures x < 0.0 <==> x / y < 0.0
    ensures x == 0.0 ==> x / y == 0.0
  {
    assert x / y * y == x;
  }

  function Ones(n: nat): (r: seq<real>)
    ensures |r| == n && Positive(r)
  {
    seq(n, _ => 1.0)
  }

  predicate Positive(v: seq<real>)
  {
    forall i :: 0 <= i < |v| ==> v[i] > 0.0
  }

  /** `ThresholdModel`. */
  class ThresholdModel {
    const numClasses: nat
    const thres: real
    const baselineRms: seq<real>
    var flags: seq<bool>

    ghost predicate Valid()
      reads this
    {
      |flags| == numClasses && thres > 0.0 && Positive(baselineRms) && NonZero(baselineRms)
    }

    /** Without a baseline, the baseline RMS is a vector of ones; all flags start cleared. */
    constructor (numClasses: nat, thres: real, baselineRms: Option<seq<real>>)
      requires thres > 0.0
      requires baselineRms.Some? ==> Positive(baselineRms.value)
      ensures Valid()
      ensures this.numClasses == numClasses && this.thres == thres
      ensures this.baselineRms == if baselineRms.Some? then baselineRms.value else Ones(numClasses)
      ensures flags == seq(numClasses, _ => false)
    {
      this.numClasses := numClasses;
      this.thres := thres;
      this.baselineRms := if baselineRms.Some? then baselineRms.value else Ones(numClasses);
      flags := seq(numClasses, _ => false);
    }

    /** `__call__`: a shape mismatch with the baseline, or no classes at all (`np.argmax`
        of an empty vector), raises ValueError and leaves the flags alone. */
    method Call(rms: seq<real>) returns (r: Outcome<Decision>)
      requires Valid()
      modifies this`flags
      ensures Valid()
      ensures var lk := RatioLikelihoods(rms, baselineRms, numClasses, thres);
        && (lk.Raised? || numClasses == 0 ==> r == Raised("ValueError") && flags == old(flags))
        && (lk.Done? && numClasses > 0 ==>
              r == Done(Decision(Decide(old(flags), lk.value), lk.value)) && flags == NextFlags(old(flags), lk.value))
    {
      var lk := RatioLikelihoods(rms, baselineRms, numClasses, thres);
      if lk.Raised? || numClasses == 0 {
        return Raised("ValueError");
      }
      var cls, next := Latch(flags, lk.value);
      flags := next;
      return Done(Decision(cls, lk.value));
    }
  }

  /** `ThresholdDiffModel`: like `ThresholdModel`, on the change of RMS since the last call. */
  class ThresholdDiffModel {
    const numClasses: nat
    const thres: real
    const baselineRms: seq<real>
    var prevRms: seq<real>
    var flags: seq<bool>

    ghost predicate Valid()
      reads this
    {
      |flags| == numClasses && thres > 0.0 && Positive(baselineRms) && NonZero(baselineRms)
    }

    /** The previous RMS starts as the baseline RMS. */
    constructor (numClasses: nat, thres: real, baselineRms: Option<seq<real>>)
      requires thres > 0.0
      requires baselineRms.Some? ==> Positive(baselineRms.value)
      ensures Valid()
      ensures this.numClasses == numClasses && this.thres == thres
      ensures this.baselineRms == if baselineRms.Some? then baselineRms.value else Ones(numClasses)
      ensures prevRms == this.baselineRms
      ensures flags == seq(numClasses, _ => false)
    {
      this.numClasses := numClasses;
      this.thres := thres;
      this.baselineRms := if baselineRms.Some? then baselineRms.value else Ones(numClasses);
      prevRms := if baselineRms.Some? then baselineRms.value else Ones(numClasses);
      flags := seq(numClasses, _ => false);
    }

    /** `__call__`: the previous RMS is replaced as soon as the difference is computed,
        so even a call that then fails on `np.argmax` of no classes updates it. */
    method Call(rms: seq<real>) returns (r: Outcome<Decision>)
      requires Valid()
      modifies this`prevRms, this`flags
      ensures Valid()
      ensures var lk := DiffLikelihoods(rms, old(prevRms), baselineRms, numClasses, thres);
        && (lk.Raised? ==> r == Raised("ValueError") && flags == old(flags) && prevRms == old(prevRms))
        && (lk.Done? ==> prevRms == rms)
        && (lk.Done? && numClasses == 0 ==> r == Raised("ValueError") && flags == old(flags))
        && (lk.Done? && numClasses > 0 ==>
              r == Done(Decision(Decide(old(flags), lk.value), lk.value)) && flags == NextFlags(old(flags), lk.value))
    {
      var lk := DiffLikelihoods(rms, prevRms, baselineRms, numClasses, thres);
      if lk.Raised? {
        return Raised("ValueError");
      }
      prevRms := rms;
      if numClasses == 0 {
        return Raised("ValueError");
      }
      var cls, next := Latch(flags, lk.value);
      flags := next;
      return Done(Decision(cls, lk.value));
    }
  }
}
