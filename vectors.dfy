/** One-dimensional numpy operations the EEG decoders use, over `real`. */
module Vectors {
  import opened Values

  /** `np.pad(v, (0, n - len(v)))` when `v` is shorter than `n`, `v[:n]` when it is longer. */
  function PadOrTruncate(v: seq<real>, n: nat): (r: seq<real>)
    ensures |r| == n
    ensures forall i :: 0 <= i < n && i < |v| ==> r[i] == v[i]
    ensures forall i :: |v| <= i < n ==> r[i] == 0.0
  {
    if |v| < n then v + seq(n - |v|, _ => 0.0)
    else v[..n]
  }

  /** `np.argmax(v)`: the first index of the maximum. */
  function ArgMax(v: seq<real>): (k: nat)
    requires |v| > 0
    ensures k < |v|
    ensures forall i :: 0 <= i < |v| ==> v[i] <= v[k]
    ensures forall i :: 0 <= i < k ==> v[i] < v[k]
    decreases |v|
  {
    if |v| == 1 then 0
    else
      var k := ArgMax(v[..|v| - 1]);
      if v[|v| - 1] > v[k] then |v| - 1 else k
  }

  datatype Op = Sub | Div

  predicate NonZero(v: seq<real>)
  {
    forall i :: 0 <= i < |v| ==> v[i] != 0.0
  }

  function Apply(op: Op, x: real, y: real): real
    requires op.Div? ==> y != 0.0
  {
    match op
    case Sub => x - y
    case Div => x / y
  }

  /** `a - b` or `a / b` on one-dimensional arrays: equal lengths pair up, a length-1
      operand is repeated, any other mismatch raises ValueError. */
  function Broadcast(a: seq<real>, b: seq<real>, op: Op): (r: Outcome<seq<real>>)
    requires op.Div? ==> NonZero(b)
    ensures r.Done? <==> |a| == |b| || |a| == 1 || |b| == 1
    ensures r.Done? ==> |r.value| == (if |a| == |b| || |b| == 1 then |a| else |b|)
    ensures r.Done? ==> forall i :: 0 <= i < |r.value| ==>
      r.value[i] == Apply(op, a[if |a| == 1 then 0 else i], b[if |b| == 1 then 0 else i])
  {
    if |a| == |b| || |a| == 1 || |b| == 1 then
      var n := if |a| == |b| || |b| == 1 then |a| else |b|;
      Done(seq(n, i requires 0 <= i < n => Apply(op, a[if |a| == 1 then 0 else i], b[if |b| == 1 then 0 else i])))
    else Raised("ValueError")
  }

  /** `v / t` for a scalar `t`. */
  function Scale(v: seq<real>, t: real): (r: seq<real>)
    requires t != 0.0
    ensures |r| == |v| && forall i :: 0 <= i < |v| ==> r[i] == v[i] / t
  {
    seq(|v|, i requires 0 <= i < |v| => v[i] / t)
  }

  /** `np.maximum(v, 0)`. */
  function ClipNegative(v: seq<real>): (r: seq<real>)
    ensures |r| == |v|
    ensures forall i :: 0 <= i < |v| ==> r[i] >= 0.0 && (v[i] >= 0.0 ==> r[i] == v[i]) && (v[i] < 0.0 ==> r[i] == 0.0)
  {
    seq(|v|, i requires 0 <= i < |v| => if v[i] < 0.0 then 0.0 else v[i])
  }
}
