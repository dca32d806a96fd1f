/** The cue-driven EEG data collection of the browser front end: every colour is cued a
    fixed number of times in a shuffled order, trials are taken from the end of the list,
    and a stop request ends the session early. The random draws of the shuffle and the
    moment a stop request is noticed are inputs. */
module DataCollection {
  import opened Values
  import ColorUtils

  /** `numTrialForEachColor`. */
  const NumTrialForEachColor: nat := 3

  // ----- generateColorIdxList ----------------------------------------------------------

  /** The list before the shuffle: `k` copies of 0, then `k` copies of 1, and so on. */
  function Repeated(numColors: nat, k: nat): (r: seq<nat>)
    ensures |r| == numColors * k
    ensures forall p :: 0 <= p < |r| ==> r[p] < numColors
  {
    if numColors == 0 then []
    else Repeated(numColors - 1, k) + Copies(k, numColors - 1)
  }

  /** `k` copies of colour index `c`: the inner loop of the fill. */
  function Copies(k: nat, c: nat): (r: seq<nat>)
    ensures |r| == k && forall p :: 0 <= p < k ==> r[p] == c
  {
    if k == 0 then [] else Copies(k - 1, c) + [c]
  }

  /** The unshuffled list is ascending. */
  lemma {:induction false} RepeatedAscending(numColors: nat, k: nat)
    ensures forall p, q :: 0 <= p <= q < |Repeated(numColors, k)| ==>
      Repeated(numColors, k)[p] <= Repeated(numColors, k)[q]
  {
    if numColors > 0 {
      RepeatedAscending(numColors - 1, k);
    }
  }

  /** The unshuffled list holds every colour index below `numColors` exactly `k` times and
      nothing else. */
  lemma {:induction false} RepeatedCounts(numColors: nat, k: nat)
    ensures forall c: nat :: multiset(Repeated(numColors, k))[c] == if c < numColors then k else 0
  {
    if numColors > 0 {
      RepeatedCounts(numColors - 1, k);
      ConstantCounts(numColors - 1, k);
      var front: seq<nat>, back: seq<nat> := Repeated(numColors - 1, k), Copies(k, numColors - 1);
      assert multiset(Repeated(numColors, k)) == multiset(front) + multiset(back);
    }
  }

  /** `k` copies of `c` hold `c` exactly `k` times and nothing else. */
  lemma {:induction false} ConstantCounts(c: nat, k: nat)
    ensures forall d: nat :: multiset(Copies(k, c))[d] == if d == c then k else 0
  {
    if k > 0 {
      ConstantCounts(c, k - 1);
    }
  }

  /** The random draws are acceptable when every `j` drawn for position `i` lies in `[0, i]`. */
  predicate ValidPicks(picks: seq<nat>, n: nat)
  {
    |picks| == n && forall i :: 0 <= i < n ==> picks[i] <= i
  }

  /** `[s[i], s[j]] = [s[j], s[i]]`. */
  function Swap(s: seq<nat>, i: nat, j: nat): (r: seq<nat>)
    requires i < |s| && j < |s|
    ensures |r| == |s| && multiset(r) == multiset(s)
  {
    s[i := s[j]][j := s[i]]
  }

  /** The swap loop from position `m - 1` down to 1, each position swapped with its draw. */
  function ShuffleBelow(s: seq<nat>, picks: seq<nat>, m: nat): (r: seq<nat>)
    requires ValidPicks(picks, |s|) && m <= |s|
    ensures |r| == |s|
    decreases m
  {
    if m <= 1 then s
    else ShuffleBelow(Swap(s, m - 1, picks[m - 1]), picks, m - 1)
  }

  /** The shuffle only reorders: the result is a permutation of its input. */
  lemma {:induction false} ShufflePermutes(s: seq<nat>, picks: seq<nat>, m: nat)
    requires ValidPicks(picks, |s|) && m <= |s|
    ensures multiset(ShuffleBelow(s, picks, m)) == multiset(s)
    decreases m
  {
    if m > 1 {
      ShufflePermutes(Swap(s, m - 1, picks[m - 1]), picks, m - 1);
    }
  }

  /** Position `m - 1` is final after its swap: the later swaps only touch lower positions. */
  lemma {:induction false} ShuffleFixesAbove(s: seq<nat>, picks: seq<nat>, m: nat, p: nat)
    requires ValidPicks(picks, |s|) && m <= |s| && m <= p < |s|
    ensures ShuffleBelow(s, picks, m)[p] == s[p]
    decreases m
  {
    if m > 1 {
      ShuffleFixesAbove(Swap(s, m - 1, picks[m - 1]), picks, m - 1, p);
    }
  }

  /** The list `generateColorIdxList` returns for the draws `picks`. */
  function ShuffledList(numColors: nat, numTrials: nat, picks: seq<nat>): (r: seq<nat>)
    requires ValidPicks(picks, numColors * numTrials)
    ensures |r| == numColors * numTrials
  {
    ShuffleBelow(Repeated(numColors, numTrials), picks, numColors * numTrials)
  }

  /** `generateColorIdxList`: fills the list colour by colour, then shuffles it in place. */
  method GenerateColorIdxList(numColors: nat, numTrials: nat, picks: seq<nat>) returns (colorIdxs: array<nat>)
    requires ValidPicks(picks, numColors * numTrials)
    ensures colorIdxs.Length == numColors * numTrials
    ensures colorIdxs[..] == ShuffledList(numColors, numTrials, picks)
  {
    var pushed: seq<nat> := [];
    var idx := 0;
    while idx < numColors
      invariant 0 <= idx <= numColors
      invariant pushed == Repeated(idx, numTrials)
    {
      var i := 0;
      while i < numTrials
        invariant 0 <= i <= numTrials
        invariant pushed == Repeated(idx, numTrials) + Copies(i, idx)
      {
        pushed := pushed + [idx];
        i := i + 1;
      }
      idx := idx + 1;
    }
    colorIdxs := new nat[|pushed|](p requires 0 <= p < |pushed| => pushed[p]);
    ghost var unshuffled := colorIdxs[..];
    assert unshuffled == pushed;
    var m := colorIdxs.Length;
    while m > 1
      invariant 0 <= m <= colorIdxs.Length
      invariant ShuffleBelow(colorIdxs[..], picks, m) == ShuffleBelow(unshuffled, picks, |unshuffled|)
    {
      var i := m - 1;
      var j := picks[i];
      assert colorIdxs[..][i := colorIdxs[j]][j := colorIdxs[i]] == Swap(colorIdxs[..], i, j);
      colorIdxs[i], colorIdxs[j] := colorIdxs[j], colorIdxs[i];
      m := m - 1;
    }
  }

  /** The shuffled list still holds each colour exactly `numTrials` times. */
  lemma ShuffledCounts(numColors: nat, numTrials: nat, picks: seq<nat>)
    requires ValidPicks(picks, numColors * numTrials)
    ensures forall c: nat :: multiset(ShuffledList(numColors, numTrials, picks))[c] == if c < numColors then numTrials else 0
  {
    ShufflePermutes(Repeated(numColors, numTrials), picks, numColors * numTrials);
    RepeatedCounts(numColors, numTrials);
  }

  // ----- the session loop --------------------------------------------------------------

  /** Where a stop request is noticed, counted in trials taken from the list (1-based):
      during the countdown of that trial (before its onset event), or after its onset. */
  datatype StopPoint = NoStop | BeforeOnset(trial: nat) | AfterOnset(trial: nat)

  /** The number of trials the loop takes from a list of `n` trials. */
  function TrialsTaken(stop: StopPoint, n: nat): (t: nat)
    ensures t <= n
  {
    match stop
    case NoStop => n
    case BeforeOnset(k) => if 1 <= k <= n then k else n
    case AfterOnset(k) => if 1 <= k <= n then k else n
  }

  /** Whether the stop request interrupts the list before it runs out. */
  predicate Interrupted(stop: StopPoint, n: nat)
  {
    (stop.BeforeOnset? || stop.AfterOnset?) && 1 <= stop.trial <= n
  }

  /** The number of onset events the loop dispatches. */
  function OnsetsDispatched(stop: StopPoint, n: nat): (o: nat)
    ensures o <= TrialsTaken(stop, n)
  {
    if Interrupted(stop, n) && stop.BeforeOnset? then TrialsTaken(stop, n) - 1 else TrialsTaken(stop, n)
  }

  /** The order trials are cued in: from the end of the list. */
  function CueOrder(list: seq<nat>): (r: seq<nat>)
    ensures |r| == |list| && multiset(r) == multiset(list)
    ensures forall i :: 0 <= i < |r| ==> r[i] == list[|list| - 1 - i]
  {
    if list == [] then []
    else
      var rest := CueOrder(list[..|list| - 1]);
      assert list == list[..|list| - 1] + [list[|list| - 1]];
      [list[|list| - 1]] + rest
  }

  /** A session that is never stopped cues each colour exactly `numTrials` times. */
  lemma FullSessionCuesEveryColour(numColors: nat, numTrials: nat, picks: seq<nat>)
    requires ValidPicks(picks, numColors * numTrials)
    ensures var order := CueOrder(ShuffledList(numColors, numTrials, picks));
      forall c: nat :: multiset(order)[c] == if c < numColors then numTrials else 0
  {
    ShuffledCounts(numColors, numTrials, picks);
  }

  /** `commandLabels[colorIdx]`, None where JavaScript reads `undefined`. */
  function LabelOf(labels: seq<string>, colorIdx: nat): (r: Option<string>)
    ensures r.Some? <==> colorIdx < |labels|
    ensures r.Some? ==> r.value == labels[colorIdx]
  {
    if colorIdx < |labels| then Some(labels[colorIdx]) else None
  }

  /** The labels of the first `count` cues taken from `list`. */
  function CueLabels(labels: seq<string>, list: seq<nat>, count: nat): (r: seq<Option<string>>)
    requires count <= |list|
    ensures |r| == count
    ensures forall i :: 0 <= i < count ==> r[i] == LabelOf(labels, list[|list| - 1 - i])
  {
    var order := CueOrder(list);
    seq(count, i requires 0 <= i < count => LabelOf(labels, order[i]))
  }

  /** One more cue: the next label is that of the element `count` places from the end. */
  lemma CueLabelsNext(labels: seq<string>, list: seq<nat>, count: nat)
    requires count < |list|
    ensures CueLabels(labels, list, count + 1)
      == CueLabels(labels, list, count) + [LabelOf(labels, list[|list| - 1 - count])]
  {
  }

  /** The module-level state of the data-collection script. */
  class Session {
    var isRunning: bool
    var cueColors: seq<string>
    var commandLabels: seq<string>
    /** The list the running loop consumes. */
    var colorIdxList: seq<nat>
    /** The `cue` label of every `dataCollectionOnset` event, in order (None for an index
        past the labels, which JavaScript reads as `undefined`). */
    var onsets: seq<Option<string>>
    /** Whether `dataCollectionCompleted` was dispatched. */
    var completed: bool

    constructor ()
      ensures !isRunning && colorIdxList == [] && onsets == [] && !completed
    {
      isRunning := false;
      cueColors := [];
      commandLabels := [];
      colorIdxList := [];
      onsets := [];
      completed := false;
    }

    /** `startDataCollection`: only logs (`warned`) when already running; the cue colours
        are the command colours re-scaled with alpha 0.5 (a colour without digits makes
        `scaleRgba` throw, after the running flag is already set). */
    method StartDataCollection(commandColors: seq<string>, labels: seq<string>, picks: seq<nat>)
      returns (warned: bool, r: Outcome<()>)
      requires ValidPicks(picks, |commandColors| * NumTrialForEachColor)
      modifies this`isRunning, this`cueColors, this`commandLabels, this`colorIdxList
      ensures warned == old(isRunning) && isRunning
      ensures r.Raised? <==> HasUnscalable(commandColors)
      ensures r.Raised? ==> (r.exception == "TypeError" && cueColors == old(cueColors) &&
        commandLabels == old(commandLabels) && colorIdxList == old(colorIdxList))
      ensures r.Done? ==> |cueColors| == |commandColors| && commandLabels == labels
      ensures r.Done? ==> AreCuesOf(cueColors, commandColors)
      ensures r.Done? ==> colorIdxList == ShuffledList(|commandColors|, NumTrialForEachColor, picks)
    {
      warned := isRunning;
      var scaled := ScaleCues(commandColors);
      if scaled.None? {
        isRunning := true;
        r := Raised("TypeError");
      } else {
        var list := GenerateColorIdxList(|commandColors|, NumTrialForEachColor, picks);
        isRunning, cueColors, commandLabels, colorIdxList := true, scaled.value, labels, list[..];
        r := Done(());
      }
    }

    /** `loopDataCollection`: takes trials from the end of the list while the list is not
        empty and the session runs; a stop request noticed at `stop` ends it early, and a
        list that runs out stops the session and dispatches the completion event. */
    method LoopDataCollection(stop: StopPoint)
      modifies this`colorIdxList, this`onsets, this`isRunning, this`completed
      ensures !old(isRunning) ==> (colorIdxList == old(colorIdxList) && onsets == old(onsets) &&
        completed == old(completed) && !isRunning)
      ensures old(isRunning) ==> !isRunning
      ensures old(isRunning) ==> var n := |old(colorIdxList)|;
        && colorIdxList == old(colorIdxList)[..n - TrialsTaken(stop, n)]
        && onsets == old(onsets) + CueLabels(commandLabels, old(colorIdxList), OnsetsDispatched(stop, n))
        && completed == (old(completed) || !Interrupted(stop, n))
    {
      if !isRunning {
        return;
      }
      var list, labels := colorIdxList, commandLabels;
      var remaining, dispatched, running := list, [], true;
      var n := |list|;
      var taken := 0;
      while |remaining| > 0 && running
        invariant 0 <= taken <= n
        invariant remaining == list[..n - taken]
        invariant running ==> (taken < n ==> !Interrupted(stop, n) || taken < stop.trial)
        invariant running && taken == n ==> !Interrupted(stop, n)
        invariant !running ==> Interrupted(stop, n) && taken == stop.trial
        invariant dispatched == CueLabels(labels, list, OnsetsDispatched(stop, taken))
        modifies {}
        decreases |remaining|
      {
        var colorIdx := remaining[|remaining| - 1];
        remaining := remaining[..|remaining| - 1];
        taken := taken + 1;
        // the countdown, during which a stop request ends the loop before the onset
        if stop == BeforeOnset(taken) {
          running := false;
        }
        if running {
          dispatched := dispatched + [LabelOf(labels, colorIdx)];
          CueLabelsNext(labels, list, taken - 1);
          // the "Go" period and the pause before the next trial
          if stop == AfterOnset(taken) {
            running := false;
          }
        }
      }
      assert running ==> taken == n;
      assert OnsetsDispatched(stop, taken) == OnsetsDispatched(stop, n);
      colorIdxList, onsets, isRunning := remaining, onsets + dispatched, false;
      if |remaining| == 0 && running {
        completed := true;
      }
    }

    /** `stopDataCollection`: clears the running flag (removing the cue element is not
        modelled). */
    method StopDataCollection()
      modifies this`isRunning
      ensures !isRunning
    {
      isRunning := false;
    }
  }

  /** The `commandColors.map(...)` of `startDataCollection`: every colour re-scaled in
      order, or None when one of them makes `scaleRgba` throw. */
  method ScaleCues(commandColors: seq<string>) returns (r: Option<seq<string>>)
    ensures r.None? <==> HasUnscalable(commandColors)
    ensures r.Some? ==> AreCuesOf(r.value, commandColors)
  {
    var scaled: seq<string> := [];
    var i := 0;
    while i < |commandColors|
      invariant 0 <= i <= |commandColors|
      invariant |scaled| == i
      invariant forall p :: 0 <= p < i ==> ColorUtils.DigitRuns(commandColors[p]) != []
      invariant forall p :: 0 <= p < i ==> Some(scaled[p]) == ScaledCue(commandColors[p])
    {
      var s := ScaledCue(commandColors[i]);
      if s.None? {
        assert commandColors[i] in commandColors;
        return None;
      }
      scaled := scaled + [s.value];
      i := i + 1;
    }
    return Some(scaled);
  }

  /** Some colour has no digits, so `scaleRgba` throws on it. */
  predicate HasUnscalable(commandColors: seq<string>)
  {
    exists c :: c in commandColors && ColorUtils.DigitRuns(c) == []
  }

  /** `cues` are the command colours re-scaled one by one, in order. */
  predicate AreCuesOf(cues: seq<string>, commandColors: seq<string>)
  {
    |cues| == |commandColors| && forall i :: 0 <= i < |cues| ==> Some(cues[i]) == ScaledCue(commandColors[i])
  }

  /** The colour of a cue: `scaleRgba(c, 1, 0.5)`, None where it throws. */
  function ScaledCue(c: string): (r: Option<string>)
    ensures r.Some? <==> ColorUtils.DigitRuns(c) != []
  {
    var s := ColorUtils.ScaleRgba(c, 1.0, Some("0.5"));
    if s.Done? then Some(s.value) else None
  }
}
