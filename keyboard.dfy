/** The keyboard input device of the browser front end: digit keys select command labels.
    Key "0" cancels when a `cancel` label exists; the other labels take "1", "2", … in order. */
module Keyboard {
  import opened Values
  import opened Decimal

  const Cancel: string := "cancel"

  /** `commandLabels.filter(label => label !== 'cancel')`. */
  function WithoutCancel(labels: seq<string>): (r: seq<string>)
    ensures |r| <= |labels|
    ensures forall i :: 0 <= i < |r| ==> r[i] != Cancel && r[i] in labels
    ensures forall l :: l in labels && l != Cancel ==> l in r
  {
    if labels == [] then []
    else if labels[0] == Cancel then WithoutCancel(labels[1..])
    else [labels[0]] + WithoutCancel(labels[1..])
  }

  /** The key a label position gets: `(idx + 1).toString()`. */
  function KeyFor(idx: nat): string
  {
    NatToString(idx + 1)
  }

  /** The key map for `labels`: "0" maps to `cancel` exactly when the labels contain it, the
      `i`-th other label sits under `KeyFor(i)`, and there are no other keys. */
  predicate IsKeyMapOf(labels: seq<string>, keyMap: map<string, string>)
  {
    && ("0" in keyMap <==> Cancel in labels)
    && ("0" in keyMap ==> keyMap["0"] == Cancel)
    && (forall i :: 0 <= i < |WithoutCancel(labels)| ==>
          KeyFor(i) in keyMap && keyMap[KeyFor(i)] == WithoutCancel(labels)[i])
    && (forall k :: k in keyMap ==>
          k == "0" || exists i :: 0 <= i < |WithoutCancel(labels)| && k == KeyFor(i))
  }

  /** The key map `onToggleKeyboard` builds, entry by entry. */
  method BuildKeyMap(labels: seq<string>) returns (keyMap: map<string, string>)
    ensures IsKeyMapOf(labels, keyMap)
  {
    keyMap := map[];
    if Cancel in labels {
      keyMap := keyMap["0" := Cancel];
    }
    var others := WithoutCancel(labels);
    var idx := 0;
    while idx < |others|
      invariant 0 <= idx <= |others|
      invariant "0" in keyMap <==> Cancel in labels
      invariant "0" in keyMap ==> keyMap["0"] == Cancel
      invariant forall i :: 0 <= i < idx ==> KeyFor(i) in keyMap && keyMap[KeyFor(i)] == others[i]
      invariant forall k :: k in keyMap ==> k == "0" || exists i :: 0 <= i < idx && k == KeyFor(i)
    {
      KeysDistinct(idx);
      keyMap := keyMap[KeyFor(idx) := others[idx]];
      idx := idx + 1;
    }
  }

  /** Keys of different positions differ from each other and from "0". */
  lemma KeysDistinct(idx: nat)
    ensures KeyFor(idx) != "0"
    ensures forall i :: 0 <= i < idx ==> KeyFor(i) != KeyFor(idx)
  {
    assert NatToString(0) == "0";
    NatToStringInjective(idx + 1, 0);
    forall i | 0 <= i < idx
      ensures KeyFor(i) != KeyFor(idx)
    {
      NatToStringInjective(i + 1, idx + 1);
    }
  }

  /** What the keydown listener passes to the command handler: the label of the pressed key,
      or `undefined` (None) for a key that is not in the map. */
  function HandlerArgument(keyMap: map<string, string>, key: string): (r: Option<string>)
    ensures r.Some? <==> key in keyMap
    ensures r.Some? ==> r.value == keyMap[key]
  {
    if key in keyMap then Some(keyMap[key]) else None
  }

  /** With distinct labels every label is reached by exactly one key. */
  lemma OneKeyPerLabel(labels: seq<string>, keyMap: map<string, string>, target: string)
    requires forall i, j :: 0 <= i < j < |labels| ==> labels[i] != labels[j]
    requires target in labels
    requires IsKeyMapOf(labels, keyMap)
    ensures exists k :: k in keyMap && keyMap[k] == target
    ensures forall k1, k2 :: k1 in keyMap && k2 in keyMap && keyMap[k1] == target && keyMap[k2] == target ==> k1 == k2
  {
    var others := WithoutCancel(labels);
    FilterDistinct(labels);
    if target == Cancel {
      assert keyMap["0"] == target;
    } else {
      var i :| 0 <= i < |others| && others[i] == target;
      assert keyMap[KeyFor(i)] == target;
    }
    forall k | k in keyMap && k != "0"
      ensures keyMap[k] != Cancel
    {
      var i :| 0 <= i < |others| && k == KeyFor(i);
    }
    forall k1, k2 | k1 in keyMap && k2 in keyMap && keyMap[k1] == target && keyMap[k2] == target
      ensures k1 == k2
    {
      if k1 != "0" && k2 != "0" {
        var i1 :| 0 <= i1 < |others| && k1 == KeyFor(i1);
        var i2 :| 0 <= i2 < |others| && k2 == KeyFor(i2);
        assert others[i1] == others[i2];
      }
    }
  }

  /** Filtering keeps the labels distinct. */
  lemma {:induction false} FilterDistinct(labels: seq<string>)
    requires forall i, j :: 0 <= i < j < |labels| ==> labels[i] != labels[j]
    ensures forall i, j :: 0 <= i < j < |WithoutCancel(labels)| ==>
      WithoutCancel(labels)[i] != WithoutCancel(labels)[j]
    decreases |labels|
  {
    if labels != [] {
      FilterDistinct(labels[1..]);
      assert labels[0] !in labels[1..];
    }
  }
}
