/** The shared server state of the single-page app: one command per agent and the agent
    the user is looking at (`focus`, assigned by the browser endpoint). */
module AppSession {
  import opened Values

  /** `AppState.num_agents`. */
  const NumAgents: nat := 4

  /** The value `update_command` writes for `event` and `data`, or None when it writes
      nothing: an `eeg` event writes its data, a `keydown` of "0" writes 0 and a keydown of
      "1", "2" or "3" writes 1. */
  function Written(event: string, data: Value): (w: Option<Value>)
    ensures w.Some? <==> (event == "eeg" ||
      (event == "keydown" && data in {Str("0"), Str("1"), Str("2"), Str("3")}))
    ensures event == "eeg" ==> w == Some(data)
    ensures event == "keydown" && w.Some? ==> (w.value == Int(0) <==> data == Str("0"))
    ensures event != "eeg" && w.Some? ==> w.value in {Int(0), Int(1)}
  {
    if event == "eeg" then Some(data)
    else if event == "keydown" then
      if data == Str("0") then Some(Int(0))
      else if data in {Str("1"), Str("2"), Str("3")} then Some(Int(1))
      else None
    else None
  }

  /** The command list after `update_command`: unchanged without a focus or a write, and
      IndexError when `focus` is outside the list. */
  function UpdatedCommand(command: seq<Value>, focus: Option<int>, event: string, data: Value)
    : (r: Outcome<seq<Value>>)
    ensures r.Done? ==> |r.value| == |command|
    ensures focus.None? || Written(event, data).None? ==> r == Done(command)
    ensures r.Raised? <==>
      focus.Some? && Written(event, data).Some? && PyIndex(focus.value, |command|).None?
    ensures r.Raised? ==> r.exception == "IndexError"
    ensures r.Done? ==> forall j :: 0 <= j < |command| && r.value[j] != command[j] ==>
      focus.Some? && PyIndex(focus.value, |command|) == Some(j) && r.value[j] == Written(event, data).value
  {
    if focus.None? then Done(command)
    else
      var w := Written(event, data);
      if w.None? then Done(command)
      else
        var k := PyIndex(focus.value, |command|);
        if k.None? then Raised("IndexError")
        else Done(command[k.value := w.value])
  }

  class AppState {
    var command: seq<Value>
    var focus: Option<int>

    constructor ()
      ensures command == seq(NumAgents, _ => Int(0)) && focus == None
    {
      command := seq(NumAgents, _ => Int(0));
      focus := None;
    }

    /** `update_command(event, data)`: writes at most the focused entry in place. */
    method UpdateCommand(event: string, data: Value) returns (r: Outcome<()>)
      modifies this`command
      ensures UpdatedCommand(old(command), focus, event, data).Done? ==>
        r.Done? && command == UpdatedCommand(old(command), focus, event, data).value
      ensures UpdatedCommand(old(command), focus, event, data).Raised? ==>
        r == Raised("IndexError") && command == old(command)
    {
      if focus.None? {
        return Done(());
      }
      if event == "eeg" {
        var k := PyIndex(focus.value, |command|);
        if k.None? {
          return Raised("IndexError");
        }
        command := command[k.value := data];
      } else if event == "keydown" {
        if data == Str("0") || data in {Str("1"), Str("2"), Str("3")} {
          var k := PyIndex(focus.value, |command|);
          if k.None? {
            return Raised("IndexError");
          }
          command := command[k.value := if data == Str("0") then Int(0) else Int(1)];
        }
      }
      return Done(());
    }
  }

  /** Every update keeps one command per agent. */
  lemma UpdateKeepsAgents(command: seq<Value>, focus: Option<int>, event: string, data: Value)
    requires |command| == NumAgents
    ensures UpdatedCommand(command, focus, event, data).Done?
      ==> |UpdatedCommand(command, focus, event, data).value| == NumAgents
    ensures focus.Some? && 0 <= focus.value < NumAgents ==> UpdatedCommand(command, focus, event, data).Done?
  {
  }

  /** Keyboard commands only ever leave 0 or 1 in the focused slot, so a list that holds
      only 0 and 1 keeps holding only 0 and 1 under keyboard input. */
  lemma {:induction false} KeysKeepBinary(command: seq<Value>, focus: Option<int>, keys: seq<Value>)
    requires forall j :: 0 <= j < |command| ==> command[j] in {Int(0), Int(1)}
    ensures KeySequence(command, focus, keys).Done? ==>
      forall j :: 0 <= j < |command| ==> KeySequence(command, focus, keys).value[j] in {Int(0), Int(1)}
    decreases |keys|
  {
    if |keys| > 0 {
      var r := UpdatedCommand(command, focus, "keydown", keys[0]);
      if r.Done? {
        KeysKeepBinary(r.value, focus, keys[1..]);
      }
    }
  }

  /** Feeds a sequence of keydown events through `update_command`, stopping at an error. */
  function KeySequence(command: seq<Value>, focus: Option<int>, keys: seq<Value>): (r: Outcome<seq<Value>>)
    ensures r.Done? ==> |r.value| == |command|
    decreases |keys|
  {
    if |keys| == 0 then Done(command)
    else
      var r := UpdatedCommand(command, focus, "keydown", keys[0]);
      if r.Raised? then r else KeySequence(r.value, focus, keys[1..])
  }
}

/** The dict-message variant of the shared state used by the mabmi server: `update_command`
    receives one browser message and reads its `type`, `command` and `key` entries. */
module MabmiSession {
  import opened Values
  import AppSession

  const NumAgents: nat := 4

  /** The value the message writes, None when it writes nothing, or the exception a missing
      entry raises; `type` is read first, then `command` or `key`. */
  function Written(data: Value): (w: Outcome<Option<Value>>)
    ensures w.Raised? <==>
      !HasKey(data, "type") ||
      (data.entries["type"] == Str("eeg") && !HasKey(data, "command")) ||
      (data.entries["type"] == Str("keydown") && !HasKey(data, "key"))
    ensures w.Done? && data.entries["type"] == Str("eeg") ==> w.value == Some(data.entries["command"])
    ensures w.Done? && data.entries["type"] == Str("keydown") ==>
      (w.value.Some? <==> data.entries["key"] in {Str("0"), Str("1"), Str("2"), Str("3")}) &&
      (w.value == Some(Int(0)) <==> data.entries["key"] == Str("0")) &&
      (w.value.Some? ==> w.value.value in {Int(0), Int(1)})
    ensures w.Done? && data.entries["type"] !in {Str("eeg"), Str("keydown")} ==> w.value.None?
  {
    var t := Item(data, "type");
    if t.Raised? then Raised(t.exception)
    else if t.value == Str("eeg") then
      var c := Item(data, "command");
      if c.Raised? then Raised(c.exception) else Done(Some(c.value))
    else if t.value == Str("keydown") then
      var k := Item(data, "key");
      if k.Raised? then Raised(k.exception)
      else if k.value == Str("0") then Done(Some(Int(0)))
      else if k.value in {Str("1"), Str("2"), Str("3")} then Done(Some(Int(1)))
      else Done(None)
    else Done(None)
  }

  /** The command list after `update_command(data)`. */
  function UpdatedCommand(command: seq<Value>, focus: Option<int>, data: Value): (r: Outcome<seq<Value>>)
    ensures r.Done? ==> |r.value| == |command|
    ensures focus.None? ==> r == Done(command)
    ensures focus.Some? && Written(data).Raised? ==> r == Raised(Written(data).exception)
    ensures focus.Some? && Written(data) == Done(None) ==> r == Done(command)
    ensures r.Done? ==> forall j :: 0 <= j < |command| && r.value[j] != command[j] ==>
      focus.Some? && PyIndex(focus.value, |command|) == Some(j) && Written(data).Done? &&
      Written(data).value.Some? && r.value[j] == Written(data).value.value
  {
    if focus.None? then Done(command)
    else
      var w := Written(data);
      if w.Raised? then Raised(w.exception)
      else if w.value.None? then Done(command)
      else
        var k := PyIndex(focus.value, |command|);
        if k.None? then Raised("IndexError")
        else Done(command[k.value := w.value.value])
  }

  class AppState {
    var command: seq<Value>
    var focus: Option<int>

    constructor ()
      ensures command == seq(NumAgents, _ => Int(0)) && focus == None
    {
      command := seq(NumAgents, _ => Int(0));
      focus := None;
    }

    /** `update_command(data)`: writes at most the focused entry in place. */
    method UpdateCommand(data: Value) returns (r: Outcome<()>)
      modifies this`command
      ensures UpdatedCommand(old(command), focus, data).Done? ==>
        r.Done? && command == UpdatedCommand(old(command), focus, data).value
      ensures UpdatedCommand(old(command), focus, data).Raised? ==>
        r.Raised? && r.exception == UpdatedCommand(old(command), focus, data).exception &&
        command == old(command)
    {
      if focus.None? {
        return Done(());
      }
      var t := Item(data, "type");
      if t.Raised? {
        return Raised(t.exception);
      }
      if t.value == Str("eeg") {
        var c := Item(data, "command");
        if c.Raised? {
          return Raised(c.exception);
        }
        var k := PyIndex(focus.value, |command|);
        if k.None? {
          return Raised("IndexError");
        }
        command := command[k.value := c.value];
      } else if t.value == Str("keydown") {
        var key := Item(data, "key");
        if key.Raised? {
          return Raised(key.exception);
        }
        if key.value == Str("0") || key.value in {Str("1"), Str("2"), Str("3")} {
          var k := PyIndex(focus.value, |command|);
          if k.None? {
            return Raised("IndexError");
          }
          command := command[k.value := if key.value == Str("0") then Int(0) else Int(1)];
        }
      }
      return Done(());
    }
  }

  /** The dict variant agrees with the event/data variant on well-formed messages. */
  lemma AgreesWithEventVariant(command: seq<Value>, focus: Option<int>, event: string, payload: Value)
    requires event in {"eeg", "keydown"}
    ensures UpdatedCommand(command, focus,
        Dict(map["type" := Str(event), (if event == "eeg" then "command" else "key") := payload]))
      == (match AppSession.UpdatedCommand(command, focus, event, payload)
          case Done(v) => Done(v)
          case Raised(e) => Raised(e))
  {
    var msg := Dict(map["type" := Str(event), (if event == "eeg" then "command" else "key") := payload]);
    assert msg.entries["type"] == Str(event);
    if event == "eeg" {
      assert Str(event) == Str("eeg");
    } else {
      assert Str(event) == Str("keydown");
      assert msg.entries["key"] == payload;
    }
  }
}
