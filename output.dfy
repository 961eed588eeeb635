/** The output switch of src/accessories/ElkOutput.ts: a HomeKit switch mirroring
    one panel output, kept in step by output-change (CC) events and driven by
    the switch's set handler. */
module OutputAccessory {
  import opened ElkTypes

  /** The switch's state after an output-change event: an event for this output
      sets it from the event's text, any other event leaves it. */
  function OutputAfterChange(isOn: bool, id: int, c: OutputChange): (r: bool)
    ensures c.id != id ==> r == isOn
    ensures c.id == id ==> (r <==> c.state == "On")
  {
    if c.id == id then c.state == "On" else isOn
  }

  /** The listener pushes the value to HomeKit only when it changed. */
  function OutputChangePushes(isOn: bool, id: int, c: OutputChange): (ps: seq<Push>)
    ensures ps == [] <==> OutputAfterChange(isOn, id, c) == isOn
    ensures ps != [] ==> ps == [Push(On, HKBool(!isOn))]
  {
    if c.id == id && (c.state == "On") != isOn then [Push(On, HKBool(c.state == "On"))] else []
  }

  /** Replaying a list of output-change events: the final state and the values
      pushed to HomeKit, in order. */
  function ReplayChanges(isOn: bool, id: int, cs: seq<OutputChange>): (bool, seq<bool>)
    decreases |cs|
  {
    if cs == [] then (isOn, [])
    else
      var next := OutputAfterChange(isOn, id, cs[0]);
      var rest := ReplayChanges(next, id, cs[1..]);
      (rest.0, (if next != isOn then [next] else []) + rest.1)
  }

  /** However the events arrive, HomeKit never receives the same value twice in a
      row nor one it already shows, the last value it receives is the switch's
      state, and it receives at most one value per event. */
  lemma {:induction false} ReplayPushesOnlyChanges(isOn: bool, id: int, cs: seq<OutputChange>)
    ensures var (final, ps) := ReplayChanges(isOn, id, cs);
            && |ps| <= |cs|
            && (ps != [] ==> ps[0] != isOn && ps[|ps| - 1] == final)
            && (ps == [] ==> final == isOn)
            && (forall i :: 0 < i < |ps| ==> ps[i] != ps[i - 1])
    decreases |cs|
  {
    if cs != [] {
      var next := OutputAfterChange(isOn, id, cs[0]);
      ReplayPushesOnlyChanges(next, id, cs[1..]);
    }
  }

  /** `${value}` === 'true' decides the requested state. */
  function RequestedState(value: CharValue): bool
  {
    IsTrueText(value)
  }

  /** The set handler commands the panel only when the request differs from the
      cached state: output on with no time limit, or output off. */
  function SetOutputCommands(isOn: bool, id: int, value: CharValue): (cs: seq<Command>)
    ensures cs == [] <==> RequestedState(value) == isOn
    ensures cs != [] ==> cs == (if RequestedState(value) then [SetOutputOn(id, 0)] else [SetOutputOff(id)])
  {
    var newState := RequestedState(value);
    if newState != isOn then
      if newState then [SetOutputOn(id, 0)] else [SetOutputOff(id)]
    else []
  }

  /** A request followed by the panel's confirming event: the event pushes nothing
      and the switch keeps the requested state. */
  lemma SetThenConfirm(isOn: bool, id: int, value: CharValue)
    ensures var c := OutputChange(id, if RequestedState(value) then "On" else "Off");
            OutputAfterChange(RequestedState(value), id, c) == RequestedState(value)
            && OutputChangePushes(RequestedState(value), id, c) == []
  {
  }

  /** Only the text `true` (or the boolean) switches on; `1` and `True` switch off. */
  lemma RequestedStateExamples()
    ensures RequestedState(CBool(true)) && RequestedState(CStr("true"))
    ensures !RequestedState(CNum(1)) && !RequestedState(CStr("True")) && !RequestedState(CBool(false))
  {
  }

  /** The state an output status report gives this output: `outputs[id - 1] === 'On'`,
      false when the report has no such entry. */
  function OutputFromReport(outputs: seq<string>, id: int): bool
  {
    1 <= id <= |outputs| && outputs[id - 1] == "On"
  }

  class ElkOutput {
    const elk: PanelLink
    const id: nat
    const name: string

    var isOn: bool
    /** The HomeKit side: every value pushed to the On characteristic, in order. */
    var pushed: seq<Push>

    constructor (elk: PanelLink, id: nat, deviceName: Option<string>)
      ensures this.elk == elk && this.id == id && name == ItemName(deviceName, "Output ", id)
      ensures !isOn && pushed == []
    {
      this.elk := elk;
      this.id := id;
      name := ItemName(deviceName, "Output ", id);
      isOn := false;
      pushed := [];
    }

    /** The CC listener. */
    method OnOutputChange(c: OutputChange)
      modifies this
      ensures isOn == OutputAfterChange(old(isOn), id, c)
      ensures pushed == old(pushed) + OutputChangePushes(old(isOn), id, c)
    {
      if c.id == id {
        var on := c.state == "On";
        if on != isOn {
          isOn := on;
          pushed := pushed + [Push(On, HKBool(on))];
        }
      }
    }

    /** The get handler asks for an output status report. A reply sets and returns
      this output's state; a failed request returns the cached state. */
    method GetOutput(reply: Option<seq<string>>) returns (v: bool)
      modifies this, elk
      ensures elk.sent == old(elk.sent) + [RequestOutputStatusReport]
      ensures isOn == (if reply.Some? then OutputFromReport(reply.value, id) else old(isOn))
      ensures v == isOn && pushed == old(pushed)
    {
      elk.Issue(RequestOutputStatusReport);
      if reply.Some? {
        isOn := OutputFromReport(reply.value, id);
      }
      v := isOn;
    }

    /** The set handler. */
    method SetOutput(value: CharValue)
      modifies this, elk
      ensures isOn == RequestedState(value)
      ensures elk.sent == old(elk.sent) + SetOutputCommands(old(isOn), id, value)
      ensures pushed == old(pushed)
    {
      var newState := RequestedState(value);
      if newState != isOn {
        if newState {
          elk.Issue(SetOutputOn(id, 0));
        } else {
          elk.Issue(SetOutputOff(id));
        }
        isOn := newState;
      }
    }
  }
}
