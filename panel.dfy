/** The security-area accessory of src/accessories/ElkPanel.ts: translation of
    the panel's arm-status texts into HomeKit security-system states, the
    target-state set handler that arms the area, and the arming-status (AS)
    listener. */
module PanelAccessory {
  import opened ElkTypes

  const NoAlarmActive := "No Alarm Active"

  /** The arm-status texts the translation knows. */
  predicate KnownArmText(t: string)
  {
    t == "Disarmed" || t == "Armed Away" || t == "Armed Vacation" || t == "Armed Stay"
    || t == "Armed Stay Instant" || t == "Armed Night" || t == "Armed Night Instant"
  }

  /** `HKStatusFromElkStatus`: an active alarm overrides the arm status; otherwise
      the arm-status text picks the state, and an unknown text leaves it
      undefined (None). */
  function HKStatusFromElkStatus(a: AreaStatus): (r: Option<int>)
    ensures a.alarmState != NoAlarmActive ==> r == Some(SECURITY_ALARM_TRIGGERED)
    ensures r == Some(SECURITY_ALARM_TRIGGERED) ==> a.alarmState != NoAlarmActive
    ensures r.None? <==> a.alarmState == NoAlarmActive && !KnownArmText(a.armStatus)
    ensures r.Some? ==> SECURITY_STAY <= r.value <= SECURITY_ALARM_TRIGGERED
  {
    if a.alarmState == NoAlarmActive then
      if a.armStatus == "Disarmed" then Some(SECURITY_DISARMED)
      else if a.armStatus == "Armed Away" || a.armStatus == "Armed Vacation" then Some(SECURITY_AWAY)
      else if a.armStatus == "Armed Stay" || a.armStatus == "Armed Stay Instant" then Some(SECURITY_STAY)
      else if a.armStatus == "Armed Night" || a.armStatus == "Armed Night Instant" then Some(SECURITY_NIGHT)
      else None
    else Some(SECURITY_ALARM_TRIGGERED)
  }

  /** With no alarm active, each known text lands on its own HomeKit state. */
  lemma ArmTextTable(alarmState: string)
    requires alarmState == NoAlarmActive
    ensures HKStatusFromElkStatus(AreaStatus("Disarmed", alarmState)) == Some(SECURITY_DISARMED)
    ensures HKStatusFromElkStatus(AreaStatus("Armed Away", alarmState)) == Some(SECURITY_AWAY)
    ensures HKStatusFromElkStatus(AreaStatus("Armed Vacation", alarmState)) == Some(SECURITY_AWAY)
    ensures HKStatusFromElkStatus(AreaStatus("Armed Stay", alarmState)) == Some(SECURITY_STAY)
    ensures HKStatusFromElkStatus(AreaStatus("Armed Stay Instant", alarmState)) == Some(SECURITY_STAY)
    ensures HKStatusFromElkStatus(AreaStatus("Armed Night", alarmState)) == Some(SECURITY_NIGHT)
    ensures HKStatusFromElkStatus(AreaStatus("Armed Night Instant", alarmState)) == Some(SECURITY_NIGHT)
  {
  }

  /** The panel's arm level the set handler sends for a HomeKit target state
      (STAY 2, AWAY 1, NIGHT 4, DISARM 0); any other value sends undefined. */
  function ArmMode(target: int): (m: Option<int>)
    ensures m.Some? <==> SECURITY_STAY <= target <= SECURITY_DISARMED
    ensures m == Some(0) <==> target == SECURITY_DISARMED
    ensures target == SECURITY_STAY ==> m == Some(2)
    ensures target == SECURITY_AWAY ==> m == Some(1)
    ensures target == SECURITY_NIGHT ==> m == Some(4)
  {
    if target == SECURITY_STAY then Some(2)
    else if target == SECURITY_AWAY then Some(1)
    else if target == SECURITY_NIGHT then Some(4)
    else if target == SECURITY_DISARMED then Some(0)
    else None
  }

  /** Distinct HomeKit targets never send the same arm level. */
  lemma ArmModeInjective(t: int, u: int)
    requires ArmMode(t).Some? && ArmMode(t) == ArmMode(u)
    ensures t == u
  {
  }

  /** The accessory's two cached states; undefined is None. */
  datatype PanelState = PanelState(current: Option<int>, target: Option<int>)

  const InitialPanel := PanelState(Some(SECURITY_DISARMED), Some(SECURITY_DISARMED))

  /** The set handler acts only when the requested value differs from the cached
      current state. */
  function AfterSetTarget(s: PanelState, state: int): (r: PanelState)
    ensures r.current == s.current
    ensures r.target == if Some(state) != s.current then Some(state) else s.target
  {
    if Some(state) != s.current then s.(target := Some(state)) else s
  }

  function SetTargetCommands(s: PanelState, state: int, area: int, keypadCode: string): (cs: seq<Command>)
    ensures Some(state) == s.current ==> cs == []
    ensures Some(state) != s.current ==> cs == [Arm(area, ArmMode(state), keypadCode)]
  {
    if Some(state) != s.current then [Arm(area, ArmMode(state), keypadCode)] else []
  }

  /** The arming-status listener: the current state follows the mapped value;
      the target follows it too unless the value is ALARM_TRIGGERED. */
  function AfterArmingStatus(s: PanelState, mapped: Option<int>): (r: PanelState)
    ensures r.current == mapped
    ensures r.target == if mapped != Some(SECURITY_ALARM_TRIGGERED) then mapped else s.target
  {
    if mapped != Some(SECURITY_ALARM_TRIGGERED) then PanelState(mapped, mapped) else s.(current := mapped)
  }

  function ArmingStatusPushes(mapped: Option<int>): seq<Push>
  {
    [Push(SecuritySystemCurrentState, HKOption(mapped))]
      + if mapped != Some(SECURITY_ALARM_TRIGGERED) then [Push(SecuritySystemTargetState, HKOption(mapped))] else []
  }

  /** An alarm never overwrites the target the user last asked for. */
  lemma AlarmKeepsTarget(s: PanelState, a: AreaStatus)
    requires a.alarmState != NoAlarmActive
    ensures AfterArmingStatus(s, HKStatusFromElkStatus(a)).target == s.target
    ensures AfterArmingStatus(s, HKStatusFromElkStatus(a)).current == Some(SECURITY_ALARM_TRIGGERED)
  {
  }

  /** The listener writes the target characteristic with `setCharacteristic`,
      which runs the set handler with the value just cached as current: that
      echo sends nothing and changes nothing. */
  lemma EchoIsSilent(s: PanelState, mapped: int, area: int, keypadCode: string)
    requires mapped != SECURITY_ALARM_TRIGGERED
    ensures var r := AfterArmingStatus(s, Some(mapped));
            AfterSetTarget(r, mapped) == r && SetTargetCommands(r, mapped, area, keypadCode) == []
  {
  }

  /** Disarming an armed or alarmed area sends exactly one disarm and nothing
      else; there is no second command after a delay. */
  lemma DisarmSendsOneCommand(s: PanelState, area: int, keypadCode: string)
    requires s.current != Some(SECURITY_DISARMED)
    ensures SetTargetCommands(s, SECURITY_DISARMED, area, keypadCode) == [Arm(area, Some(0), keypadCode)]
    ensures AfterSetTarget(s, SECURITY_DISARMED).target == Some(SECURITY_DISARMED)
  {
  }

  /** The area's status in an arming-status message (`areas[area - 1]`), if present. */
  function AreaOf(areas: seq<AreaStatus>, area: int): Option<AreaStatus>
  {
    if 1 <= area <= |areas| then Some(areas[area - 1]) else None
  }

  /** The old-style constructor of ElkPanel.ts: name, panel link, area, keypad code. */
  class ElkPanel {
    const elk: PanelLink
    const name: Option<string>
    const uuidBase: Option<string>
    const area: int
    const keypadCode: string

    var currentState: Option<int>
    var targetState: Option<int>
    /** The HomeKit side: every characteristic pushed, in order. */
    var pushed: seq<Push>

    function State(): PanelState
      reads this
    {
      PanelState(currentState, targetState)
    }

    constructor (name: Option<string>, elk: PanelLink, area: int, keypadCode: string)
      ensures this.elk == elk && this.name == name && uuidBase == name
      ensures this.area == area && this.keypadCode == keypadCode
      ensures State() == InitialPanel && pushed == []
    {
      this.elk := elk;
      this.name := name;
      uuidBase := name;
      this.area := area;
      this.keypadCode := keypadCode;
      currentState := Some(SECURITY_DISARMED);
      targetState := Some(SECURITY_DISARMED);
      pushed := [];
    }

    /** The current-state get handler asks the panel afresh and answers with the
      mapped reply, never with the cached field. No answer is given when the
      request fails or the reply lacks the area. */
    method GetCurrentState(reply: Option<seq<AreaStatus>>) returns (answered: bool, value: Option<int>)
      modifies elk
      ensures elk.sent == old(elk.sent) + [RequestArmingStatus]
      ensures answered <==> reply.Some? && AreaOf(reply.value, area).Some?
      ensures answered ==> value == HKStatusFromElkStatus(AreaOf(reply.value, area).value)
    {
      elk.Issue(RequestArmingStatus);
      answered, value := false, None;
      if reply.Some? && 1 <= area <= |reply.value| {
        answered := true;
        value := HKStatusFromElkStatus(reply.value[area - 1]);
      }
    }

    method GetTargetState() returns (value: Option<int>)
      ensures value == targetState
    {
      value := targetState;
    }

    /** The target-state set handler; its callback always reports success. */
    method SetTargetState(state: int) returns (error: Option<string>)
      modifies this, elk
      ensures State() == AfterSetTarget(old(State()), state)
      ensures elk.sent == old(elk.sent) + SetTargetCommands(old(State()), state, area, keypadCode)
      ensures pushed == old(pushed) && error == None
    {
      if Some(state) != currentState {
        targetState := Some(state);
        var elkState := ArmMode(state);
        elk.Issue(Arm(area, elkState, keypadCode));
      }
      error := None;
    }

    /** The arming-status listener. A message without this area makes the
      translation throw, and nothing changes. */
    method OnArmingStatus(areas: seq<AreaStatus>) returns (handled: bool)
      modifies this
      ensures handled <==> AreaOf(areas, area).Some?
      ensures handled ==> State() == AfterArmingStatus(old(State()), HKStatusFromElkStatus(AreaOf(areas, area).value))
      ensures handled ==> pushed == old(pushed) + ArmingStatusPushes(HKStatusFromElkStatus(AreaOf(areas, area).value))
      ensures !handled ==> State() == old(State()) && pushed == old(pushed)
    {
      if !(1 <= area <= |areas|) {
        return false;
      }
      handled := true;
      var armStatus := HKStatusFromElkStatus(areas[area - 1]);
      currentState := armStatus;
      pushed := pushed + [Push(SecuritySystemCurrentState, HKOption(armStatus))];
      if armStatus != Some(SECURITY_ALARM_TRIGGERED) {
        targetState := armStatus;
        pushed := pushed + [Push(SecuritySystemTargetState, HKOption(armStatus))];
      }
    }
  }
}
