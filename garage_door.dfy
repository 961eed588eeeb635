/** The garage-door accessory of src/accessories/ElkGarageDoor.ts: a door-state
    zone, an optional obstruction zone, and momentary open/close relays. */
module GarageDoorAccessory {
  import opened ElkTypes

  /** The three fields the door keeps. */
  datatype DoorState = DoorState(current: int, target: int, obstructed: bool)

  const InitialDoor := DoorState(DOOR_CLOSED, DOOR_CLOSED, false)

  /** The door position a zone message reports: any logical state other than
      'Normal' means open. */
  function DoorFromMessage(msg: ZoneMessage): (d: int)
    ensures d == DOOR_OPEN || d == DOOR_CLOSED
    ensures d == DOOR_OPEN <==> msg.logicalState != "Normal"
  {
    if msg.logicalState != "Normal" then DOOR_OPEN else DOOR_CLOSED
  }

  /** `setState`: a changed position is written to both current and target;
      an unchanged one leaves everything as it was. */
  function AfterSetState(s: DoorState, msg: ZoneMessage): (r: DoorState)
    ensures r.current == DoorFromMessage(msg)
    ensures r.obstructed == s.obstructed
    ensures r.target == if s.current == DoorFromMessage(msg) then s.target else r.current
  {
    var d := DoorFromMessage(msg);
    if s.current != d then DoorState(d, d, s.obstructed) else s
  }

  function SetStatePushes(s: DoorState, msg: ZoneMessage): seq<Push>
  {
    var d := DoorFromMessage(msg);
    if s.current != d then [Push(CurrentDoorState, HKInt(d)), Push(TargetDoorState, HKInt(d))] else []
  }

  /** `setObstructionStatus` touches only the obstruction flag. */
  function AfterSetObstruction(s: DoorState, msg: ZoneMessage): (r: DoorState)
    ensures r.current == s.current && r.target == s.target
    ensures r.obstructed <==> msg.logicalState != "Normal"
  {
    s.(obstructed := msg.logicalState != "Normal")
  }

  /** `setTargetState`: a value different from the current position becomes the
      target; the current position itself is left for the zone event to confirm. */
  function AfterSetTarget(s: DoorState, value: int): (r: DoorState)
    ensures r.current == s.current && r.obstructed == s.obstructed
    ensures r.target == if value != s.current then value else s.target
  {
    if value != s.current then s.(target := value) else s
  }

  /** The relay pulse `setTargetState` issues. */
  function TargetCommands(s: DoorState, value: int, openOutput: nat, closeOutput: nat): (cs: seq<Command>)
    ensures value == s.current ==> cs == []
    ensures value != s.current && value == DOOR_OPEN ==> cs == [SetOutputOn(openOutput, 1)]
    ensures value != s.current && value == DOOR_CLOSED ==> cs == [SetOutputOn(closeOutput, 1)]
    ensures value != DOOR_OPEN && value != DOOR_CLOSED ==> cs == []
  {
    if value == s.current then []
    else if value == DOOR_OPEN then [SetOutputOn(openOutput, 1)]
    else if value == DOOR_CLOSED then [SetOutputOn(closeOutput, 1)]
    else []
  }

  /** The transitional position `setTargetState` displays. */
  function TargetPushes(s: DoorState, value: int): seq<Push>
  {
    if value == s.current then []
    else if value == DOOR_OPEN then [Push(CurrentDoorState, HKInt(DOOR_OPENING))]
    else if value == DOOR_CLOSED then [Push(CurrentDoorState, HKInt(DOOR_CLOSING))]
    else []
  }

  /** A zone message applied twice leaves the door as applying it once does. */
  lemma SetStateIdempotent(s: DoorState, msg: ZoneMessage)
    ensures AfterSetState(AfterSetState(s, msg), msg) == AfterSetState(s, msg)
    ensures SetStatePushes(AfterSetState(s, msg), msg) == []
  {
  }

  /** Opening a door that is not open: the target becomes OPEN, OPENING is shown,
      exactly one pulse goes to the open relay, and the zone event that follows
      (the door reports Violated) settles both positions on OPEN. Closing is the
      mirror image. */
  lemma OpenThenConfirm(s: DoorState, openOutput: nat, closeOutput: nat, confirm: ZoneMessage)
    requires s.current != DOOR_OPEN
    requires confirm.logicalState == "Violated"
    ensures AfterSetTarget(s, DOOR_OPEN).target == DOOR_OPEN
    ensures AfterSetTarget(s, DOOR_OPEN).current == s.current
    ensures TargetPushes(s, DOOR_OPEN) == [Push(CurrentDoorState, HKInt(DOOR_OPENING))]
    ensures TargetCommands(s, DOOR_OPEN, openOutput, closeOutput) == [SetOutputOn(openOutput, 1)]
    ensures var r := AfterSetState(AfterSetTarget(s, DOOR_OPEN), confirm);
            r.current == DOOR_OPEN && r.target == DOOR_OPEN
  {
  }

  lemma CloseThenConfirm(s: DoorState, openOutput: nat, closeOutput: nat, confirm: ZoneMessage)
    requires s.current != DOOR_CLOSED
    requires confirm.logicalState == "Normal"
    ensures AfterSetTarget(s, DOOR_CLOSED).target == DOOR_CLOSED
    ensures AfterSetTarget(s, DOOR_CLOSED).current == s.current
    ensures TargetPushes(s, DOOR_CLOSED) == [Push(CurrentDoorState, HKInt(DOOR_CLOSING))]
    ensures TargetCommands(s, DOOR_CLOSED, openOutput, closeOutput) == [SetOutputOn(closeOutput, 1)]
    ensures var r := AfterSetState(AfterSetTarget(s, DOOR_CLOSED), confirm);
            r.current == DOOR_CLOSED && r.target == DOOR_CLOSED
  {
  }

  /** Because the current position stays put until the zone confirms, a second
      identical request before the confirmation pulses the relay again. */
  lemma RepeatedOpenPulsesTwice(s: DoorState, openOutput: nat, closeOutput: nat)
    requires s.current != DOOR_OPEN
    ensures TargetCommands(s, DOOR_OPEN, openOutput, closeOutput)
          + TargetCommands(AfterSetTarget(s, DOOR_OPEN), DOOR_OPEN, openOutput, closeOutput)
         == [SetOutputOn(openOutput, 1), SetOutputOn(openOutput, 1)]
  {
  }

  class ElkGarageDoor {
    const elk: PanelLink
    const id: nat
    const openOutput: nat
    const closeOutput: nat
    const stateZone: nat
    const obstructionZone: Option<nat>

    var currentState: int
    var targetState: int
    var isObstructed: bool
    /** The HomeKit side: every characteristic pushed, in order. */
    var pushed: seq<Push>

    function State(): DoorState
      reads this
    {
      DoorState(currentState, targetState, isObstructed)
    }

    /** The constructor; only reachable when the configuration has a state zone. */
    constructor Init(elk: PanelLink, id: nat, config: GarageDoorConfig)
      requires config.stateZone.Some?
      ensures this.elk == elk && this.id == id
      ensures openOutput == config.openOutput && closeOutput == config.closeOutput
      ensures stateZone == config.stateZone.value && obstructionZone == config.obstructionZone
      ensures State() == InitialDoor && pushed == []
    {
      this.elk := elk;
      this.id := id;
      openOutput := config.openOutput;
      closeOutput := config.closeOutput;
      stateZone := config.stateZone.value;
      obstructionZone := config.obstructionZone;
      currentState := DOOR_CLOSED;
      targetState := DOOR_CLOSED;
      isObstructed := false;
      pushed := [];
    }

    /** `new ElkGarageDoor(...)`: throws (here: yields null) when the configuration
      has no state zone; otherwise a closed, unobstructed door. */
    static method New(elk: PanelLink, id: nat, config: GarageDoorConfig) returns (door: ElkGarageDoor?)
      ensures door == null <==> config.stateZone.None?
      ensures door != null ==> fresh(door) && door.elk == elk && door.id == id
      ensures door != null ==>
        (door.stateZone == config.stateZone.value && door.obstructionZone == config.obstructionZone &&
         door.openOutput == config.openOutput && door.closeOutput == config.closeOutput &&
         door.State() == InitialDoor && door.pushed == [])
    {
      if config.stateZone.None? {
        door := null;
      } else {
        door := new ElkGarageDoor.Init(elk, id, config);
      }
    }

    method SetObstructionStatus(msg: ZoneMessage)
      modifies this
      ensures State() == AfterSetObstruction(old(State()), msg)
      ensures pushed == old(pushed) + [Push(ObstructionDetected, HKBool(isObstructed))]
    {
      isObstructed := msg.logicalState != "Normal";
      pushed := pushed + [Push(ObstructionDetected, HKBool(isObstructed))];
    }

    method GetCurrentState() returns (v: int)
      ensures v == currentState
    {
      v := currentState;
    }

    method GetTargetState() returns (v: int)
      ensures v == targetState
    {
      v := targetState;
    }

    method GetObstructionState() returns (v: bool)
      ensures v == isObstructed
    {
      v := isObstructed;
    }

    method SetTargetState(value: int)
      modifies this, elk
      ensures State() == AfterSetTarget(old(State()), value)
      ensures elk.sent == old(elk.sent) + TargetCommands(old(State()), value, openOutput, closeOutput)
      ensures pushed == old(pushed) + TargetPushes(old(State()), value)
    {
      if value != currentState {
        targetState := value;
        if value == DOOR_OPEN {
          pushed := pushed + [Push(CurrentDoorState, HKInt(DOOR_OPENING))];
          elk.Issue(SetOutputOn(openOutput, 1));
        } else if value == DOOR_CLOSED {
          pushed := pushed + [Push(CurrentDoorState, HKInt(DOOR_CLOSING))];
          elk.Issue(SetOutputOn(closeOutput, 1));
        }
      }
    }

    method SetState(msg: ZoneMessage)
      modifies this
      ensures State() == AfterSetState(old(State()), msg)
      ensures pushed == old(pushed) + SetStatePushes(old(State()), msg)
    {
      var newDoorState := if msg.logicalState != "Normal" then DOOR_OPEN else DOOR_CLOSED;
      if currentState != newDoorState {
        currentState := newDoorState;
        targetState := newDoorState;
        pushed := pushed + [Push(CurrentDoorState, HKInt(currentState)),
                            Push(TargetDoorState, HKInt(currentState))];
      }
    }

    /** The door's own zone-change listener: the obstruction zone is checked
      first, the state zone second. */
    method OnZoneChange(msg: ZoneMessage)
      modifies this
      ensures State() == SelfRouted(old(State()), msg, stateZone, obstructionZone)
      ensures pushed == old(pushed) + SelfRoutedPushes(old(State()), msg, stateZone, obstructionZone)
    {
      if obstructionZone == Some(msg.id) {
        SetObstructionStatus(msg);
      } else if msg.id == stateZone {
        SetState(msg);
      }
    }
  }

  /** The effect of the door's own zone-change listener. */
  function SelfRouted(s: DoorState, msg: ZoneMessage, stateZone: nat, obstructionZone: Option<nat>): DoorState
  {
    if obstructionZone == Some(msg.id) then AfterSetObstruction(s, msg)
    else if msg.id == stateZone then AfterSetState(s, msg)
    else s
  }

  /** What the door's own zone-change listener tells HomeKit. */
  function SelfRoutedPushes(s: DoorState, msg: ZoneMessage, stateZone: nat, obstructionZone: Option<nat>): seq<Push>
  {
    if obstructionZone == Some(msg.id) then [Push(ObstructionDetected, HKBool(msg.logicalState != "Normal"))]
    else if msg.id == stateZone then SetStatePushes(s, msg)
    else []
  }

  /** The effect of the platform's routing loop on one door: the state zone is
      checked first, the obstruction zone second (the reverse order). */
  function PlatformRouted(s: DoorState, msg: ZoneMessage, stateZone: nat, obstructionZone: Option<nat>): DoorState
  {
    if msg.id == stateZone then AfterSetState(s, msg)
    else if obstructionZone == Some(msg.id) then AfterSetObstruction(s, msg)
    else s
  }

  /** A zone event reaches every door twice: first through the platform's loop,
      then through the door's own listener. When the two zones differ the second
      delivery changes nothing; when they coincide the door gets both the
      position and the obstruction update. An unrelated zone changes nothing. */
  lemma DoubleDelivery(s: DoorState, msg: ZoneMessage, stateZone: nat, obstructionZone: Option<nat>)
    ensures obstructionZone != Some(stateZone) ==>
      SelfRouted(PlatformRouted(s, msg, stateZone, obstructionZone), msg, stateZone, obstructionZone)
      == PlatformRouted(s, msg, stateZone, obstructionZone)
    ensures obstructionZone == Some(stateZone) && msg.id == stateZone ==>
      SelfRouted(PlatformRouted(s, msg, stateZone, obstructionZone), msg, stateZone, obstructionZone)
      == AfterSetObstruction(AfterSetState(s, msg), msg)
    ensures msg.id != stateZone && obstructionZone != Some(msg.id) ==>
      SelfRouted(PlatformRouted(s, msg, stateZone, obstructionZone), msg, stateZone, obstructionZone) == s
  {
    if obstructionZone != Some(stateZone) && msg.id == stateZone {
      SetStateIdempotent(s, msg);
    }
  }
}
