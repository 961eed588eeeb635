/** The accessories of the 1.x plugin (the files under lib/): contact, motion and smoke
    zones, outputs, tasks and garage doors. Each keeps its own fields, answers
    HomeKit's get and set calls from them, and takes panel messages through
    `setStatusFromMessage`. The rules differ from the dynamic platform's
    accessories in several places, each stated below. */
module LegacyAccessories {
  import opened ElkTypes

  /** Default naming of the motion, output and task accessories: an undefined
      or empty name becomes `<prefix><id>`. */
  function LegacyName(name: Option<string>, prefix: string, id: nat): string
  {
    if name.Some? && name.value != "" then name.value else Tagged(prefix, id)
  }

  /** `uuid_base` of each kind. Motion, output and task zones use the defaulted
      name; contact, smoke and garage zones use the name as given, rendered
      'undefined' when it is missing. */
  function ContactUuidBase(name: Option<string>): string { "contact" + Render(name) }
  function MotionUuidBase(id: nat, name: Option<string>): string { "Motion" + LegacyName(name, "Motion ", id) }
  function SmokeUuidBase(name: Option<string>): string { "smoke" + Render(name) }
  function OutputUuidBase(id: nat, name: Option<string>): string { "output" + LegacyName(name, "Output ", id) }
  function TaskUuidBase(id: nat, name: Option<string>): string { "task" + LegacyName(name, "Task ", id) }
  function GarageUuidBase(name: Option<string>): string { "garage" + Render(name) }

  /** Unnamed motion, output and task zones with distinct ids get distinct
      `uuid_base`s, while all unnamed contact zones share one, and so do all
      smoke zones named "". */
  lemma UnnamedUuidBases(a: nat, b: nat)
    requires a != b
    ensures MotionUuidBase(a, None) != MotionUuidBase(b, None)
    ensures OutputUuidBase(a, Some("")) != OutputUuidBase(b, Some(""))
    ensures TaskUuidBase(a, None) != TaskUuidBase(b, None)
    ensures ContactUuidBase(None) == "contactundefined"
    ensures SmokeUuidBase(Some("")) == "smoke"
  {
    DistinctAfterPrefix("Motion", "Motion ", a, b);
    DistinctAfterPrefix("output", "Output ", a, b);
    DistinctAfterPrefix("task", "Task ", a, b);
  }

  lemma DistinctAfterPrefix(p: string, prefix: string, a: nat, b: nat)
    requires a != b
    ensures p + Tagged(prefix, a) != p + Tagged(prefix, b)
  {
    if p + Tagged(prefix, a) == p + Tagged(prefix, b) {
      assert Tagged(prefix, a) == (p + Tagged(prefix, a))[|p|..];
      assert Tagged(prefix, b) == (p + Tagged(prefix, b))[|p|..];
      TaggedSamePrefix(prefix, a, b);
    }
  }

  // ---------------------------------------------------------------- contact zone

  /** lib/ElkContact.js reads `logicalStatus`, a field the panel's zone
      messages do not carry under that spelling: without it the contact reads
      closed whatever the zone does. */
  function ContactFromMessage(msg: ZoneMessage): bool
  {
    msg.logicalStatus == Some("Violated")
  }

  lemma ContactIgnoresLogicalState(msg: ZoneMessage, state: string, physical: string)
    requires msg.logicalStatus.None?
    ensures !ContactFromMessage(msg.(logicalState := state, physicalStatus := physical))
  {
  }

  class LegacyContact {
    const id: nat
    const name: Option<string>
    const uuidBase: string

    var contactState: bool
    var tamperedState: bool
    var pushed: seq<Push>

    constructor (id: nat, name: Option<string>)
      ensures this.id == id && this.name == name && uuidBase == ContactUuidBase(name)
      ensures !contactState && !tamperedState && pushed == []
    {
      this.id := id;
      this.name := name;
      uuidBase := ContactUuidBase(name);
      contactState := false;
      tamperedState := false;
      pushed := [];
    }

    method GetContact() returns (v: bool)
      ensures v == contactState
    {
      v := contactState;
    }

    /** Nothing ever sets the tamper field. */
    method GetTampered() returns (v: bool)
      ensures v == tamperedState
    {
      v := tamperedState;
    }

    method SetStatusFromMessage(msg: ZoneMessage)
      modifies this`contactState, this`pushed
      ensures contactState == ContactFromMessage(msg)
      ensures pushed == old(pushed) + [Push(ContactSensorState, HKBool(contactState))]
    {
      contactState := msg.logicalStatus == Some("Violated");
      pushed := pushed + [Push(ContactSensorState, HKBool(contactState))];
    }
  }

  // ---------------------------------------------------------------- motion zone

  class LegacyMotion {
    const id: nat
    const name: string
    const uuidBase: string

    var motionState: bool
    var tamperedState: bool
    var pushed: seq<Push>

    constructor (id: nat, deviceName: Option<string>)
      ensures this.id == id && name == LegacyName(deviceName, "Motion ", id) && uuidBase == MotionUuidBase(id, deviceName)
      ensures !motionState && !tamperedState && pushed == []
    {
      this.id := id;
      name := LegacyName(deviceName, "Motion ", id);
      uuidBase := MotionUuidBase(id, deviceName);
      motionState := false;
      tamperedState := false;
      pushed := [];
    }

    method GetMotion() returns (v: bool)
      ensures v == motionState
    {
      v := motionState;
    }

    method GetTampered() returns (v: bool)
      ensures v == tamperedState
    {
      v := tamperedState;
    }

    /** Motion is any logical state other than 'Normal'. */
    method SetStatusFromMessage(msg: ZoneMessage)
      modifies this`motionState, this`pushed
      ensures motionState <==> msg.logicalState != "Normal"
      ensures pushed == old(pushed) + [Push(MotionDetected, HKBool(motionState))]
    {
      motionState := msg.logicalState != "Normal";
      pushed := pushed + [Push(MotionDetected, HKBool(motionState))];
    }
  }

  // ---------------------------------------------------------------- smoke zone

  /** The smoke zone's display name: "" becomes `Contact <id>`; an undefined
      name stays undefined. */
  function SmokeName(name: Option<string>, id: nat): Option<string>
  {
    if name == Some("") then Some(Tagged("Contact ", id)) else name
  }

  class LegacySmoke {
    const id: nat
    const name: Option<string>
    const uuidBase: string

    /** Set once and never written again. */
    const smokeState := false
    const tamperedState := false
    /** Written by every message; undefined before the first. */
    var motionState: Option<bool>
    var pushed: seq<Push>

    constructor (id: nat, deviceName: Option<string>)
      ensures this.id == id && name == SmokeName(deviceName, id) && uuidBase == SmokeUuidBase(deviceName)
      ensures motionState.None? && pushed == []
    {
      this.id := id;
      name := SmokeName(deviceName, id);
      uuidBase := SmokeUuidBase(deviceName);
      motionState := None;
      pushed := [];
    }

    /** The get handler never reports smoke. */
    method GetSmoke() returns (v: bool)
      ensures !v && v == smokeState
    {
      v := smokeState;
    }

    method GetTampered() returns (v: bool)
      ensures !v && v == tamperedState
    {
      v := tamperedState;
    }

    /** The message is stored in `motionState`, and the value pushed is
      `smokeState`, which is always false. */
    method SetStatusFromMessage(msg: ZoneMessage)
      modifies this`motionState, this`pushed
      ensures motionState == Some(msg.logicalState != "Normal")
      ensures pushed == old(pushed) + [Push(SmokeDetected, HKBool(false))]
    {
      motionState := Some(msg.logicalState != "Normal");
      pushed := pushed + [Push(SmokeDetected, HKBool(smokeState))];
    }
  }

  // ---------------------------------------------------------------- output

  /** What the set handler sends: a command only when the requested value
      differs from the cached one, which the handler itself never updates. */
  function LegacyOutputCommands(id: nat, cached: bool, requested: bool): (cs: seq<Command>)
    ensures |cs| <= 1
    ensures cs != [] <==> requested != cached
    ensures cs != [] ==> cs[0] == if requested then SetOutputOn(id, 0) else SetOutputOff(id)
  {
    if requested == cached then []
    else if requested then [SetOutputOn(id, 0)]
    else [SetOutputOff(id)]
  }

  class LegacyOutput {
    const elk: PanelLink
    const id: nat
    const name: string
    const uuidBase: string

    var outputState: bool
    var pushed: seq<Push>

    constructor (elk: PanelLink, id: nat, deviceName: Option<string>)
      ensures this.elk == elk && this.id == id
      ensures name == LegacyName(deviceName, "Output ", id) && uuidBase == OutputUuidBase(id, deviceName)
      ensures !outputState && pushed == []
    {
      this.elk := elk;
      this.id := id;
      name := LegacyName(deviceName, "Output ", id);
      uuidBase := OutputUuidBase(id, deviceName);
      outputState := false;
      pushed := [];
    }

    method GetOn() returns (v: bool)
      ensures v == outputState
    {
      v := outputState;
    }

    /** The set handler; the callback echoes the requested value. Since the
      cached value stays as it was, the same request made twice sends its
      command twice until a CC message reports the change. */
    method SetOn(requested: bool) returns (reported: bool)
      modifies elk
      ensures reported == requested
      ensures elk.sent == old(elk.sent) + LegacyOutputCommands(id, outputState, requested)
    {
      if requested != outputState {
        if requested {
          elk.Issue(SetOutputOn(id, 0));
        } else {
          elk.Issue(SetOutputOff(id));
        }
      }
      reported := requested;
    }

    method SetStatusFromMessage(msg: OutputChange)
      modifies this`outputState, this`pushed
      ensures outputState <==> msg.state == "On"
      ensures pushed == old(pushed) + [Push(On, HKBool(outputState))]
    {
      outputState := msg.state == "On";
      pushed := pushed + [Push(On, HKBool(outputState))];
    }
  }

  // ---------------------------------------------------------------- task

  class LegacyTask {
    const elk: PanelLink
    const id: nat
    const name: string
    const uuidBase: string

    /** Timers armed by the set handler and not yet fired. */
    var pendingResets: nat
    var pushed: seq<Push>
    ghost var activations: nat

    /** Every activation is switched back off once: by a push already made or
      by a timer still pending; and the only value pushed is off. */
    ghost predicate Valid()
      reads this`pendingResets, this`pushed, this`activations
    {
      activations == |pushed| + pendingResets
      && forall i :: 0 <= i < |pushed| ==> pushed[i] == Push(On, HKBool(false))
    }

    constructor (elk: PanelLink, id: nat, deviceName: Option<string>)
      ensures this.elk == elk && this.id == id
      ensures name == LegacyName(deviceName, "Task ", id) && uuidBase == TaskUuidBase(id, deviceName)
      ensures Valid() && pendingResets == 0 && pushed == [] && activations == 0
    {
      this.elk := elk;
      this.id := id;
      name := LegacyName(deviceName, "Task ", id);
      uuidBase := TaskUuidBase(id, deviceName);
      pendingResets := 0;
      pushed := [];
      activations := 0;
    }

    method GetOn() returns (v: bool)
      ensures !v
    {
      v := false;
    }

    /** A truthy request runs the task and arms the reset; the callback always
      reports true. */
    method SetOn(requested: bool) returns (reported: bool)
      requires Valid()
      modifies this`pendingResets, this`activations, elk
      ensures Valid() && reported
      ensures elk.sent == old(elk.sent) + (if requested then [ActivateTask(id)] else [])
      ensures pendingResets == old(pendingResets) + (if requested then 1 else 0)
    {
      if requested {
        elk.Issue(ActivateTask(id));
        pendingResets := pendingResets + 1;
        activations := activations + 1;
      }
      reported := true;
    }

    method FireReset()
      requires Valid() && pendingResets > 0
      modifies this`pendingResets, this`pushed
      ensures Valid()
      ensures pendingResets == old(pendingResets) - 1
      ensures pushed == old(pushed) + [Push(On, HKBool(false))]
    {
      pendingResets := pendingResets - 1;
      pushed := pushed + [Push(On, HKBool(false))];
    }
  }

  // ---------------------------------------------------------------- garage door

  datatype LegacyDoorState = LegacyDoorState(current: int, target: int)

  /** Door state from a zone message: open exactly when the zone is physically
      'Violated'; current and target move together, and only on a change. */
  function AfterDoorMessage(s: LegacyDoorState, msg: ZoneMessage): LegacyDoorState
  {
    var d := if msg.physicalStatus == "Violated" then DOOR_OPEN else DOOR_CLOSED;
    if s.current != d then LegacyDoorState(d, d) else s
  }

  /** After a message the door shows open or closed according to the physical
      status alone, and a repeated message changes nothing. A message that
      confirms the current state leaves the target alone, so a request the
      door never carried out stays the target until the state changes. */
  lemma {:induction false} DoorMessageSpec(s: LegacyDoorState, msg: ZoneMessage, other: ZoneMessage)
    requires other.physicalStatus == msg.physicalStatus
    ensures var r := AfterDoorMessage(s, msg);
      (r.current == DOOR_OPEN <==> msg.physicalStatus == "Violated")
      && (r.current == DOOR_CLOSED <==> msg.physicalStatus != "Violated")
      && (r.current != s.current ==> r.target == r.current)
      && (r.current == s.current ==> r == s)
      && AfterDoorMessage(r, other) == r
  {
    var r := AfterDoorMessage(s, msg);
    assert r.current == if msg.physicalStatus == "Violated" then DOOR_OPEN else DOOR_CLOSED;
  }

  /** The pushes a message makes: both characteristics, only on a change. */
  function DoorMessagePushes(s: LegacyDoorState, msg: ZoneMessage): seq<Push>
  {
    var r := AfterDoorMessage(s, msg);
    if r != s then [Push(CurrentDoorState, HKInt(r.current)), Push(TargetDoorState, HKInt(r.target))] else []
  }

  /** The relay the set handler pulses, if any: the open relay for OPEN, the
      close relay for CLOSED, nothing when the request equals the current
      state or is any other value. */
  function PulsedRelay(s: LegacyDoorState, requested: int, openOutput: nat, closeOutput: nat): Option<nat>
  {
    if requested == s.current then None
    else if requested == DOOR_OPEN then Some(openOutput)
    else if requested == DOOR_CLOSED then Some(closeOutput)
    else None
  }

  function AfterSetTarget(s: LegacyDoorState, requested: int): LegacyDoorState
  {
    if requested != s.current then s.(target := requested) else s
  }

  function SetTargetPushes(s: LegacyDoorState, requested: int): seq<Push>
  {
    if requested == s.current then []
    else if requested == DOOR_OPEN then [Push(CurrentDoorState, HKInt(DOOR_OPENING))]
    else if requested == DOOR_CLOSED then [Push(CurrentDoorState, HKInt(DOOR_CLOSING))]
    else []
  }

  /** The set handler never changes the current state, so a request repeated
      before the panel reports the door moving pulses the relay again; a
      request equal to the current state pulses nothing. */
  lemma {:induction false} SetTargetSpec(s: LegacyDoorState, requested: int, openOutput: nat, closeOutput: nat)
    ensures AfterSetTarget(s, requested).current == s.current
    ensures requested == s.current ==> AfterSetTarget(s, requested) == s && PulsedRelay(s, requested, openOutput, closeOutput).None?
    ensures requested != s.current ==> AfterSetTarget(s, requested).target == requested
    ensures PulsedRelay(AfterSetTarget(s, requested), requested, openOutput, closeOutput)
         == PulsedRelay(s, requested, openOutput, closeOutput)
    ensures PulsedRelay(s, requested, openOutput, closeOutput).Some? <==>
      requested != s.current && (requested == DOOR_OPEN || requested == DOOR_CLOSED)
  {
    var t := AfterSetTarget(s, requested);
    assert t.current == s.current;
  }

  class LegacyGarageDoor {
    const elk: PanelLink
    /** The door's id is its state zone. */
    const id: Option<nat>
    const openOutput: nat
    const closeOutput: nat
    const name: Option<string>
    const uuidBase: string

    var currentState: int
    var targetState: int
    /** Relays pulsed on and waiting for their one-second switch-off, oldest first. */
    var pendingOff: seq<nat>
    var pushed: seq<Push>

    function State(): LegacyDoorState
      reads this`currentState, this`targetState
    {
      LegacyDoorState(currentState, targetState)
    }

    /** Only this door's two relays are ever waiting to be switched off. */
    ghost predicate Valid()
      reads this`pendingOff
    {
      forall i :: 0 <= i < |pendingOff| ==> pendingOff[i] == openOutput || pendingOff[i] == closeOutput
    }

    constructor (elk: PanelLink, config: GarageDoorConfig)
      ensures this.elk == elk && id == config.stateZone && name == config.name
      ensures openOutput == config.openOutput && closeOutput == config.closeOutput
      ensures uuidBase == GarageUuidBase(config.name)
      ensures State() == LegacyDoorState(DOOR_CLOSED, DOOR_CLOSED) && Valid() && pendingOff == []
      ensures pushed == [Push(CurrentDoorState, HKInt(DOOR_CLOSED)), Push(TargetDoorState, HKInt(DOOR_CLOSED))]
    {
      this.elk := elk;
      id := config.stateZone;
      openOutput := config.openOutput;
      closeOutput := config.closeOutput;
      name := config.name;
      uuidBase := GarageUuidBase(config.name);
      targetState := DOOR_CLOSED;
      currentState := DOOR_CLOSED;
      pendingOff := [];
      pushed := [Push(CurrentDoorState, HKInt(DOOR_CLOSED)), Push(TargetDoorState, HKInt(DOOR_CLOSED))];
    }

    method GetCurrentState() returns (v: int)
      ensures v == currentState
    {
      v := currentState;
    }

    method GetTargetState() returns (v: int)
      ensures v == targetState
    {
      v := targetState;
    }

    /** The set handler: the requested relay is switched on at once and off a
      second later; the callback echoes the request. */
    method SetTargetState(requested: int) returns (reported: int)
      requires Valid()
      modifies this`targetState, this`pendingOff, this`pushed, elk
      ensures Valid() && reported == requested
      ensures State() == AfterSetTarget(old(State()), requested)
      ensures var relay := PulsedRelay(old(State()), requested, openOutput, closeOutput);
        elk.sent == old(elk.sent) + (if relay.Some? then [SetOutputOn(relay.value, 0)] else [])
        && pendingOff == old(pendingOff) + (if relay.Some? then [relay.value] else [])
      ensures pushed == old(pushed) + SetTargetPushes(old(State()), requested)
    {
      if requested != currentState {
        targetState := requested;
        if requested == DOOR_OPEN {
          pushed := pushed + [Push(CurrentDoorState, HKInt(DOOR_OPENING))];
          elk.Issue(SetOutputOn(openOutput, 0));
          pendingOff := pendingOff + [openOutput];
        } else if requested == DOOR_CLOSED {
          pushed := pushed + [Push(CurrentDoorState, HKInt(DOOR_CLOSING))];
          elk.Issue(SetOutputOn(closeOutput, 0));
          pendingOff := pendingOff + [closeOutput];
        }
      }
      reported := requested;
    }

    /** The oldest relay timer fires and switches its relay off. */
    method FireRelayOff()
      requires Valid() && |pendingOff| > 0
      modifies this`pendingOff, elk
      ensures Valid()
      ensures old(pendingOff)[0] == openOutput || old(pendingOff)[0] == closeOutput
      ensures elk.sent == old(elk.sent) + [SetOutputOff(old(pendingOff)[0])]
      ensures pendingOff == old(pendingOff)[1..]
    {
      elk.Issue(SetOutputOff(pendingOff[0]));
      pendingOff := pendingOff[1..];
    }

    method SetStatusFromMessage(msg: ZoneMessage)
      modifies this`currentState, this`targetState, this`pushed
      ensures State() == AfterDoorMessage(old(State()), msg)
      ensures pushed == old(pushed) + DoorMessagePushes(old(State()), msg)
    {
      var newDoorState := if msg.physicalStatus == "Violated" then DOOR_OPEN else DOOR_CLOSED;
      if currentState != newDoorState {
        currentState := newDoorState;
        targetState := newDoorState;
        pushed := pushed + [Push(CurrentDoorState, HKInt(newDoorState)), Push(TargetDoorState, HKInt(newDoorState))];
      }
    }
  }
}
