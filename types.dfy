/** Shared vocabulary of the Elk M1 bridge: configuration records, panel messages,
    the command log that stands for the panel link, HomeKit Accessory Protocol codes,
    and the JavaScript string renderings the bridge relies on. */
module ElkTypes {

  datatype Option<T> = None | Some(value: T)

  /** JavaScript `${x}` of a possibly-undefined string. */
  function Render(s: Option<string>): string
  {
    match s
    case None => "undefined"
    case Some(v) => v
  }

  // ---------------------------------------------------------------- decimal text

  function DigitChar(d: nat): (c: char)
    requires d < 10
    ensures '0' <= c <= '9'
  {
    (48 + d) as char
  }

  predicate IsDigit(c: char)
  {
    '0' <= c <= '9'
  }

  /** `${n}` for a non-negative integer: its decimal digits, most significant first. */
  function Decimal(n: nat): (s: string)
    ensures |s| >= 1
    ensures forall i :: 0 <= i < |s| ==> IsDigit(s[i])
    ensures n < 10 <==> |s| == 1
    decreases n
  {
    if n < 10 then [DigitChar(n)] else Decimal(n / 10) + [DigitChar(n % 10)]
  }

  /** Distinct numbers have distinct decimal texts. */
  lemma {:induction false} DecimalInjective(a: nat, b: nat)
    requires Decimal(a) == Decimal(b)
    ensures a == b
  {
    if a >= 10 && b >= 10 {
      var da, db := Decimal(a), Decimal(b);
      assert da[|da| - 1] == DigitChar(a % 10);
      assert db[|db| - 1] == DigitChar(b % 10);
      assert Decimal(a / 10) == da[..|da| - 1];
      assert Decimal(b / 10) == db[..|db| - 1];
      DecimalInjective(a / 10, b / 10);
    } else if a < 10 && b < 10 {
      assert Decimal(a)[0] == DigitChar(a);
      assert Decimal(b)[0] == DigitChar(b);
    }
  }

  /** `prefix + ${n}` as built for accessory identities and default names. */
  function Tagged(prefix: string, n: nat): string
  {
    prefix + Decimal(n)
  }

  /** With one fixed prefix, the tagged text determines the number. */
  lemma TaggedSamePrefix(p: string, a: nat, b: nat)
    requires Tagged(p, a) == Tagged(p, b)
    ensures a == b
  {
    assert Decimal(a) == Tagged(p, a)[|p|..];
    assert Decimal(b) == Tagged(p, b)[|p|..];
    DecimalInjective(a, b);
  }

  /** Two prefixes that each end in a non-digit never produce the same tagged text
      unless both the prefixes and the numbers agree. */
  lemma TaggedInjective(p: string, a: nat, q: string, b: nat)
    requires |p| > 0 && !IsDigit(p[|p| - 1])
    requires |q| > 0 && !IsDigit(q[|q| - 1])
    requires Tagged(p, a) == Tagged(q, b)
    ensures p == q && a == b
  {
    var t := Tagged(p, a);
    if |p| == |q| {
      assert p == t[..|p|] == q;
      TaggedSamePrefix(p, a, b);
    } else if |p| < |q| {
      DigitAfterPrefix(p, a, |q| - 1);
      assert false;
    } else {
      DigitAfterPrefix(q, b, |p| - 1);
      assert false;
    }
  }

  lemma DigitAfterPrefix(p: string, a: nat, k: int)
    requires |p| <= k < |Tagged(p, a)|
    ensures IsDigit(Tagged(p, a)[k])
  {
    assert Tagged(p, a)[k] == Decimal(a)[k - |p|];
  }

  /** The display name of a discovered item: the panel's text when it has one,
      `prefix ${id}` when the name is undefined. An empty text is kept. */
  function ItemName(name: Option<string>, prefix: string, id: nat): (r: string)
    ensures name.Some? ==> r == name.value
    ensures name.None? ==> |r| > |prefix| && r[..|prefix|] == prefix && r[|prefix|..] == Decimal(id)
  {
    if name.Some? then name.value else Tagged(prefix, id)
  }

  /** Two unnamed items with the same prefix get distinct default names. */
  lemma DefaultNamesDistinct(prefix: string, a: nat, b: nat)
    requires a != b
    ensures ItemName(None, prefix, a) != ItemName(None, prefix, b)
  {
    if ItemName(None, prefix, a) == ItemName(None, prefix, b) {
      TaggedSamePrefix(prefix, a, b);
    }
  }

  // ---------------------------------------------------------------- configuration

  /** One entry of the `areas` list: an area number and its keypad code. */
  datatype AreaConfig = AreaConfig(area: nat, keypadCode: string)

  /** One entry of the `zoneTypes` list. `zoneType` and `tamperType` are the raw
      configuration strings ('contact', 'garage', 'nc', ...). */
  datatype ZoneConfig = ZoneConfig(zoneNumber: nat, zoneType: string, tamperType: Option<string>)

  /** One entry of the `garageDoors` list. */
  datatype GarageDoorConfig = GarageDoorConfig(
    stateZone: Option<nat>,
    obstructionZone: Option<nat>,
    openOutput: nat,
    closeOutput: nat,
    name: Option<string>)

  /** The values of ElkZoneType in src/types/types.ts. */
  const ZoneTypeContact := "contact"
  const ZoneTypeCO2 := "co2"
  const ZoneTypeCO := "co"
  const ZoneTypeLeak := "leak"
  const ZoneTypeMotion := "motion"
  const ZoneTypeSmoke := "smoke"
  const ZoneTypeGarage := "garage"
  const ZoneTypeTemperature := "temperature"

  // ---------------------------------------------------------------- panel messages

  /** A zone-change (ZC) event, or one entry of a zone status report.
      `logicalStatus` is a property of that exact spelling, absent from the
      panel's messages unless the panel library supplies it. */
  datatype ZoneMessage = ZoneMessage(
    id: nat,
    logicalState: string,
    physicalStatus: string,
    logicalStatus: Option<string>)

  /** An output-change (CC) event. */
  datatype OutputChange = OutputChange(id: int, state: string)

  /** One area of an arming-status (AS) event or reply. */
  datatype AreaStatus = AreaStatus(armStatus: string, alarmState: string)

  /** One entry of a text-description reply. */
  datatype TextDescription = TextDescription(id: nat, description: string)

  /** A HomeKit characteristic value handed to a set handler: the
      `CharacteristicValue` union of booleans, numbers and strings. */
  datatype CharValue = CBool(b: bool) | CNum(n: int) | CStr(s: string)

  /** JavaScript `${value}` === 'true'. */
  predicate IsTrueText(v: CharValue)
  {
    match v
    case CBool(b) => b
    case CNum(_) => false
    case CStr(s) => s == "true"
  }

  // ---------------------------------------------------------------- panel link

  /** What the bridge asks of the panel link, in the order it asks. */
  datatype Command =
    | Connect
    | Disconnect
    | RequestZoneStatusReport
    | RequestTextDescription(item: int, kind: int)
    | RequestTextDescriptionAll(kind: int)
    | RequestArmingStatus
    | RequestOutputStatusReport
    | RequestTemperature
    | Arm(area: int, mode: Option<int>, keypadCode: string)
    | SetOutputOn(output: int, duration: int)
    | SetOutputOff(output: int)
    | ActivateTask(task: int)

  /** The panel session as the core sees it: the log of commands issued on it.
      Replies and events are supplied to the handlers as arguments. */
  class PanelLink {
    var sent: seq<Command>

    constructor ()
      ensures sent == []
    {
      sent := [];
    }

    method Issue(c: Command)
      modifies this
      ensures sent == old(sent) + [c]
    {
      sent := sent + [c];
    }
  }

  // ---------------------------------------------------------------- HomeKit side

  /** Codes of the HomeKit Accessory Protocol used by the bridge. */
  const DOOR_OPEN := 0
  const DOOR_CLOSED := 1
  const DOOR_OPENING := 2
  const DOOR_CLOSING := 3

  const SECURITY_STAY := 0
  const SECURITY_AWAY := 1
  const SECURITY_NIGHT := 2
  const SECURITY_DISARMED := 3
  const SECURITY_ALARM_TRIGGERED := 4

  datatype Characteristic =
    | ContactSensorState | MotionDetected | SmokeDetected | CarbonMonoxideDetected
    | CarbonDioxideDetected | LeakDetected | StatusTampered
    | CurrentDoorState | TargetDoorState | ObstructionDetected
    | SecuritySystemCurrentState | SecuritySystemTargetState
    | On | CurrentTemperature

  /** A value pushed to HomeKit. `HKUndefined` is JavaScript's undefined,
      `HKNaN` a temperature computed from a missing reading. */
  datatype HKValue = HKBool(b: bool) | HKInt(i: int) | HKTenths(t: int) | HKNaN | HKUndefined

  /** One `updateCharacteristic`/`setCharacteristic` call. */
  datatype Push = Push(characteristic: Characteristic, value: HKValue)

  function HKOption(v: Option<int>): HKValue
  {
    match v
    case None => HKUndefined
    case Some(i) => HKInt(i)
  }
}
