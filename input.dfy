/** The binary-input accessory of src/accessories/ElkInput.ts: one shape for
    contact, motion, smoke, CO, CO2 and leak zones, parametrised by the
    subclass's identity tag and the characteristic its `updateContactState`
    writes. */
module InputAccessory {
  import opened ElkTypes

  /** The TamperType enum as ElkInput.ts declares it. src/types/types.ts declares
      the same enum with the spellings 'none', 'no', 'nc'. */
  const TamperNone := "None"
  const TamperNormallyOpen := "NO"
  const TamperNormallyClosed := "NC"

  /** The zone kinds handled by subclasses of ElkInput. */
  datatype InputKind = ContactInput | MotionInput | SmokeInput | COInput | CO2Input | LeakInput

  /** The subclass's static INPUT_TYPE. Only ElkCO2 and ElkLeak declare one;
      for the others the property is undefined. */
  function InputTypeOf(k: InputKind): Option<string>
  {
    match k
    case CO2Input => Some("CO2")
    case LeakInput => Some("Leak")
    case _ => None
  }

  /** The characteristic the subclass's `updateContactState` pushes. ElkContact
      keeps the base class's ContactSensorState. */
  function ContactCharacteristicOf(k: InputKind): Characteristic
  {
    match k
    case ContactInput => ContactSensorState
    case MotionInput => MotionDetected
    case SmokeInput => SmokeDetected
    case COInput => CarbonMonoxideDetected
    case CO2Input => CarbonDioxideDetected
    case LeakInput => LeakDetected
  }

  /** Whether the subclass's constructor creates its HAP service. ElkCO2 and
      ElkLeak create theirs in an `initializeService` that nothing calls, so
      their `service` stays null and the first characteristic update throws. */
  predicate HasService(k: InputKind)
  {
    !(k.CO2Input? || k.LeakInput?)
  }

  /** A zone is active exactly when its logical state is not 'Normal'. */
  predicate IsActive(msg: ZoneMessage)
  {
    msg.logicalState != "Normal"
  }

  /** The tamper flag after a message. A tamper type outside the three enum
      values matches no case of the switch, so the flag keeps its old value. */
  function TamperAfter(tamperType: string, physicalStatus: string, previous: bool): (r: bool)
    ensures tamperType == TamperNone ==> !r
    ensures tamperType == TamperNormallyClosed ==> (r <==> physicalStatus == "Short")
    ensures tamperType == TamperNormallyOpen ==> (r <==> physicalStatus == "Open")
    ensures (tamperType != TamperNone && tamperType != TamperNormallyClosed &&
             tamperType != TamperNormallyOpen) ==> r == previous
  {
    if tamperType == TamperNone then false
    else if tamperType == TamperNormallyClosed then physicalStatus == "Short"
    else if tamperType == TamperNormallyOpen then physicalStatus == "Open"
    else previous
  }

  /** The two fields of the `contactState` object. */
  datatype InputState = InputState(active: bool, tampered: bool)

  /** What one `setStatusFromMessage` makes of the state. */
  function Receive(s: InputState, tamperType: string, msg: ZoneMessage): (r: InputState)
    ensures r.active <==> msg.logicalState != "Normal"
    ensures r.tampered == TamperAfter(tamperType, msg.physicalStatus, s.tampered)
  {
    InputState(IsActive(msg), TamperAfter(tamperType, msg.physicalStatus, s.tampered))
  }

  /** Delivering the same message twice leaves the state a single delivery leaves. */
  lemma ReceiveIdempotent(s: InputState, tamperType: string, msg: ZoneMessage)
    ensures Receive(Receive(s, tamperType, msg), tamperType, msg) == Receive(s, tamperType, msg)
  {
  }

  /** With a tamper type spelt as src/types/types.ts spells it, no case of the
      switch matches and the tamper flag never changes. */
  lemma ConfigSpellingNeverTampers(s: InputState, tamperType: string, msg: ZoneMessage)
    requires tamperType == "none" || tamperType == "no" || tamperType == "nc"
    ensures Receive(s, tamperType, msg).tampered == s.tampered
  {
  }

  /** The state a message leaves depends on the old state only through a tamper
      type outside the enum: with an enum tamper type, the message alone decides. */
  lemma ReceiveForgetsHistory(s: InputState, t: InputState, tamperType: string, msg: ZoneMessage)
    requires tamperType == TamperNone || tamperType == TamperNormallyOpen || tamperType == TamperNormallyClosed
    ensures Receive(s, tamperType, msg) == Receive(t, tamperType, msg)
  {
  }

  // ---------------------------------------------------------------- serial number

  /** JavaScript `s.padStart(len, fill)` for a one-character fill. */
  function PadStart(s: string, len: nat, fill: char): (r: string)
    ensures |r| == if |s| >= len then |s| else len
    ensures r[|r| - |s|..] == s
    ensures forall i :: 0 <= i < |r| - |s| ==> r[i] == fill
  {
    if |s| >= len then s else seq(len - |s|, _ => fill) + s
  }

  /** The serial number an input accessory reports: its id, zero-padded to four characters. */
  function SerialNumber(id: nat): string
  {
    PadStart(Decimal(id), 4, '0')
  }

  /** The serial number is at least four characters long, ends with the id's
      decimal text, is zero before it, and tells distinct ids apart. */
  lemma SerialNumberShape(id: nat, other: nat)
    ensures |SerialNumber(id)| == if |Decimal(id)| >= 4 then |Decimal(id)| else 4
    ensures SerialNumber(id)[|SerialNumber(id)| - |Decimal(id)|..] == Decimal(id)
    ensures forall i :: 0 <= i < |SerialNumber(id)| - |Decimal(id)| ==> SerialNumber(id)[i] == '0'
    ensures id != other ==> SerialNumber(id) != SerialNumber(other)
  {
    if id != other && SerialNumber(id) == SerialNumber(other) {
      PaddedDecimalInjective(id, other);
    }
  }

  lemma {:induction false} PaddedDecimalInjective(a: nat, b: nat)
    requires SerialNumber(a) == SerialNumber(b)
    ensures a == b
  {
    var s := SerialNumber(a);
    var da, db := Decimal(a), Decimal(b);
    if |da| == |db| {
      assert da == s[|s| - |da|..] == db;
      DecimalInjective(a, b);
    } else if |da| < |db| {
      // the shorter text is preceded by a '0' that the longer one must start with
      LeadingDigitNotZero(b);
      assert false;
    } else {
      LeadingDigitNotZero(a);
      assert false;
    }
  }

  /** Only the one-digit text "0" starts with '0'. */
  lemma {:induction false} LeadingDigitNotZero(n: nat)
    requires |Decimal(n)| > 1
    ensures Decimal(n)[0] != '0'
    decreases n
  {
    if n / 10 >= 10 {
      LeadingDigitNotZero(n / 10);
    }
    assert Decimal(n)[0] == Decimal(n / 10)[0];
  }

  // ---------------------------------------------------------------- the accessory

  class ElkInput {
    const id: nat
    /** The subclass's static INPUT_TYPE. */
    const inputType: Option<string>
    /** The characteristic the subclass's `updateContactState` writes. */
    const contactCharacteristic: Characteristic
    const serialNumber: string
    /** The subclass the input was created as. */
    const kind: InputKind

    var contactState: bool
    var tamperState: bool
    /** Public field; the constructor never sets it from the accessory context. */
    var tamperType: string
    /** The HomeKit side: every characteristic pushed, in order. */
    var pushed: seq<Push>

    function State(): InputState
      reads this
    {
      InputState(contactState, tamperState)
    }

    constructor (id: nat, kind: InputKind)
      ensures this.id == id && inputType == InputTypeOf(kind)
      ensures contactCharacteristic == ContactCharacteristicOf(kind)
      ensures serialNumber == SerialNumber(id)
      ensures this.kind == kind
      ensures State() == InputState(false, false) && tamperType == TamperNone && pushed == []
    {
      this.id := id;
      inputType := InputTypeOf(kind);
      contactCharacteristic := ContactCharacteristicOf(kind);
      serialNumber := SerialNumber(id);
      this.kind := kind;
      contactState, tamperState := false, false;
      tamperType := TamperNone;
      pushed := [];
    }

    /** Whether `service` was set by the constructor, or stays null. */
    predicate HasServiceSet()
    {
      HasService(kind)
    }

    /** The contact getter returns the stored flag and changes nothing. */
    method GetContact() returns (v: bool)
      ensures v == contactState
    {
      v := contactState;
    }

    /** The tamper getter returns the stored flag and changes nothing. */
    method GetTamper() returns (v: bool)
      ensures v == tamperState
    {
      v := tamperState;
    }

    /** Overwrites both flags from one message and pushes both to HomeKit.
      Without a service the first push throws: the flags are already
      overwritten, and nothing reaches HomeKit. */
    method SetStatusFromMessage(msg: ZoneMessage) returns (threw: bool)
      modifies this
      ensures threw <==> !HasServiceSet()
      ensures State() == Receive(old(State()), tamperType, msg)
      ensures tamperType == old(tamperType)
      ensures pushed == old(pushed) + if threw then [] else [Push(contactCharacteristic, HKBool(contactState)),
                                                            Push(StatusTampered, HKBool(tamperState))]
    {
      contactState := "Normal" != msg.logicalState;
      if tamperType == TamperNone {
        tamperState := false;
      } else if tamperType == TamperNormallyClosed {
        tamperState := "Short" == msg.physicalStatus;
      } else if tamperType == TamperNormallyOpen {
        tamperState := "Open" == msg.physicalStatus;
      }
      if !HasServiceSet() {
        return true;
      }
      pushed := pushed + [Push(contactCharacteristic, HKBool(contactState))];
      pushed := pushed + [Push(StatusTampered, HKBool(tamperState))];
      return false;
    }

    /** An assignment to the public `tamperType` field from outside the class. */
    method SetTamperType(t: string)
      modifies this
      ensures tamperType == t && State() == old(State()) && pushed == old(pushed)
    {
      tamperType := t;
    }
  }
}
