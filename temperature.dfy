/** The temperature sensor of src/accessories/ElkTemperature.ts: a zone
    temperature in Fahrenheit from the panel's temperature reply (LW), shown in
    Celsius rounded to one decimal. Celsius values are kept as whole tenths. */
module TemperatureAccessory {
  import opened ElkTypes

  /** `Math.round((f - 32) * 5 / 9 * 10)`, the Celsius reading in tenths: the
      one integer t with t/10 within half a tenth of the exact value, halves
      rounding up. Here that is 18t - 9 <= 100(f - 32) < 18t + 9. */
  function CelsiusTenths(f: int): (t: int)
    ensures 18 * t - 9 <= 100 * (f - 32) < 18 * t + 9
  {
    (100 * (f - 32) + 9) / 18
  }

  /** The shown value is within 0.05 degrees of the exact Celsius value (both
      sides scaled by 180), and no other tenth is closer. */
  lemma CelsiusTenthsNearest(f: int, u: int)
    ensures -9 <= 18 * CelsiusTenths(f) - 100 * (f - 32) <= 9
    ensures Abs(18 * CelsiusTenths(f) - 100 * (f - 32)) <= Abs(18 * u - 100 * (f - 32))
  {
  }

  function Abs(x: int): (r: nat)
    ensures r == x || r == -x
  {
    if x < 0 then -x else x
  }

  /** A warmer zone never shows a colder reading. */
  lemma {:induction false} CelsiusTenthsMonotonic(f: int, g: int)
    requires f <= g
    ensures CelsiusTenths(f) <= CelsiusTenths(g)
  {
    var t, u := CelsiusTenths(f), CelsiusTenths(g);
    assert 18 * t - 9 <= 100 * (f - 32) <= 100 * (g - 32) < 18 * u + 9;
  }

  /** Freezing, boiling and two everyday readings. */
  lemma CelsiusTenthsExamples()
    ensures CelsiusTenths(32) == 0
    ensures CelsiusTenths(212) == 1000
    ensures CelsiusTenths(75) == 239
    ensures CelsiusTenths(-40) == -400
  {
  }

  /** The value a temperature reply gives this zone: `zones[id - 1]` converted,
      or NaN when the reply has no such entry (undefined minus 32). */
  datatype Reading = Tenths(t: int) | NaN

  function ReadingFromReply(zones: seq<int>, id: int): (r: Reading)
    ensures r.Tenths? <==> 1 <= id <= |zones|
    ensures r.Tenths? ==> 18 * r.t - 9 <= 100 * (zones[id - 1] - 32) < 18 * r.t + 9
  {
    if 1 <= id <= |zones| then Tenths(CelsiusTenths(zones[id - 1])) else NaN
  }

  function ReadingValue(r: Reading): HKValue
  {
    match r
    case Tenths(t) => HKTenths(t)
    case NaN => HKNaN
  }

  class ElkTemperature {
    const elk: PanelLink
    const id: nat
    /** The device's name as given; undefined when the panel has none. */
    const name: Option<string>
    /** The name shown in HomeKit. */
    const itemName: string
    const serialNumber: string

    var currentTemperature: Reading
    /** The HomeKit side: every value pushed, in order. */
    var pushed: seq<Push>

    constructor (elk: PanelLink, id: nat, deviceName: Option<string>)
      ensures this.elk == elk && this.id == id && name == deviceName
      ensures itemName == ItemName(deviceName, "Temperature Sensor ", id)
      ensures serialNumber == Tagged("M1TZS-", id)
      ensures currentTemperature == Tenths(0) && pushed == []
    {
      this.elk := elk;
      this.id := id;
      name := deviceName;
      itemName := ItemName(deviceName, "Temperature Sensor ", id);
      serialNumber := Tagged("M1TZS-", id);
      currentTemperature := Tenths(0);
      pushed := [];
    }

    /** The temperature-reply (LW) listener: every reply sets and pushes a value. */
    method OnTemperatureReply(zones: seq<int>)
      modifies this
      ensures currentTemperature == ReadingFromReply(zones, id)
      ensures pushed == old(pushed) + [Push(CurrentTemperature, ReadingValue(currentTemperature))]
    {
      currentTemperature := ReadingFromReply(zones, id);
      pushed := pushed + [Push(CurrentTemperature, ReadingValue(currentTemperature))];
    }

    /** The get handler answers from the last reply, without asking the panel. */
    method GetCurrentTemperature() returns (r: Reading)
      ensures r == currentTemperature
    {
      r := currentTemperature;
    }
  }
}
