/** The value-level rules of the platform in src/platform.ts: configuration
    normalisation into lookup tables, accessory identity strings, the
    upsert-by-UUID registry, discovery selection, and the connection retry
    schedule. The class that applies them is in module Platform. */
module PlatformConfig {
  import opened ElkTypes
  import opened InputAccessory

  // ---------------------------------------------------------------- lookup tables

  /** A table built from a list, one entry per key, a later element overwriting
      an earlier one with the same key (`Object.fromEntries` over a `map`, and
      the `forEach` assignment loops). */
  function KeyedLastWins<T, K, V>(xs: seq<T>, key: T -> K, val: T -> V): map<K, V>
    decreases |xs|
  {
    if xs == [] then map[]
    else KeyedLastWins(xs[..|xs| - 1], key, val)[key(xs[|xs| - 1]) := val(xs[|xs| - 1])]
  }

  /** A key is in the table exactly when some element has it, and its value is
      that of the LAST element with that key. */
  lemma {:induction false} KeyedLastWinsSpec<T, K, V>(xs: seq<T>, key: T -> K, val: T -> V, k: K)
    ensures k in KeyedLastWins(xs, key, val) <==> exists i :: 0 <= i < |xs| && key(xs[i]) == k
    ensures k in KeyedLastWins(xs, key, val) ==>
      exists j :: 0 <= j < |xs| && key(xs[j]) == k && KeyedLastWins(xs, key, val)[k] == val(xs[j])
        && forall i :: j < i < |xs| ==> key(xs[i]) != k
    decreases |xs|
  {
    if xs != [] {
      var init := xs[..|xs| - 1];
      KeyedLastWinsSpec(init, key, val, k);
      if key(xs[|xs| - 1]) != k {
        if k in KeyedLastWins(xs, key, val) {
          var j :| 0 <= j < |init| && key(init[j]) == k && KeyedLastWins(init, key, val)[k] == val(init[j])
            && forall i :: j < i < |init| ==> key(init[i]) != k;
          assert key(xs[j]) == k && KeyedLastWins(xs, key, val)[k] == val(xs[j]);
        } else {
          forall i | 0 <= i < |xs| ensures key(xs[i]) != k {
            if i < |init| {
              assert xs[i] == init[i];
            }
          }
        }
      }
    }
  }

  function Itself<T>(x: T): T { x }

  /** When every element's value carries its own key, the table maps each key to
      an element with that key. */
  lemma KeyedLastWinsSelfKeyed<T, K>(xs: seq<T>, key: T -> K, k: K)
    requires k in KeyedLastWins(xs, key, Itself)
    ensures key(KeyedLastWins(xs, key, Itself)[k]) == k
  {
    KeyedLastWinsSpec(xs, key, Itself, k);
  }

  // ---------------------------------------------------------------- configuration

  /** `zoneTypes` as the configuration gives it: absent, a list, or some other value. */
  datatype ZoneTypesSetting = ZoneTypesAbsent | ZoneTypesArray(entries: seq<ZoneConfig>) | ZoneTypesNotArray

  /** The settings the platform reads. `garageDoors` is None when absent or not a list. */
  datatype PlatformSettings = PlatformSettings(
    areas: Option<seq<AreaConfig>>,
    area: Option<nat>,
    keypadCode: Option<string>,
    includedTasks: Option<seq<nat>>,
    includedOutputs: Option<seq<nat>>,
    zoneTypes: ZoneTypesSetting,
    garageDoors: Option<seq<GarageDoorConfig>>)

  /** JavaScript truthiness of the optional single-area settings. */
  predicate AreaTruthy(area: Option<nat>)
  {
    area.Some? && area.value != 0
  }

  predicate TextTruthy(s: Option<string>)
  {
    s.Some? && s.value != ""
  }

  /** The areas the platform serves: an explicit `areas` list wins, even an empty
      one; otherwise one area when both `area` and `keypadCode` are set;
      otherwise none. */
  function AreaConfigs(c: PlatformSettings): (r: seq<AreaConfig>)
    ensures c.areas.Some? ==> r == c.areas.value
    ensures c.areas.None? ==> (r != [] <==> AreaTruthy(c.area) && TextTruthy(c.keypadCode))
    ensures c.areas.None? && r != [] ==> r == [AreaConfig(c.area.value, c.keypadCode.value)]
  {
    if c.areas.Some? then c.areas.value
    else if AreaTruthy(c.area) && TextTruthy(c.keypadCode) then [AreaConfig(c.area.value, c.keypadCode.value)]
    else []
  }

  /** `list ?? []`. */
  function IncludedOrNone(list: Option<seq<nat>>): seq<nat>
  {
    if list.Some? then list.value else []
  }

  function ZoneNumberOf(z: ZoneConfig): nat { z.zoneNumber }

  /** The zone-type table: a list is keyed by zone number, later entries winning;
      anything else leaves the table empty. */
  function ZoneTypesTable(setting: ZoneTypesSetting): (r: map<nat, ZoneConfig>)
    ensures !setting.ZoneTypesArray? ==> r == map[]
  {
    if setting.ZoneTypesArray? then KeyedLastWins(setting.entries, ZoneNumberOf, Itself)
    else map[]
  }

  /** Every zone-type entry sits under its own zone number, and every number in
      the list has an entry. */
  lemma ZoneTypesTableKeys(entries: seq<ZoneConfig>, n: nat)
    ensures n in ZoneTypesTable(ZoneTypesArray(entries)) <==> exists i :: 0 <= i < |entries| && entries[i].zoneNumber == n
    ensures n in ZoneTypesTable(ZoneTypesArray(entries)) ==> ZoneTypesTable(ZoneTypesArray(entries))[n].zoneNumber == n
  {
    KeyedLastWinsSpec(entries, ZoneNumberOf, Itself, n);
    if n in ZoneTypesTable(ZoneTypesArray(entries)) {
      KeyedLastWinsSelfKeyed(entries, ZoneNumberOf, n);
    }
  }

  function TextIdOf(td: TextDescription): nat { td.id }
  function TextOf(td: TextDescription): string { td.description }

  /** The id-to-description table discovery builds from the zone texts. */
  function ZoneTextTable(texts: seq<TextDescription>): map<nat, string>
  {
    KeyedLastWins(texts, TextIdOf, TextOf)
  }

  function StateZoneOf(d: GarageDoorConfig): Option<nat> { d.stateZone }

  /** The garage-door table: each door under its state zone (an undefined state
      zone is the key `undefined`), later doors winning. */
  function GarageDoorTable(doors: seq<GarageDoorConfig>): map<Option<nat>, GarageDoorConfig>
  {
    KeyedLastWins(doors, StateZoneOf, Itself)
  }

  /** A door found under a zone number has that zone as its state zone. */
  lemma GarageDoorTableKeyed(doors: seq<GarageDoorConfig>, k: Option<nat>)
    requires k in GarageDoorTable(doors)
    ensures GarageDoorTable(doors)[k].stateZone == k
  {
    KeyedLastWinsSelfKeyed(doors, StateZoneOf, k);
  }

  // ---------------------------------------------------------------- identities

  /** The kinds of accessory the platform registers. */
  datatype AccessoryKind =
    | PanelIdentity | OutputIdentity | TemperatureIdentity | TaskIdentity
    | InputIdentity(input: InputKind) | GarageDoorIdentity

  /** The fixed text in front of the id in each kind's UUID seed. An input uses its
      class's INPUT_TYPE, which is undefined for contact, motion, smoke and CO. */
  function IdentityPrefix(k: AccessoryKind): string
  {
    match k
    case PanelIdentity => "ElkPanel"
    case OutputIdentity => "Output"
    case TemperatureIdentity => "Temperature"
    case TaskIdentity => "Task"
    case InputIdentity(i) => Render(InputTypeOf(i))
    case GarageDoorIdentity => "garageDoor"
  }

  /** The UUID seed: the kind's prefix followed by the id's decimal text. */
  function Identity(k: AccessoryKind, id: nat): string
  {
    Tagged(IdentityPrefix(k), id)
  }

  lemma FirstCharOfTagged(p: string, n: nat)
    requires |p| > 0
    ensures Tagged(p, n)[0] == p[0]
  {
  }

  /** Equal seeds come from the same prefix and the same id: ids never collide
      within a kind, and kinds with different prefixes never collide. */
  lemma IdentityInjective(k1: AccessoryKind, a: nat, k2: AccessoryKind, b: nat)
    requires Identity(k1, a) == Identity(k2, b)
    ensures IdentityPrefix(k1) == IdentityPrefix(k2) && a == b
  {
    var p, q := IdentityPrefix(k1), IdentityPrefix(k2);
    if p == q {
      TaggedSamePrefix(p, a, b);
    } else if p == "CO2" || q == "CO2" {
      // no other prefix starts with 'C'
      FirstCharOfTagged(p, a);
      FirstCharOfTagged(q, b);
      assert false;
    } else {
      TaggedInjective(p, a, q, b);
    }
  }

  /** Contact, motion, smoke and CO zones with one id share one seed, so a zone
      whose configured type changes keeps its cached accessory. */
  lemma UntypedInputsShareIdentity(id: nat)
    ensures Identity(InputIdentity(ContactInput), id) == Tagged("undefined", id)
    ensures Identity(InputIdentity(MotionInput), id) == Tagged("undefined", id)
    ensures Identity(InputIdentity(SmokeInput), id) == Tagged("undefined", id)
    ensures Identity(InputIdentity(COInput), id) == Tagged("undefined", id)
    ensures Identity(InputIdentity(CO2Input), id) != Tagged("undefined", id)
  {
    if Identity(InputIdentity(CO2Input), id) == Tagged("undefined", id) {
      FirstCharOfTagged("CO2", id);
      FirstCharOfTagged("undefined", id);
      assert false;
    }
  }

  // ---------------------------------------------------------------- the registry

  /** What an accessory's `context.device` holds. */
  datatype Device =
    | PanelDevice(area: nat, keypadCode: string, name: string)
    | ItemDevice(id: nat, name: string)
    | ZoneDevice(id: nat, zoneName: Option<string>, zoneType: string, tamperType: Option<string>)
    | GarageDoorDevice(id: nat, doorName: string, garageDoor: GarageDoorConfig)

  /** A platform accessory: its UUID, display name and context. */
  datatype CachedAccessory = CachedAccessory(uuid: string, displayName: Option<string>, device: Option<Device>)

  /** The restored accessories the platform tracks, and every accessory it has
      registered with Homebridge, in order. */
  datatype Registry = Registry(accessories: seq<CachedAccessory>, registered: seq<CachedAccessory>)

  /** One accessory discovery wants: its UUID seed, name and device. */
  datatype Entry = Entry(identity: string, name: Option<string>, device: Device)

  /** `accessories.find(a => a.UUID === uuid)`, as an index. */
  function FirstWithUuid(acc: seq<CachedAccessory>, uuid: string): (r: Option<nat>)
    ensures r.Some? ==> r.value < |acc| && acc[r.value].uuid == uuid
    ensures r.Some? ==> forall j :: 0 <= j < r.value ==> acc[j].uuid != uuid
    ensures r.None? ==> forall j :: 0 <= j < |acc| ==> acc[j].uuid != uuid
    decreases |acc|
  {
    if acc == [] then None
    else if acc[0].uuid == uuid then Some(0)
    else match FirstWithUuid(acc[1..], uuid)
      case None => None
      case Some(i) => Some(i + 1)
  }

  /** One `add*` call: a restored accessory with the UUID gets the new device in
      its context and nothing is registered; otherwise one new accessory is
      registered, and it is not added to the restored list. */
  function Upsert(reg: Registry, uuid: string, name: Option<string>, device: Device): (r: Registry)
    ensures |r.accessories| == |reg.accessories|
    ensures FirstWithUuid(reg.accessories, uuid).Some? ==>
      r.registered == reg.registered
      && forall j :: 0 <= j < |reg.accessories| ==>
        r.accessories[j] == if j == FirstWithUuid(reg.accessories, uuid).value
                            then reg.accessories[j].(device := Some(device)) else reg.accessories[j]
    ensures FirstWithUuid(reg.accessories, uuid).None? ==>
      r.accessories == reg.accessories && r.registered == reg.registered + [CachedAccessory(uuid, name, Some(device))]
  {
    match FirstWithUuid(reg.accessories, uuid)
    case Some(i) =>
      reg.(accessories := reg.accessories[i := reg.accessories[i].(device := Some(device))])
    case None =>
      reg.(registered := reg.registered + [CachedAccessory(uuid, name, Some(device))])
  }

  /** An `add*` call that throws between restoring and registering: a restored
      accessory with the UUID gets the new device in its context, and nothing
      is registered. */
  function Restored(reg: Registry, uuid: string, device: Device): (r: Registry)
    ensures r.registered == reg.registered
    ensures |r.accessories| == |reg.accessories|
    ensures forall j :: 0 <= j < |reg.accessories| ==>
      r.accessories[j] == if Some(j) == FirstWithUuid(reg.accessories, uuid)
                          then reg.accessories[j].(device := Some(device)) else reg.accessories[j]
  {
    match FirstWithUuid(reg.accessories, uuid)
    case Some(i) => reg.(accessories := reg.accessories[i := reg.accessories[i].(device := Some(device))])
    case None => reg
  }

  /** A throwing call differs from a completed one only in the registration it
      never reaches. */
  lemma RestoredIsUpsertUnregistered(reg: Registry, uuid: string, name: Option<string>, device: Device)
    ensures Restored(reg, uuid, device).accessories == Upsert(reg, uuid, name, device).accessories
    ensures FirstWithUuid(reg.accessories, uuid).Some? <==> Restored(reg, uuid, device) == Upsert(reg, uuid, name, device)
  {
  }

  /** A run of `add*` calls, in order. */
  function UpsertAll(reg: Registry, uuidOf: string -> string, es: seq<Entry>): Registry
    decreases |es|
  {
    if es == [] then reg
    else
      var last := es[|es| - 1];
      Upsert(UpsertAll(reg, uuidOf, es[..|es| - 1]), uuidOf(last.identity), last.name, last.device)
  }

  /** Upserts never add, drop or reorder restored accessories: the UUIDs stay,
      only contexts change, and registrations are only ever appended. */
  lemma {:induction false} UpsertAllKeepsRestored(reg: Registry, uuidOf: string -> string, es: seq<Entry>)
    ensures |UpsertAll(reg, uuidOf, es).accessories| == |reg.accessories|
    ensures forall j :: 0 <= j < |reg.accessories| ==>
      UpsertAll(reg, uuidOf, es).accessories[j].uuid == reg.accessories[j].uuid
      && UpsertAll(reg, uuidOf, es).accessories[j].displayName == reg.accessories[j].displayName
    ensures |UpsertAll(reg, uuidOf, es).registered| >= |reg.registered|
    ensures UpsertAll(reg, uuidOf, es).registered[..|reg.registered|] == reg.registered
    decreases |es|
  {
    if es != [] {
      UpsertAllKeepsRestored(reg, uuidOf, es[..|es| - 1]);
    }
  }

  /** When every wanted accessory was restored from the cache, discovery
      registers nothing. */
  lemma {:induction false} RestoredNeverRegisters(reg: Registry, uuidOf: string -> string, es: seq<Entry>)
    requires forall e :: e in es ==> exists j :: 0 <= j < |reg.accessories| && reg.accessories[j].uuid == uuidOf(e.identity)
    ensures UpsertAll(reg, uuidOf, es).registered == reg.registered
    decreases |es|
  {
    if es != [] {
      var init := es[..|es| - 1];
      var last := es[|es| - 1];
      assert forall e :: e in init ==> e in es;
      RestoredNeverRegisters(reg, uuidOf, init);
      UpsertAllKeepsRestored(reg, uuidOf, init);
      var mid := UpsertAll(reg, uuidOf, init);
      var j :| 0 <= j < |reg.accessories| && reg.accessories[j].uuid == uuidOf(last.identity);
      assert mid.accessories[j].uuid == uuidOf(last.identity);
    }
  }

  /** A new accessory is never remembered: upserting the same one twice registers
      it twice. */
  lemma UpsertTwiceRegistersTwice(reg: Registry, uuid: string, name: Option<string>, device: Device)
    requires forall j :: 0 <= j < |reg.accessories| ==> reg.accessories[j].uuid != uuid
    ensures Upsert(Upsert(reg, uuid, name, device), uuid, name, device).registered
            == reg.registered + [CachedAccessory(uuid, name, Some(device)), CachedAccessory(uuid, name, Some(device))]
  {
  }

  // ---------------------------------------------------------------- discovery selection

  /** The task or output entries discovery upserts: the described items whose id
      is in the include list, in the reply's order. */
  function ItemEntries(kind: AccessoryKind, texts: seq<TextDescription>, included: seq<nat>): seq<Entry>
    decreases |texts|
  {
    if texts == [] then []
    else
      var td := texts[|texts| - 1];
      ItemEntries(kind, texts[..|texts| - 1], included)
        + if td.id in included then [ItemEntry(kind, td)] else []
  }

  function ItemEntry(kind: AccessoryKind, td: TextDescription): Entry
  {
    Entry(Identity(kind, td.id), Some(td.description), ItemDevice(td.id, td.description))
  }

  /** Exactly the included items are upserted, each once per description, in
      the reply's order. */
  lemma {:induction false} ItemEntriesSelect(kind: AccessoryKind, texts: seq<TextDescription>, included: seq<nat>)
    ensures |ItemEntries(kind, texts, included)| <= |texts|
    ensures forall e :: e in ItemEntries(kind, texts, included) <==>
      exists i :: 0 <= i < |texts| && texts[i].id in included && e == ItemEntry(kind, texts[i])
    decreases |texts|
  {
    if texts != [] {
      var init := texts[..|texts| - 1];
      ItemEntriesSelect(kind, init, included);
      forall e ensures e in ItemEntries(kind, texts, included) <==>
        exists i :: 0 <= i < |texts| && texts[i].id in included && e == ItemEntry(kind, texts[i])
      {
        if e in ItemEntries(kind, init, included) {
          var i :| 0 <= i < |init| && init[i].id in included && e == ItemEntry(kind, init[i]);
          assert texts[i] == init[i];
        }
        if exists i :: 0 <= i < |texts| && texts[i].id in included && e == ItemEntry(kind, texts[i]) {
          var i :| 0 <= i < |texts| && texts[i].id in included && e == ItemEntry(kind, texts[i]);
          if i < |init| {
            assert init[i] == texts[i];
          }
        }
      }
    }
  }

  /** The input accessory kind a zone-type string selects, if any. */
  function InputKindOfType(zoneType: string): Option<InputKind>
  {
    if zoneType == ZoneTypeContact then Some(ContactInput)
    else if zoneType == ZoneTypeMotion then Some(MotionInput)
    else if zoneType == ZoneTypeSmoke then Some(SmokeInput)
    else if zoneType == ZoneTypeCO then Some(COInput)
    else if zoneType == ZoneTypeCO2 then Some(CO2Input)
    else if zoneType == ZoneTypeLeak then Some(LeakInput)
    else None
  }

  /** The tables discovery consults for a zone. */
  datatype ZoneTables = ZoneTables(
    zoneTypes: map<nat, ZoneConfig>,
    zoneTexts: map<nat, string>,
    garageDoors: map<Option<nat>, GarageDoorConfig>)

  /** Discovery considers a zone only when it is configured at the panel and has
      a zone-type entry. */
  predicate ZoneSelected(zone: ZoneMessage, t: ZoneTables)
  {
    zone.physicalStatus != "Unconfigured" && zone.id in t.zoneTypes
  }

  /** What `addZone` makes of a selected zone. */
  datatype ZoneAction = MakeInput(kind: InputKind) | MakeGarageDoor(config: GarageDoorConfig) | MakeTemperature | NoAccessory

  function ZoneActionOf(zone: ZoneMessage, t: ZoneTables): (a: ZoneAction)
    ensures !ZoneSelected(zone, t) ==> a == NoAccessory
    ensures a.MakeGarageDoor? ==> Some(zone.id) in t.garageDoors && a.config == t.garageDoors[Some(zone.id)]
    ensures ZoneSelected(zone, t) && t.zoneTypes[zone.id].zoneType == ZoneTypeGarage ==>
      (a.MakeGarageDoor? <==> Some(zone.id) in t.garageDoors)
    ensures a.MakeTemperature? <==> ZoneSelected(zone, t) && t.zoneTypes[zone.id].zoneType == ZoneTypeTemperature
    ensures a.MakeInput? <==> ZoneSelected(zone, t) && InputKindOfType(t.zoneTypes[zone.id].zoneType).Some?
  {
    if !ZoneSelected(zone, t) then NoAccessory
    else
      var zoneType := t.zoneTypes[zone.id].zoneType;
      match InputKindOfType(zoneType)
      case Some(k) => MakeInput(k)
      case None =>
        if zoneType == ZoneTypeGarage then
          if Some(zone.id) in t.garageDoors then MakeGarageDoor(t.garageDoors[Some(zone.id)]) else NoAccessory
        else if zoneType == ZoneTypeTemperature then MakeTemperature
        else NoAccessory
  }

  /** The device an input or temperature zone gets. */
  function ZoneDeviceOf(zone: ZoneMessage, t: ZoneTables): Device
    requires zone.id in t.zoneTypes
  {
    ZoneDevice(zone.id, if zone.id in t.zoneTexts then Some(t.zoneTexts[zone.id]) else None,
               t.zoneTypes[zone.id].zoneType, t.zoneTypes[zone.id].tamperType)
  }

  /** The name a garage door gets: its configured name, else `Garage door <id>`. */
  function GarageDoorName(config: GarageDoorConfig, id: nat): string
  {
    ItemName(config.name, "Garage door ", id)
  }

  /** The accessory `addZone` upserts for a zone, if any. */
  function ZoneEntry(zone: ZoneMessage, t: ZoneTables): (r: Option<Entry>)
    ensures r.Some? <==> !ZoneActionOf(zone, t).NoAccessory?
  {
    match ZoneActionOf(zone, t)
    case MakeInput(k) =>
      var d := ZoneDeviceOf(zone, t);
      Some(Entry(Identity(InputIdentity(k), zone.id), d.zoneName, d))
    case MakeGarageDoor(config) =>
      var name := GarageDoorName(config, zone.id);
      Some(Entry(Identity(GarageDoorIdentity, zone.id), Some(name), GarageDoorDevice(zone.id, name, config)))
    case MakeTemperature =>
      var d := ZoneDeviceOf(zone, t);
      Some(Entry(Identity(TemperatureIdentity, zone.id), d.zoneName, d))
    case NoAccessory => None
  }

  function ZoneEntries(zones: seq<ZoneMessage>, t: ZoneTables): seq<Entry>
    decreases |zones|
  {
    if zones == [] then []
    else
      var e := ZoneEntry(zones[|zones| - 1], t);
      ZoneEntries(zones[..|zones| - 1], t) + if e.Some? then [e.value] else []
  }

  /** The zone ids that get an input accessory. */
  function InputZoneIds(zones: seq<ZoneMessage>, t: ZoneTables): set<nat>
    decreases |zones|
  {
    if zones == [] then {}
    else
      var z := zones[|zones| - 1];
      InputZoneIds(zones[..|zones| - 1], t) + if ZoneActionOf(z, t).MakeInput? then {z.id} else {}
  }

  /** Zone i of the list is selected, has this id and an input type. */
  predicate InputZoneAt(zones: seq<ZoneMessage>, t: ZoneTables, id: nat, i: int)
  {
    0 <= i < |zones| && zones[i].id == id && ZoneSelected(zones[i], t)
    && InputKindOfType(t.zoneTypes[id].zoneType).Some?
  }

  /** A zone id gets an input accessory exactly when some selected zone with that id
      has an input type. */
  lemma {:induction false} InputZoneIdsSelect(zones: seq<ZoneMessage>, t: ZoneTables, id: nat)
    ensures id in InputZoneIds(zones, t) <==> exists i :: InputZoneAt(zones, t, id, i)
    decreases |zones|
  {
    if zones != [] {
      var init := zones[..|zones| - 1];
      InputZoneIdsSelect(init, t, id);
      if exists i :: InputZoneAt(init, t, id, i) {
        var i :| InputZoneAt(init, t, id, i);
        assert zones[i] == init[i];
        assert InputZoneAt(zones, t, id, i);
      }
      var last := zones[|zones| - 1];
      if ZoneActionOf(last, t).MakeInput? && last.id == id {
        assert InputZoneAt(zones, t, id, |zones| - 1);
      }
      if exists i :: InputZoneAt(zones, t, id, i) {
        var i :| InputZoneAt(zones, t, id, i);
        if i < |init| {
          assert init[i] == zones[i];
          assert InputZoneAt(init, t, id, i);
        } else {
          assert ZoneActionOf(last, t).MakeInput?;
        }
      }
    }
  }

  /** How many garage doors a zone list creates. */
  function GarageDoorCount(zones: seq<ZoneMessage>, t: ZoneTables): nat
    decreases |zones|
  {
    if zones == [] then 0
    else GarageDoorCount(zones[..|zones| - 1], t) + if ZoneActionOf(zones[|zones| - 1], t).MakeGarageDoor? then 1 else 0
  }

  predicate HasTemperatureZone(zones: seq<ZoneMessage>, t: ZoneTables)
  {
    exists i :: 0 <= i < |zones| && ZoneActionOf(zones[i], t).MakeTemperature?
  }

  /** An input zone whose accessory has no service: `addInputAccessory`
      throws at its first status update, and the exception leaves the zone loop. */
  predicate ZoneThrows(zone: ZoneMessage, t: ZoneTables)
  {
    ZoneActionOf(zone, t).MakeInput? && !HasService(ZoneActionOf(zone, t).kind)
  }

  /** The index of the first zone whose `addZone` throws, if any. */
  function FirstThrowingZone(zones: seq<ZoneMessage>, t: ZoneTables): (r: Option<nat>)
    ensures r.Some? ==> r.value < |zones| && ZoneThrows(zones[r.value], t)
    ensures r.Some? ==> forall j :: 0 <= j < r.value ==> !ZoneThrows(zones[j], t)
    ensures r.None? ==> forall j :: 0 <= j < |zones| ==> !ZoneThrows(zones[j], t)
    decreases |zones|
  {
    if zones == [] then None
    else if ZoneThrows(zones[0], t) then Some(0)
    else match FirstThrowingZone(zones[1..], t)
      case None => None
      case Some(i) => Some(i + 1)
  }

  /** The first throwing zone is the one every zone before it does not precede in throwing. */
  lemma FirstThrowingZoneAt(zones: seq<ZoneMessage>, t: ZoneTables, i: nat)
    requires i < |zones| && ZoneThrows(zones[i], t)
    requires forall j :: 0 <= j < i ==> !ZoneThrows(zones[j], t)
    ensures FirstThrowingZone(zones, t) == Some(i) && ZonesReached(zones, t) == zones[..i + 1]
  {
  }

  lemma NoThrowingZone(zones: seq<ZoneMessage>, t: ZoneTables)
    requires forall j :: 0 <= j < |zones| ==> !ZoneThrows(zones[j], t)
    ensures FirstThrowingZone(zones, t).None? && ZonesReached(zones, t) == zones
  {
  }

  /** The zones the zone loop reaches: all of them, or up to and including the
      first one that throws. */
  function ZonesReached(zones: seq<ZoneMessage>, t: ZoneTables): seq<ZoneMessage>
  {
    match FirstThrowingZone(zones, t)
    case None => zones
    case Some(i) => zones[..i + 1]
  }

  /** The initial garage sync can read a door's zones from the report: the state
      zone's entry is `zones[stateZone - 1]`, the obstruction zone's is
      `zones[obstructionZone]`, and a missing entry throws. */
  predicate SyncReadable(stateZone: nat, obstructionZone: Option<nat>, zones: seq<ZoneMessage>)
  {
    1 <= stateZone <= |zones| && (obstructionZone.Some? ==> obstructionZone.value < |zones|)
  }

  /** In a report listing zones 1, 2, 3, ... in order, the sync reads the state
      zone's own entry but the entry of the zone AFTER the obstruction zone. */
  lemma SyncReadsNextObstructionZone(stateZone: nat, obstructionZone: nat, zones: seq<ZoneMessage>)
    requires SyncReadable(stateZone, Some(obstructionZone), zones)
    requires forall i :: 0 <= i < |zones| ==> zones[i].id == i + 1
    ensures zones[stateZone - 1].id == stateZone
    ensures zones[obstructionZone].id == obstructionZone + 1
    ensures zones[obstructionZone].id != obstructionZone
  {
  }

  // ---------------------------------------------------------------- retry schedule

  const InitialRetryDelay := 5000
  const MaxRetryDelay := 30000

  /** The delay after one more 'error': doubled, capped at the maximum. */
  function NextRetryDelay(d: int): (r: int)
    ensures r <= MaxRetryDelay
    ensures InitialRetryDelay <= d ==> InitialRetryDelay <= r
    ensures d <= MaxRetryDelay / 2 ==> r == 2 * d
  {
    if d * 2 < MaxRetryDelay then d * 2 else MaxRetryDelay
  }

  /** The delay after n consecutive errors since the last connection. */
  function RetryDelayAfter(n: nat): int
  {
    if n == 0 then InitialRetryDelay else NextRetryDelay(RetryDelayAfter(n - 1))
  }

  function Pow2(n: nat): (r: nat)
    ensures r >= 1
  {
    if n == 0 then 1 else 2 * Pow2(n - 1)
  }

  function Min(a: int, b: int): int
  {
    if a < b then a else b
  }

  /** The delay after n errors is 5000 doubled n times, capped at 30000: the
      n-th error waits min(5000 * 2^(n-1), 30000). */
  lemma {:induction false} RetryDelayClosedForm(n: nat)
    ensures RetryDelayAfter(n) == Min(InitialRetryDelay * Pow2(n), MaxRetryDelay)
    ensures InitialRetryDelay <= RetryDelayAfter(n) <= MaxRetryDelay
  {
    if n > 0 {
      RetryDelayClosedForm(n - 1);
    }
  }

  /** From the third error on, the delay stays at the cap. */
  lemma RetryDelaySaturates(n: nat)
    requires n >= 3
    ensures RetryDelayAfter(n) == MaxRetryDelay
  {
    RetryDelayClosedForm(n);
    var p := Pow2(n - 3);
    assert Pow2(n) == 8 * p by {
      assert Pow2(n) == 2 * Pow2(n - 1) == 4 * Pow2(n - 2) == 8 * p;
    }
  }

  /** The connection flags, the current delay and the delays of armed retry timers. */
  datatype Session = Session(connecting: bool, connected: bool, retryDelay: int, pendingRetries: seq<int>)

  const InitialSession := Session(false, false, InitialRetryDelay, [])

  /** `connect()`: nothing while an attempt is in progress; otherwise the flag is
      set first and cleared again only when the link throws at once. */
  function AfterConnect(s: Session, throws: bool): Session
  {
    if s.connecting then s else s.(connecting := !throws)
  }

  function ConnectCommands(s: Session): seq<Command>
  {
    if s.connecting then [] else [Connect]
  }

  /** The 'connected' handler. */
  function AfterConnected(s: Session): Session
  {
    s.(connecting := false, connected := true, retryDelay := InitialRetryDelay)
  }

  /** The 'error' handler: a retry is armed with the current delay, which then grows. */
  function AfterError(s: Session): Session
  {
    s.(connected := false, pendingRetries := s.pendingRetries + [s.retryDelay],
       retryDelay := NextRetryDelay(s.retryDelay))
  }

  function RemoveAt(xs: seq<int>, k: nat): seq<int>
    requires k < |xs|
  {
    xs[..k] + xs[k + 1..]
  }

  /** A retry timer fires: it leaves the pending set and calls `connect()`. */
  function AfterFireRetry(s: Session, k: nat, throws: bool): Session
    requires k < |s.pendingRetries|
  {
    AfterConnect(s.(pendingRetries := RemoveAt(s.pendingRetries, k)), throws)
  }

  predicate SessionValid(s: Session)
  {
    InitialRetryDelay <= s.retryDelay <= MaxRetryDelay
    && forall i :: 0 <= i < |s.pendingRetries| ==> InitialRetryDelay <= s.pendingRetries[i] <= MaxRetryDelay
  }

  /** Every handler keeps the delay and every armed retry within [5000, 30000]. */
  lemma SessionValidPreserved(s: Session, k: nat, throws: bool)
    requires SessionValid(s)
    ensures SessionValid(AfterConnect(s, throws))
    ensures SessionValid(AfterConnected(s))
    ensures SessionValid(AfterError(s))
    ensures k < |s.pendingRetries| ==> SessionValid(AfterFireRetry(s, k, throws))
  {
    if k < |s.pendingRetries| {
      var rest := RemoveAt(s.pendingRetries, k);
      forall i | 0 <= i < |rest| ensures InitialRetryDelay <= rest[i] <= MaxRetryDelay {
        if i < k {
          assert rest[i] == s.pendingRetries[i];
        } else {
          assert rest[i] == s.pendingRetries[i + 1];
        }
      }
    }
  }

  /** n consecutive errors. */
  function Errors(s: Session, n: nat): Session
  {
    if n == 0 then s else AfterError(Errors(s, n - 1))
  }

  /** After a connection, n errors arm retries with delays 5000, 10000, 20000,
      30000, 30000, ... and leave the delay at the (n+1)-th value. */
  lemma {:induction false} ErrorsScheduleBackoff(s: Session, n: nat)
    ensures var r := Errors(AfterConnected(s), n);
      |r.pendingRetries| == |s.pendingRetries| + n
      && r.pendingRetries[..|s.pendingRetries|] == s.pendingRetries
      && (forall i :: 0 <= i < n ==> r.pendingRetries[|s.pendingRetries| + i] == RetryDelayAfter(i))
      && r.retryDelay == RetryDelayAfter(n)
      && r.connecting == false
  {
    if n > 0 {
      ErrorsScheduleBackoff(s, n - 1);
      var prev := Errors(AfterConnected(s), n - 1);
      var r := Errors(AfterConnected(s), n);
      assert r.pendingRetries == prev.pendingRetries + [prev.retryDelay];
      assert r.pendingRetries[..|s.pendingRetries|] == prev.pendingRetries[..|s.pendingRetries|];
    }
  }

  /** One error followed by the retry it armed. */
  function ErrorThenRetry(s: Session, throws: bool): Session
  {
    AfterFireRetry(AfterError(s), |s.pendingRetries|, throws)
  }

  function Rounds(s: Session, n: nat, throws: bool): Session
  {
    if n == 0 then s else ErrorThenRetry(Rounds(s, n - 1, throws), throws)
  }

  /** 'error' never clears `connecting`: once an attempt is in progress, no number
      of errors and retries issues another connect, and the flag stays set. */
  lemma {:induction false} RetriesStuckWhileConnecting(s: Session, n: nat, throws: bool)
    requires s.connecting
    ensures Rounds(s, n, throws).connecting
    ensures Rounds(s, n, throws).pendingRetries == s.pendingRetries
  {
    if n > 0 {
      RetriesStuckWhileConnecting(s, n - 1, throws);
      var prev := Rounds(s, n - 1, throws);
      var e := AfterError(prev);
      assert RemoveAt(e.pendingRetries, |prev.pendingRetries|) == prev.pendingRetries;
      assert ConnectCommands(e.(pendingRetries := prev.pendingRetries)) == [];
    }
  }
}
