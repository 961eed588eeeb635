/** The platform of the 1.x plugin (index.js): configuration normalisation,
    discovery over the panel's replies into a list of accessories handed to
    Homebridge, and the routing of zone-change (ZC) and output-change (CC)
    events to the accessories discovery created. */
module LegacyPlatform {
  import opened ElkTypes
  import opened PlatformConfig
  import opened LegacyAccessories

  // ---------------------------------------------------------------- configuration

  /** `zoneTypes` as configured: absent, a list of entries, or an object
      already keyed by zone number. */
  datatype LegacyZoneTypes =
    | LegacyZoneTypesAbsent
    | LegacyZoneTypesList(entries: seq<ZoneConfig>)
    | LegacyZoneTypesObject(table: map<nat, string>)

  datatype LegacySettings = LegacySettings(
    area: nat,
    keypadCode: Option<string>,
    zoneTypes: LegacyZoneTypes,
    garageDoors: Option<seq<GarageDoorConfig>>)

  function ZoneTypeOf(z: ZoneConfig): string { z.zoneType }

  /** The zone-type table: a list becomes a map from zone number to type, later
      entries winning; an object is used as it is; an absent setting stays
      undefined. */
  function LegacyZoneTypeTable(setting: LegacyZoneTypes): Option<map<nat, string>>
  {
    match setting
    case LegacyZoneTypesAbsent => None
    case LegacyZoneTypesList(entries) => Some(KeyedLastWins(entries, ZoneNumberOf, ZoneTypeOf))
    case LegacyZoneTypesObject(table) => Some(table)
  }

  /** A listed zone number maps to the type of its last entry. */
  lemma LegacyZoneTypeTableSpec(entries: seq<ZoneConfig>, n: nat)
    ensures var t := LegacyZoneTypeTable(LegacyZoneTypesList(entries)).value;
      (n in t <==> exists i :: 0 <= i < |entries| && entries[i].zoneNumber == n)
      && (n in t ==> exists j :: 0 <= j < |entries| && entries[j].zoneNumber == n && t[n] == entries[j].zoneType
                                 && forall i :: j < i < |entries| ==> entries[i].zoneNumber != n)
  {
    KeyedLastWinsSpec(entries, ZoneNumberOf, ZoneTypeOf, n);
  }

  /** The garage-door table is keyed by each door's state zone. */
  predicate DoorsKeyed(garageDoors: map<Option<nat>, GarageDoorConfig>)
  {
    forall k :: k in garageDoors ==> garageDoors[k].stateZone == k
  }

  // ---------------------------------------------------------------- accessories

  /** The accessory objects a zone can be bound to. */
  datatype ZoneAccessory =
    | ContactZone(contact: LegacyContact)
    | MotionZone(motion: LegacyMotion)
    | SmokeZone(smoke: LegacySmoke)
    | GarageZone(door: LegacyGarageDoor)

  /** One entry of the list handed to Homebridge. The area accessory's class
      (lib/ElkPanel.js) is not part of this model: its entry records the area
      and its description. */
  datatype LegacyAccessory =
    | PanelEntry(area: nat, description: string)
    | TaskEntry(task: LegacyTask)
    | OutputEntry(output: LegacyOutput)
    | ZoneEntry(zone: ZoneAccessory)

  function ZoneObject(z: ZoneAccessory): object
  {
    match z
    case ContactZone(c) => c
    case MotionZone(m) => m
    case SmokeZone(s) => s
    case GarageZone(d) => d
  }

  /** The id a zone accessory carries: its zone, or a door's state zone. */
  function ZoneAccessoryId(z: ZoneAccessory): Option<nat>
  {
    match z
    case ContactZone(c) => Some(c.id)
    case MotionZone(m) => Some(m.id)
    case SmokeZone(s) => Some(s.id)
    case GarageZone(d) => d.id
  }

  datatype Kind = PanelKind | TaskKind | OutputKind | ContactKind | MotionKind | SmokeKind | GarageKind

  /** What identifies an accessory to Homebridge: its kind, id and `uuid_base`. */
  datatype Descriptor = Descriptor(kind: Kind, id: Option<nat>, uuidBase: Option<string>)

  function Describe(a: LegacyAccessory): Descriptor
  {
    match a
    case PanelEntry(area, _) => Descriptor(PanelKind, Some(area), None)
    case TaskEntry(t) => Descriptor(TaskKind, Some(t.id), Some(t.uuidBase))
    case OutputEntry(o) => Descriptor(OutputKind, Some(o.id), Some(o.uuidBase))
    case ZoneEntry(ContactZone(c)) => Descriptor(ContactKind, Some(c.id), Some(c.uuidBase))
    case ZoneEntry(MotionZone(m)) => Descriptor(MotionKind, Some(m.id), Some(m.uuidBase))
    case ZoneEntry(SmokeZone(s)) => Descriptor(SmokeKind, Some(s.id), Some(s.uuidBase))
    case ZoneEntry(GarageZone(d)) => Descriptor(GarageKind, d.id, Some(d.uuidBase))
  }

  function Descriptors(xs: seq<LegacyAccessory>): (ds: seq<Descriptor>)
    ensures |ds| == |xs|
    decreases |xs|
  {
    if xs == [] then [] else Descriptors(xs[..|xs| - 1]) + [Describe(xs[|xs| - 1])]
  }

  lemma DescriptorsSnoc(xs: seq<LegacyAccessory>, x: LegacyAccessory)
    ensures Descriptors(xs + [x]) == Descriptors(xs) + [Describe(x)]
  {
    assert (xs + [x])[..|xs|] == xs;
  }

  /** The descriptor list describes the accessories one by one, in order. */
  lemma {:induction false} DescriptorsDescribeEach(xs: seq<LegacyAccessory>, i: nat)
    requires i < |xs|
    ensures Descriptors(xs)[i] == Describe(xs[i])
    decreases |xs|
  {
    if i < |xs| - 1 {
      DescriptorsDescribeEach(xs[..|xs| - 1], i);
    }
  }

  // ---------------------------------------------------------------- discovery as specified

  /** A task or output text becomes one accessory, unfiltered. */
  function ItemDescriptor(kind: Kind, td: TextDescription): Descriptor
  {
    Descriptor(kind, Some(td.id),
               Some(if kind == TaskKind then TaskUuidBase(td.id, Some(td.description))
                    else OutputUuidBase(td.id, Some(td.description))))
  }

  function ItemDescriptors(kind: Kind, texts: seq<TextDescription>): seq<Descriptor>
    decreases |texts|
  {
    if texts == [] then []
    else ItemDescriptors(kind, texts[..|texts| - 1]) + [ItemDescriptor(kind, texts[|texts| - 1])]
  }

  /** Every task and output description becomes an accessory, in reply order,
      with no include filter. */
  lemma {:induction false} ItemDescriptorsSpec(kind: Kind, texts: seq<TextDescription>)
    ensures |ItemDescriptors(kind, texts)| == |texts|
    ensures forall i :: 0 <= i < |texts| ==> ItemDescriptors(kind, texts)[i] == ItemDescriptor(kind, texts[i])
    decreases |texts|
  {
    if texts != [] {
      var n := |texts| - 1;
      ItemDescriptorsSpec(kind, texts[..n]);
      forall i | 0 <= i < |texts|
        ensures ItemDescriptors(kind, texts)[i] == ItemDescriptor(kind, texts[i])
      {
        if i < n {
          assert texts[..n][i] == texts[i];
        }
      }
    }
  }

  /** The name a zone accessory gets: the zone's text, undefined when the
      panel has none. */
  function ZoneName(zoneTexts: map<nat, string>, id: nat): Option<string>
  {
    if id in zoneTexts then Some(zoneTexts[id]) else None
  }

  /** The accessory discovery creates for one zone, if any: the zone must be
      configured and have a zone type; contact, motion and smoke zones always
      get a sensor, a garage zone a door only when the garage-door table has
      an entry under its id, any other type nothing. */
  function ZoneDescriptor(zone: ZoneMessage, zoneTypes: map<nat, string>, garageDoors: map<Option<nat>, GarageDoorConfig>,
                          zoneTexts: map<nat, string>): (r: Option<Descriptor>)
    requires DoorsKeyed(garageDoors)
    ensures r.Some? <==>
      zone.logicalState != "Unconfigured" && zone.id in zoneTypes
      && (zoneTypes[zone.id] in {"contact", "motion", "smoke"} || (zoneTypes[zone.id] == "garage" && Some(zone.id) in garageDoors))
    ensures r.Some? ==> r.value.id == Some(zone.id) && r.value.uuidBase.Some?
  {
    if zone.logicalState == "Unconfigured" || zone.id !in zoneTypes then None
    else
      var name := ZoneName(zoneTexts, zone.id);
      var zoneType := zoneTypes[zone.id];
      if zoneType == "contact" then Some(Descriptor(ContactKind, Some(zone.id), Some(ContactUuidBase(name))))
      else if zoneType == "motion" then Some(Descriptor(MotionKind, Some(zone.id), Some(MotionUuidBase(zone.id, name))))
      else if zoneType == "smoke" then Some(Descriptor(SmokeKind, Some(zone.id), Some(SmokeUuidBase(name))))
      else if zoneType == "garage" && Some(zone.id) in garageDoors then
        var gd := garageDoors[Some(zone.id)];
        Some(Descriptor(GarageKind, gd.stateZone, Some(GarageUuidBase(gd.name))))
      else None
  }

  /** The zone loop's accessories, in report order. */
  function ZoneDescriptors(zones: seq<ZoneMessage>, zoneTypes: map<nat, string>, garageDoors: map<Option<nat>, GarageDoorConfig>,
                           zoneTexts: map<nat, string>): seq<Descriptor>
    requires DoorsKeyed(garageDoors)
    decreases |zones|
  {
    if zones == [] then []
    else
      var d := ZoneDescriptor(zones[|zones| - 1], zoneTypes, garageDoors, zoneTexts);
      ZoneDescriptors(zones[..|zones| - 1], zoneTypes, garageDoors, zoneTexts) + (if d.Some? then [d.value] else [])
  }

  /** The zone ids the loop binds an accessory to. */
  function ZoneIds(zones: seq<ZoneMessage>, zoneTypes: map<nat, string>, garageDoors: map<Option<nat>, GarageDoorConfig>): set<nat>
    requires DoorsKeyed(garageDoors)
    decreases |zones|
  {
    if zones == [] then {}
    else
      var z := zones[|zones| - 1];
      ZoneIds(zones[..|zones| - 1], zoneTypes, garageDoors)
      + (if ZoneDescriptor(z, zoneTypes, garageDoors, map[]).Some? then {z.id} else {})
  }

  /** One more zone extends the zone loop's accessories and bound ids by
      what `ZoneDescriptor` selects for it. */
  lemma ZoneLoopStep(zones: seq<ZoneMessage>, i: nat, zoneTypes: map<nat, string>,
                     garageDoors: map<Option<nat>, GarageDoorConfig>, zoneTexts: map<nat, string>)
    requires DoorsKeyed(garageDoors) && i < |zones|
    ensures var d := ZoneDescriptor(zones[i], zoneTypes, garageDoors, zoneTexts);
      ZoneDescriptors(zones[..i + 1], zoneTypes, garageDoors, zoneTexts)
        == ZoneDescriptors(zones[..i], zoneTypes, garageDoors, zoneTexts) + (if d.Some? then [d.value] else [])
      && ZoneIds(zones[..i + 1], zoneTypes, garageDoors)
        == ZoneIds(zones[..i], zoneTypes, garageDoors) + (if d.Some? then {zones[i].id} else {})
  {
    assert zones[..i + 1][..i] == zones[..i];
  }

  /** Every accessory the zone loop creates comes from a selected zone. */
  lemma {:induction false} ZoneDescriptorsSound(zones: seq<ZoneMessage>, zoneTypes: map<nat, string>,
                                                garageDoors: map<Option<nat>, GarageDoorConfig>, zoneTexts: map<nat, string>,
                                                d: Descriptor) returns (i: nat)
    requires DoorsKeyed(garageDoors)
    requires d in ZoneDescriptors(zones, zoneTypes, garageDoors, zoneTexts)
    ensures i < |zones| && ZoneDescriptor(zones[i], zoneTypes, garageDoors, zoneTexts) == Some(d)
    decreases |zones|
  {
    var n := |zones| - 1;
    var front := zones[..n];
    if d in ZoneDescriptors(front, zoneTypes, garageDoors, zoneTexts) {
      i := ZoneDescriptorsSound(front, zoneTypes, garageDoors, zoneTexts, d);
      assert zones[i] == front[i];
    } else {
      i := n;
    }
  }

  /** Every selected zone contributes its accessory to the zone loop's. */
  lemma {:induction false} ZoneDescriptorsComplete(zones: seq<ZoneMessage>, zoneTypes: map<nat, string>,
                                                   garageDoors: map<Option<nat>, GarageDoorConfig>, zoneTexts: map<nat, string>,
                                                   i: nat)
    requires DoorsKeyed(garageDoors)
    requires i < |zones| && ZoneDescriptor(zones[i], zoneTypes, garageDoors, zoneTexts).Some?
    ensures ZoneDescriptor(zones[i], zoneTypes, garageDoors, zoneTexts).value in ZoneDescriptors(zones, zoneTypes, garageDoors, zoneTexts)
    decreases |zones|
  {
    var n := |zones| - 1;
    var front := zones[..n];
    if i < n {
      assert front[i] == zones[i];
      ZoneDescriptorsComplete(front, zoneTypes, garageDoors, zoneTexts, i);
    }
  }

  /** The zone loop keeps exactly the zones `ZoneDescriptor` selects. */
  lemma ZoneDescriptorsSpec(zones: seq<ZoneMessage>, zoneTypes: map<nat, string>,
                            garageDoors: map<Option<nat>, GarageDoorConfig>, zoneTexts: map<nat, string>,
                            d: Descriptor)
    requires DoorsKeyed(garageDoors)
    ensures d in ZoneDescriptors(zones, zoneTypes, garageDoors, zoneTexts) <==>
      exists i :: 0 <= i < |zones| && ZoneDescriptor(zones[i], zoneTypes, garageDoors, zoneTexts) == Some(d)
  {
    if d in ZoneDescriptors(zones, zoneTypes, garageDoors, zoneTexts) {
      var i := ZoneDescriptorsSound(zones, zoneTypes, garageDoors, zoneTexts, d);
    }
    if exists i :: 0 <= i < |zones| && ZoneDescriptor(zones[i], zoneTypes, garageDoors, zoneTexts) == Some(d) {
      var i :| 0 <= i < |zones| && ZoneDescriptor(zones[i], zoneTypes, garageDoors, zoneTexts) == Some(d);
      ZoneDescriptorsComplete(zones, zoneTypes, garageDoors, zoneTexts, i);
    }
  }

  /** Every id the zone loop binds belongs to a selected zone. */
  lemma {:induction false} ZoneIdsSound(zones: seq<ZoneMessage>, zoneTypes: map<nat, string>,
                                        garageDoors: map<Option<nat>, GarageDoorConfig>, id: nat) returns (i: nat)
    requires DoorsKeyed(garageDoors)
    requires id in ZoneIds(zones, zoneTypes, garageDoors)
    ensures i < |zones| && zones[i].id == id && ZoneDescriptor(zones[i], zoneTypes, garageDoors, map[]).Some?
    decreases |zones|
  {
    var n := |zones| - 1;
    var front := zones[..n];
    if id in ZoneIds(front, zoneTypes, garageDoors) {
      i := ZoneIdsSound(front, zoneTypes, garageDoors, id);
      assert zones[i] == front[i];
    } else {
      i := n;
    }
  }

  /** Every selected zone's id is bound. */
  lemma {:induction false} ZoneIdsComplete(zones: seq<ZoneMessage>, zoneTypes: map<nat, string>,
                                           garageDoors: map<Option<nat>, GarageDoorConfig>, i: nat)
    requires DoorsKeyed(garageDoors)
    requires i < |zones| && ZoneDescriptor(zones[i], zoneTypes, garageDoors, map[]).Some?
    ensures zones[i].id in ZoneIds(zones, zoneTypes, garageDoors)
    decreases |zones|
  {
    var n := |zones| - 1;
    var front := zones[..n];
    if i < n {
      assert front[i] == zones[i];
      ZoneIdsComplete(front, zoneTypes, garageDoors, i);
    }
  }

  /** The zone loop binds exactly the ids of the zones it selects. */
  lemma ZoneIdsSpec(zones: seq<ZoneMessage>, zoneTypes: map<nat, string>,
                    garageDoors: map<Option<nat>, GarageDoorConfig>, id: nat)
    requires DoorsKeyed(garageDoors)
    ensures id in ZoneIds(zones, zoneTypes, garageDoors) <==>
      exists i :: 0 <= i < |zones| && zones[i].id == id && ZoneDescriptor(zones[i], zoneTypes, garageDoors, map[]).Some?
  {
    if id in ZoneIds(zones, zoneTypes, garageDoors) {
      var i := ZoneIdsSound(zones, zoneTypes, garageDoors, id);
    }
    if exists i :: 0 <= i < |zones| && zones[i].id == id && ZoneDescriptor(zones[i], zoneTypes, garageDoors, map[]).Some? {
      var i :| 0 <= i < |zones| && zones[i].id == id && ZoneDescriptor(zones[i], zoneTypes, garageDoors, map[]).Some?;
      ZoneIdsComplete(zones, zoneTypes, garageDoors, i);
    }
  }

  /** The ids of a text reply. */
  function TextIds(texts: seq<TextDescription>): set<nat>
    decreases |texts|
  {
    if texts == [] then {} else TextIds(texts[..|texts| - 1]) + {texts[|texts| - 1].id}
  }

  lemma {:induction false} TextIdsSpec(texts: seq<TextDescription>, id: nat)
    ensures id in TextIds(texts) <==> exists i :: 0 <= i < |texts| && texts[i].id == id
    decreases |texts|
  {
    if texts != [] {
      var front := texts[..|texts| - 1];
      TextIdsSpec(front, id);
      if exists i :: 0 <= i < |front| && front[i].id == id {
        var i :| 0 <= i < |front| && front[i].id == id;
        assert texts[i] == front[i];
      }
    }
  }

  /** The panel's answers to discovery's requests; None is a rejected request. */
  datatype LegacyReplies = LegacyReplies(
    zoneReport: Option<seq<ZoneMessage>>,
    areaText: Option<string>,
    zoneTexts: Option<seq<TextDescription>>,
    taskTexts: Option<seq<TextDescription>>,
    outputTexts: Option<seq<TextDescription>>)

  /** The zone loop throws exactly when the zone-type table is undefined and
      some zone is configured. */
  predicate ZoneLoopThrows(zoneTypes: Option<map<nat, string>>, zones: seq<ZoneMessage>)
  {
    zoneTypes.None? && exists i :: 0 <= i < |zones| && zones[i].logicalState != "Unconfigured"
  }

  function TypesOrNone(zoneTypes: Option<map<nat, string>>): map<nat, string>
  {
    if zoneTypes.Some? then zoneTypes.value else map[]
  }

  // ---------------------------------------------------------------- the platform

  class LegacyElkPlatform {
    const elk: PanelLink
    const area: nat
    const zoneTypes: Option<map<nat, string>>
    const garageDoors: map<Option<nat>, GarageDoorConfig>

    /** Every accessory created, in creation order; handed to Homebridge on success. */
    var elkAccessories: seq<LegacyAccessory>
    /** Undefined until the zone-text stage. */
    var zoneTexts: Option<map<nat, string>>
    var tasks: Option<map<nat, LegacyTask>>
    var outputs: Option<map<nat, LegacyOutput>>
    var zoneAccessories: map<nat, ZoneAccessory>

    /** Every binding sits under its accessory's own id, and so does every
      task and output. */
    ghost predicate Valid()
      reads this`zoneAccessories, this`tasks, this`outputs
    {
      DoorsKeyed(garageDoors)
      && (forall k :: k in zoneAccessories ==> ZoneAccessoryId(zoneAccessories[k]) == Some(k))
      && (tasks.Some? ==> forall k :: k in tasks.value ==> tasks.value[k].id == k)
      && (outputs.Some? ==> forall k :: k in outputs.value ==> outputs.value[k].id == k)
    }

    /** The constructor: the zone-type list and the garage doors are entered
      one by one into their tables. */
    constructor (settings: LegacySettings)
      ensures Valid() && fresh(elk) && elk.sent == []
      ensures area == settings.area
      ensures zoneTypes == LegacyZoneTypeTable(settings.zoneTypes)
      ensures garageDoors == if settings.garageDoors.Some? then GarageDoorTable(settings.garageDoors.value) else map[]
      ensures elkAccessories == [] && zoneTexts.None? && tasks.None? && outputs.None? && zoneAccessories == map[]
    {
      area := settings.area;
      if settings.zoneTypes.LegacyZoneTypesList? {
        var entries := settings.zoneTypes.entries;
        var zoneObjects: map<nat, string> := map[];
        for i := 0 to |entries|
          invariant zoneObjects == KeyedLastWins(entries[..i], ZoneNumberOf, ZoneTypeOf)
        {
          assert entries[..i + 1][..i] == entries[..i];
          zoneObjects := zoneObjects[entries[i].zoneNumber := entries[i].zoneType];
        }
        assert entries[..|entries|] == entries;
        zoneTypes := Some(zoneObjects);
      } else {
        zoneTypes := LegacyZoneTypeTable(settings.zoneTypes);
      }
      elk := new PanelLink();
      elkAccessories := [];
      zoneAccessories := map[];
      var table: map<Option<nat>, GarageDoorConfig> := map[];
      if settings.garageDoors.Some? {
        var gd := settings.garageDoors.value;
        for i := 0 to |gd|
          invariant table == GarageDoorTable(gd[..i])
        {
          assert gd[..i + 1][..i] == gd[..i];
          table := table[gd[i].stateZone := gd[i]];
        }
        assert gd[..|gd|] == gd;
        forall k | k in table
          ensures table[k].stateZone == k
        {
          GarageDoorTableKeyed(gd, k);
        }
      }
      garageDoors := table;
      zoneTexts := None;
      tasks := None;
      outputs := None;
    }

    /** `accessories`: the link is opened; discovery runs on 'connected'. */
    method Start()
      modifies elk
      ensures elk.sent == old(elk.sent) + [Connect]
    {
      elk.Issue(Connect);
    }

    /** The 'connected' handler. A rejected zone report is never caught, so
      Homebridge's callback is not called (None); any later rejected request,
      or a zone loop that throws, hands over an empty list; otherwise the
      whole list is handed over and the arming status requested. */
    method OnConnected(r: LegacyReplies) returns (handed: Option<seq<LegacyAccessory>>)
      requires Valid()
      modifies this`elkAccessories, this`zoneTexts, this`tasks, this`outputs, this`zoneAccessories, elk
      ensures Valid()
      ensures handed.None? <==> r.zoneReport.None?
      ensures handed.Some? && (r.areaText.None? || r.zoneTexts.None? || r.taskTexts.None? || r.outputTexts.None?
                               || ZoneLoopThrows(zoneTypes, r.zoneReport.value))
        ==> handed == Some([])
      ensures handed.Some? && handed.value != [] <==>
        r.zoneReport.Some? && r.areaText.Some? && r.zoneTexts.Some? && r.taskTexts.Some? && r.outputTexts.Some?
        && !ZoneLoopThrows(zoneTypes, r.zoneReport.value)
      ensures (r.zoneReport.Some? && r.areaText.Some? && r.zoneTexts.Some? && r.taskTexts.Some? && r.outputTexts.Some?
               && !ZoneLoopThrows(zoneTypes, r.zoneReport.value)) ==>
        handed == Some(elkAccessories)
        && Descriptors(elkAccessories)
           == Descriptors(old(elkAccessories)) + [Descriptor(PanelKind, Some(area), None)]
              + ItemDescriptors(TaskKind, r.taskTexts.value) + ItemDescriptors(OutputKind, r.outputTexts.value)
              + ZoneDescriptors(r.zoneReport.value, TypesOrNone(zoneTypes), garageDoors, ZoneTextTable(r.zoneTexts.value))
        && zoneAccessories.Keys == old(zoneAccessories).Keys + ZoneIds(r.zoneReport.value, TypesOrNone(zoneTypes), garageDoors)
        && |elk.sent| > 0 && elk.sent[|elk.sent| - 1] == RequestArmingStatus
    {
      elk.Issue(RequestZoneStatusReport);
      if r.zoneReport.None? {
        return None;
      }
      elk.Issue(RequestTextDescription(area, 1));
      if r.areaText.None? {
        return Some([]);
      }
      elkAccessories := elkAccessories + [PanelEntry(area, r.areaText.value)];
      DescriptorsSnoc(old(elkAccessories), PanelEntry(area, r.areaText.value));
      var ok := DescribeAll(r);
      if !ok {
        return Some([]);
      }
      ok := AddZones(r.zoneReport.value);
      if !ok {
        return Some([]);
      }
      handed := Some(elkAccessories);
      elk.Issue(RequestArmingStatus);
    }

    /** The zone, task and output text stages; false when a request is rejected. */
    method DescribeAll(r: LegacyReplies) returns (ok: bool)
      requires Valid()
      modifies this`elkAccessories, this`zoneTexts, this`tasks, this`outputs, elk
      ensures Valid()
      ensures ok <==> r.zoneTexts.Some? && r.taskTexts.Some? && r.outputTexts.Some?
      ensures ok ==>
        zoneTexts == Some(ZoneTextTable(r.zoneTexts.value))
        && Descriptors(elkAccessories)
           == Descriptors(old(elkAccessories)) + ItemDescriptors(TaskKind, r.taskTexts.value)
              + ItemDescriptors(OutputKind, r.outputTexts.value)
    {
      elk.Issue(RequestTextDescriptionAll(0));
      if r.zoneTexts.None? {
        return false;
      }
      FillZoneTexts(r.zoneTexts.value);
      elk.Issue(RequestTextDescriptionAll(5));
      if r.taskTexts.None? {
        return false;
      }
      AddTasks(r.taskTexts.value);
      elk.Issue(RequestTextDescriptionAll(4));
      if r.outputTexts.None? {
        return false;
      }
      AddOutputs(r.outputTexts.value);
      return true;
    }

    method FillZoneTexts(texts: seq<TextDescription>)
      modifies this`zoneTexts
      ensures zoneTexts == Some(ZoneTextTable(texts))
    {
      var table: map<nat, string> := map[];
      for i := 0 to |texts|
        invariant table == ZoneTextTable(texts[..i])
      {
        assert texts[..i + 1][..i] == texts[..i];
        table := table[texts[i].id := texts[i].description];
      }
      assert texts[..|texts|] == texts;
      zoneTexts := Some(table);
    }

    /** The task stage: a task accessory per description, keyed by id. */
    method AddTasks(texts: seq<TextDescription>)
      requires Valid()
      modifies this`elkAccessories, this`tasks
      ensures Valid()
      ensures Descriptors(elkAccessories) == Descriptors(old(elkAccessories)) + ItemDescriptors(TaskKind, texts)
      ensures tasks.Some? && tasks.value.Keys == TextIds(texts)
    {
      tasks := Some(map[]);
      for i := 0 to |texts|
        invariant Valid() && tasks.Some?
        invariant Descriptors(elkAccessories) == Descriptors(old(elkAccessories)) + ItemDescriptors(TaskKind, texts[..i])
        invariant tasks.value.Keys == TextIds(texts[..i])
      {
        assert texts[..i + 1][..i] == texts[..i] && texts[..i + 1][i] == texts[i];
        ghost var before := Descriptors(old(elkAccessories));
        assert before + ItemDescriptors(TaskKind, texts[..i + 1])
            == (before + ItemDescriptors(TaskKind, texts[..i])) + [ItemDescriptor(TaskKind, texts[i])];
        AddTask(texts[i]);
      }
      assert texts[..|texts|] == texts;
    }

    /** One pass of the task loop: a task accessory is created, listed and
        keyed by its id. */
    method AddTask(td: TextDescription)
      requires Valid() && tasks.Some?
      modifies this`elkAccessories, this`tasks
      ensures Valid() && tasks.Some?
      ensures Descriptors(elkAccessories) == Descriptors(old(elkAccessories)) + [ItemDescriptor(TaskKind, td)]
      ensures tasks.value.Keys == old(tasks.value.Keys) + {td.id}
    {
      var task := new LegacyTask(elk, td.id, Some(td.description));
      tasks := Some(tasks.value[td.id := task]);
      DescriptorsSnoc(elkAccessories, TaskEntry(task));
      elkAccessories := elkAccessories + [TaskEntry(task)];
    }

    /** The output stage: an output accessory per description, keyed by id. */
    method AddOutputs(texts: seq<TextDescription>)
      requires Valid()
      modifies this`elkAccessories, this`outputs
      ensures Valid()
      ensures Descriptors(elkAccessories) == Descriptors(old(elkAccessories)) + ItemDescriptors(OutputKind, texts)
      ensures outputs.Some? && outputs.value.Keys == TextIds(texts)
    {
      outputs := Some(map[]);
      for i := 0 to |texts|
        invariant Valid() && outputs.Some?
        invariant Descriptors(elkAccessories) == Descriptors(old(elkAccessories)) + ItemDescriptors(OutputKind, texts[..i])
        invariant outputs.value.Keys == TextIds(texts[..i])
      {
        assert texts[..i + 1][..i] == texts[..i] && texts[..i + 1][i] == texts[i];
        ghost var before := Descriptors(old(elkAccessories));
        assert before + ItemDescriptors(OutputKind, texts[..i + 1])
            == (before + ItemDescriptors(OutputKind, texts[..i])) + [ItemDescriptor(OutputKind, texts[i])];
        AddOutput(texts[i]);
      }
      assert texts[..|texts|] == texts;
    }

    /** One pass of the output loop: a output accessory is created, listed and
        keyed by its id. */
    method AddOutput(td: TextDescription)
      requires Valid() && outputs.Some?
      modifies this`elkAccessories, this`outputs
      ensures Valid() && outputs.Some?
      ensures Descriptors(elkAccessories) == Descriptors(old(elkAccessories)) + [ItemDescriptor(OutputKind, td)]
      ensures outputs.value.Keys == old(outputs.value.Keys) + {td.id}
    {
      var output := new LegacyOutput(elk, td.id, Some(td.description));
      outputs := Some(outputs.value[td.id := output]);
      DescriptorsSnoc(elkAccessories, OutputEntry(output));
      elkAccessories := elkAccessories + [OutputEntry(output)];
    }

    /** The type switch for one selected zone. */
    method MakeZone(zone: ZoneMessage, zoneType: string, name: Option<string>) returns (z: Option<ZoneAccessory>)
      requires DoorsKeyed(garageDoors)
      ensures var types := map[zone.id := zoneType];
        var d := ZoneDescriptor(zone.(logicalState := ""), types, garageDoors, if name.Some? then map[zone.id := name.value] else map[]);
        (z.Some? <==> d.Some?)
        && (z.Some? ==> Describe(ZoneEntry(z.value)) == d.value && ZoneAccessoryId(z.value) == Some(zone.id)
                        && fresh(ZoneObject(z.value)))
    {
      if zoneType == "contact" {
        var c := new LegacyContact(zone.id, name);
        z := Some(ContactZone(c));
      } else if zoneType == "motion" {
        var m := new LegacyMotion(zone.id, name);
        z := Some(MotionZone(m));
      } else if zoneType == "smoke" {
        var s := new LegacySmoke(zone.id, name);
        z := Some(SmokeZone(s));
      } else if zoneType == "garage" && Some(zone.id) in garageDoors {
        var d := new LegacyGarageDoor(elk, garageDoors[Some(zone.id)]);
        z := Some(GarageZone(d));
      } else {
        z := None;
      }
    }

    /** The zone loop: configured zones with a zone type get an accessory, which
      is listed and bound to the zone id, replacing an earlier binding. */
    method AddZones(zones: seq<ZoneMessage>) returns (ok: bool)
      requires Valid() && zoneTexts.Some?
      modifies this`elkAccessories, this`zoneAccessories
      ensures Valid()
      ensures ok <==> !ZoneLoopThrows(zoneTypes, zones)
      ensures !ok ==> elkAccessories == old(elkAccessories) && zoneAccessories == old(zoneAccessories)
      ensures ok ==>
        Descriptors(elkAccessories)
          == Descriptors(old(elkAccessories)) + ZoneDescriptors(zones, TypesOrNone(zoneTypes), garageDoors, zoneTexts.value)
        && zoneAccessories.Keys == old(zoneAccessories).Keys + ZoneIds(zones, TypesOrNone(zoneTypes), garageDoors)
    {
      ghost var types := TypesOrNone(zoneTypes);
      ghost var texts := zoneTexts.value;
      ghost var before := Descriptors(elkAccessories);
      ghost var keysBefore := zoneAccessories.Keys;
      var i := 0;
      while i < |zones|
        invariant 0 <= i <= |zones| && Valid() && zoneTexts == Some(texts)
        invariant forall j :: 0 <= j < i ==> zoneTypes.Some? || zones[j].logicalState == "Unconfigured"
        invariant Descriptors(elkAccessories) == before + ZoneDescriptors(zones[..i], types, garageDoors, texts)
        invariant zoneAccessories.Keys == keysBefore + ZoneIds(zones[..i], types, garageDoors)
        invariant zoneTypes.None? ==> elkAccessories == old(elkAccessories) && zoneAccessories == old(zoneAccessories)
      {
        var zone := zones[i];
        if zone.logicalState != "Unconfigured" && zoneTypes.None? {
          return false;
        }
        AddZoneAt(zones, i, before, keysBefore);
        i := i + 1;
      }
      assert zones[..|zones|] == zones;
      return true;
    }

    /** The zone loop's pass over `zones[i]`, extending what the passes over
        `zones[..i]` produced to what the passes over `zones[..i + 1]` produce. */
    method AddZoneAt(zones: seq<ZoneMessage>, i: nat, ghost before: seq<Descriptor>, ghost keysBefore: set<nat>)
      requires Valid() && zoneTexts.Some? && i < |zones|
      requires zoneTypes.Some? || zones[i].logicalState == "Unconfigured"
      requires Descriptors(elkAccessories) == before + ZoneDescriptors(zones[..i], TypesOrNone(zoneTypes), garageDoors, zoneTexts.value)
      requires zoneAccessories.Keys == keysBefore + ZoneIds(zones[..i], TypesOrNone(zoneTypes), garageDoors)
      modifies this`elkAccessories, this`zoneAccessories
      ensures Valid()
      ensures Descriptors(elkAccessories) == before + ZoneDescriptors(zones[..i + 1], TypesOrNone(zoneTypes), garageDoors, zoneTexts.value)
      ensures zoneAccessories.Keys == keysBefore + ZoneIds(zones[..i + 1], TypesOrNone(zoneTypes), garageDoors)
      ensures zoneTypes.None? ==> elkAccessories == old(elkAccessories) && zoneAccessories == old(zoneAccessories)
    {
      ghost var types := TypesOrNone(zoneTypes);
      ZoneLoopStep(zones, i, types, garageDoors, zoneTexts.value);
      ghost var d := ZoneDescriptor(zones[i], types, garageDoors, zoneTexts.value);
      ghost var added := if d.Some? then [d.value] else [];
      assert before + ZoneDescriptors(zones[..i + 1], types, garageDoors, zoneTexts.value)
          == (before + ZoneDescriptors(zones[..i], types, garageDoors, zoneTexts.value)) + added;
      AddZone(zones[i]);
    }

    /** One pass of the zone loop, for a zone the loop does not throw on. */
    method AddZone(zone: ZoneMessage)
      requires Valid() && zoneTexts.Some?
      requires zoneTypes.Some? || zone.logicalState == "Unconfigured"
      modifies this`elkAccessories, this`zoneAccessories
      ensures Valid()
      ensures var d := ZoneDescriptor(zone, TypesOrNone(zoneTypes), garageDoors, zoneTexts.value);
        Descriptors(elkAccessories) == Descriptors(old(elkAccessories)) + (if d.Some? then [d.value] else [])
        && zoneAccessories.Keys == old(zoneAccessories).Keys + (if d.Some? then {zone.id} else {})
      ensures zoneTypes.None? ==> elkAccessories == old(elkAccessories) && zoneAccessories == old(zoneAccessories)
    {
      if zone.logicalState != "Unconfigured" && zone.id in zoneTypes.value {
        var name := ZoneName(zoneTexts.value, zone.id);
        var newZone := MakeZone(zone, zoneTypes.value[zone.id], name);
        ZoneDescriptorOfSelected(zone, zoneTypes.value, garageDoors, zoneTexts.value);
        if newZone.Some? {
          DescriptorsSnoc(elkAccessories, ZoneEntry(newZone.value));
          elkAccessories := elkAccessories + [ZoneEntry(newZone.value)];
          zoneAccessories := zoneAccessories[zone.id := newZone.value];
        } else {
          assert Descriptors(elkAccessories) + [] == Descriptors(elkAccessories);
        }
      } else {
        assert Descriptors(elkAccessories) + [] == Descriptors(elkAccessories);
        assert zoneAccessories.Keys + {} == zoneAccessories.Keys;
      }
    }

    // ------------------------------------------------------------ event routing

    /** The ZC handler: the accessory bound to the zone id, if any, takes the
      message; an unbound id changes nothing. */
    method OnZoneChange(msg: ZoneMessage)
      requires Valid()
      modifies if msg.id in zoneAccessories then {ZoneObject(zoneAccessories[msg.id])} else {}
      ensures msg.id in zoneAccessories ==>
        match zoneAccessories[msg.id]
        case ContactZone(c) => c.contactState == ContactFromMessage(msg)
        case MotionZone(m) => m.motionState == (msg.logicalState != "Normal")
        case SmokeZone(s) => s.motionState == Some(msg.logicalState != "Normal")
        case GarageZone(d) => d.State() == AfterDoorMessage(old(d.State()), msg)
      ensures msg.id in zoneAccessories ==>
        match zoneAccessories[msg.id]
        case ContactZone(c) => c.pushed == old(c.pushed) + [Push(ContactSensorState, HKBool(ContactFromMessage(msg)))]
        case MotionZone(m) => m.pushed == old(m.pushed) + [Push(MotionDetected, HKBool(msg.logicalState != "Normal"))]
        case SmokeZone(s) => s.pushed == old(s.pushed) + [Push(SmokeDetected, HKBool(false))]
        case GarageZone(d) => d.pushed == old(d.pushed) + DoorMessagePushes(old(d.State()), msg)
    {
      if msg.id in zoneAccessories {
        match zoneAccessories[msg.id]
        case ContactZone(c) => c.SetStatusFromMessage(msg);
        case MotionZone(m) => m.SetStatusFromMessage(msg);
        case SmokeZone(s) => s.SetStatusFromMessage(msg);
        case GarageZone(d) => d.SetStatusFromMessage(msg);
      }
    }

    /** The CC handler: the output with the message's id, if any, takes its
      state. Before the output stage the output table is undefined and the
      lookup throws. */
    method OnOutputChange(msg: OutputChange) returns (threw: bool)
      requires Valid()
      modifies if outputs.Some? && msg.id >= 0 && msg.id as nat in outputs.value then {outputs.value[msg.id as nat]} else {}
      ensures threw <==> outputs.None?
      ensures outputs.Some? && msg.id >= 0 && msg.id as nat in outputs.value ==>
        var o := outputs.value[msg.id as nat];
        o.id == msg.id && (o.outputState <==> msg.state == "On")
        && o.pushed == old(o.pushed) + [Push(On, HKBool(msg.state == "On"))]
    {
      if outputs.None? {
        return true;
      }
      if msg.id >= 0 && msg.id as nat in outputs.value {
        outputs.value[msg.id as nat].SetStatusFromMessage(msg);
      }
      return false;
    }
  }

  /** Where the zone loop reaches `MakeZone`, its result is the zone's descriptor. */
  lemma ZoneDescriptorOfSelected(zone: ZoneMessage, zoneTypes: map<nat, string>, garageDoors: map<Option<nat>, GarageDoorConfig>,
                                 zoneTexts: map<nat, string>)
    requires DoorsKeyed(garageDoors)
    requires zone.logicalState != "Unconfigured" && zone.id in zoneTypes
    ensures ZoneDescriptor(zone, zoneTypes, garageDoors, zoneTexts)
         == ZoneDescriptor(zone.(logicalState := ""), map[zone.id := zoneTypes[zone.id]], garageDoors,
                           if zone.id in zoneTexts then map[zone.id := zoneTexts[zone.id]] else map[])
  {
  }
}
