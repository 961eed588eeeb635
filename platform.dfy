/** The dynamic platform of src/platform.ts: it owns the panel link, keeps the
    connection alive with a capped exponential retry, discovers the panel's
    areas, tasks, outputs and zones into accessories, and routes zone-change
    events to the zone and garage-door accessories it created. */
module Platform {
  import opened ElkTypes
  import opened PlatformConfig
  import InputAccessory
  import GarageDoorAccessory
  import OutputAccessory
  import TaskAccessory
  import TemperatureAccessory

  /** The panel's answers to discovery's requests. A None reply, or an area
      missing from `areaTexts`, is a rejected request. */
  datatype DiscoveryReplies = DiscoveryReplies(
    zoneReport: Option<seq<ZoneMessage>>,
    areaTexts: map<nat, string>,
    zoneTexts: Option<seq<TextDescription>>,
    taskTexts: Option<seq<TextDescription>>,
    outputTexts: Option<seq<TextDescription>>)

  /** Whether discovery reached 'Startup complete' or went through its catch block. */
  datatype DiscoveryOutcome = Completed | Failed

  /** A door's state after the initial sync from the zone report. */
  function SyncedDoor(s: GarageDoorAccessory.DoorState, stateZone: nat, obstructionZone: Option<nat>,
                      zones: seq<ZoneMessage>): GarageDoorAccessory.DoorState
    requires SyncReadable(stateZone, obstructionZone, zones)
  {
    var afterState := GarageDoorAccessory.AfterSetState(s, zones[stateZone - 1]);
    if obstructionZone.Some? then GarageDoorAccessory.AfterSetObstruction(afterState, zones[obstructionZone.value])
    else afterState
  }

  /** One more upsert after a run is the longer run. */
  lemma UpsertAllSnoc(reg: Registry, uuidOf: string -> string, es: seq<Entry>, e: Entry)
    ensures UpsertAll(reg, uuidOf, es + [e]) == Upsert(UpsertAll(reg, uuidOf, es), uuidOf(e.identity), e.name, e.device)
  {
    assert (es + [e])[..|es|] == es;
  }

  /** Running a list of upserts after another is running their concatenation. */
  lemma {:induction false} UpsertAllConcat(reg: Registry, uuidOf: string -> string, a: seq<Entry>, b: seq<Entry>)
    ensures UpsertAll(UpsertAll(reg, uuidOf, a), uuidOf, b) == UpsertAll(reg, uuidOf, a + b)
    decreases |b|
  {
    if b == [] {
      assert a + b == a;
    } else {
      var front, last := b[..|b| - 1], b[|b| - 1];
      assert b == front + [last];
      UpsertAllConcat(reg, uuidOf, a, front);
      UpsertAllSnoc(UpsertAll(reg, uuidOf, a), uuidOf, front, last);
      assert a + b == (a + front) + [last];
      UpsertAllSnoc(reg, uuidOf, a + front, last);
    }
  }

  /** The item list of one more text. */
  lemma ItemEntriesSnoc(kind: AccessoryKind, texts: seq<TextDescription>, included: seq<nat>, td: TextDescription)
    ensures ItemEntries(kind, texts + [td], included)
      == ItemEntries(kind, texts, included) + if td.id in included then [ItemEntry(kind, td)] else []
  {
    assert (texts + [td])[..|texts|] == texts;
  }

  /** The zone summaries of one more zone. */
  lemma ZonesSnoc(zones: seq<ZoneMessage>, t: ZoneTables, z: ZoneMessage)
    ensures var e := ZoneEntry(z, t);
      ZoneEntries(zones + [z], t) == ZoneEntries(zones, t) + if e.Some? then [e.value] else []
    ensures InputZoneIds(zones + [z], t) == InputZoneIds(zones, t) + if ZoneActionOf(z, t).MakeInput? then {z.id} else {}
    ensures GarageDoorCount(zones + [z], t) == GarageDoorCount(zones, t) + if ZoneActionOf(z, t).MakeGarageDoor? then 1 else 0
    ensures HasTemperatureZone(zones + [z], t) == (HasTemperatureZone(zones, t) || ZoneActionOf(z, t).MakeTemperature?)
  {
    var zs := zones + [z];
    assert zs[..|zones|] == zones;
    assert zs[|zones|] == z;
    if HasTemperatureZone(zs, t) {
      var j :| 0 <= j < |zs| && ZoneActionOf(zs[j], t).MakeTemperature?;
      if j < |zones| {
        assert zs[j] == zones[j];
      }
    }
    if HasTemperatureZone(zones, t) {
      var j :| 0 <= j < |zones| && ZoneActionOf(zones[j], t).MakeTemperature?;
      assert zs[j] == zones[j];
    }
  }

  /** What the zone loop of discovery has done so far, as far as the platform
      keeps it: the registry, the zone ids bound to inputs, how many doors it
      holds, and whether a temperature zone was seen. */
  datatype ZoneSummary = ZoneSummary(reg: Registry, inputIds: set<nat>, doors: nat, temperature: bool)

  /** What one `addZone` does to the summary. A throwing input zone gets only
      as far as restoring a cached accessory's context. */
  function ZoneStep(s: ZoneSummary, zone: ZoneMessage, t: ZoneTables, uuidOf: string -> string): ZoneSummary
  {
    var a := ZoneActionOf(zone, t);
    var e := ZoneEntry(zone, t);
    if ZoneThrows(zone, t) then s.(reg := Restored(s.reg, uuidOf(e.value.identity), e.value.device))
    else ZoneSummary(
      if e.Some? then Upsert(s.reg, uuidOf(e.value.identity), e.value.name, e.value.device) else s.reg,
      s.inputIds + (if a.MakeInput? then {zone.id} else {}),
      s.doors + (if a.MakeGarageDoor? then 1 else 0),
      s.temperature || a.MakeTemperature?)
  }

  /** `ZoneStep` for each kind of zone. */
  lemma ZoneStepInput(s: ZoneSummary, zone: ZoneMessage, t: ZoneTables, uuidOf: string -> string, kind: InputAccessory.InputKind)
    requires ZoneActionOf(zone, t) == MakeInput(kind)
    ensures zone.id in t.zoneTypes
    ensures ZoneThrows(zone, t) <==> !InputAccessory.HasService(kind)
    ensures var d := ZoneDeviceOf(zone, t);
      InputAccessory.HasService(kind) ==>
      ZoneStep(s, zone, t, uuidOf)
      == ZoneSummary(Upsert(s.reg, uuidOf(Identity(InputIdentity(kind), zone.id)), d.zoneName, d),
                     s.inputIds + {zone.id}, s.doors, s.temperature)
    ensures var d := ZoneDeviceOf(zone, t);
      !InputAccessory.HasService(kind) ==>
      ZoneStep(s, zone, t, uuidOf) == s.(reg := Restored(s.reg, uuidOf(Identity(InputIdentity(kind), zone.id)), d))
  {
  }

  lemma ZoneStepGarageDoor(s: ZoneSummary, zone: ZoneMessage, t: ZoneTables, uuidOf: string -> string, config: GarageDoorConfig)
    requires ZoneActionOf(zone, t) == MakeGarageDoor(config)
    ensures var name := GarageDoorName(config, zone.id);
      ZoneStep(s, zone, t, uuidOf)
      == ZoneSummary(Upsert(s.reg, uuidOf(Identity(GarageDoorIdentity, zone.id)), Some(name), GarageDoorDevice(zone.id, name, config)),
                     s.inputIds, s.doors + 1, s.temperature)
  {
    assert s.inputIds + {} == s.inputIds;
  }

  lemma ZoneStepTemperature(s: ZoneSummary, zone: ZoneMessage, t: ZoneTables, uuidOf: string -> string)
    requires ZoneActionOf(zone, t) == MakeTemperature
    ensures zone.id in t.zoneTypes
    ensures var d := ZoneDeviceOf(zone, t);
      ZoneStep(s, zone, t, uuidOf)
      == ZoneSummary(Upsert(s.reg, uuidOf(Identity(TemperatureIdentity, zone.id)), d.zoneName, d), s.inputIds, s.doors, true)
  {
    assert s.inputIds + {} == s.inputIds;
  }

  lemma ZoneStepNone(s: ZoneSummary, zone: ZoneMessage, t: ZoneTables, uuidOf: string -> string)
    requires ZoneActionOf(zone, t) == NoAccessory
    ensures ZoneStep(s, zone, t, uuidOf) == s
  {
    assert s.inputIds + {} == s.inputIds;
  }

  /** A zone that does not throw runs its `addZone` to the end. */
  lemma ZoneStepCompleted(s: ZoneSummary, zone: ZoneMessage, t: ZoneTables, uuidOf: string -> string)
    requires !ZoneThrows(zone, t)
    ensures var a := ZoneActionOf(zone, t);
      var e := ZoneEntry(zone, t);
      ZoneStep(s, zone, t, uuidOf)
      == ZoneSummary(if e.Some? then Upsert(s.reg, uuidOf(e.value.identity), e.value.name, e.value.device) else s.reg,
                     s.inputIds + (if a.MakeInput? then {zone.id} else {}),
                     s.doors + (if a.MakeGarageDoor? then 1 else 0),
                     s.temperature || a.MakeTemperature?)
  {
  }

  /** The zone loop, one zone after the other. */
  function ZoneLoop(s: ZoneSummary, zones: seq<ZoneMessage>, t: ZoneTables, uuidOf: string -> string): ZoneSummary
    decreases |zones|
  {
    if zones == [] then s
    else ZoneStep(ZoneLoop(s, zones[..|zones| - 1], t, uuidOf), zones[|zones| - 1], t, uuidOf)
  }

  /** Over zones none of which throws, the zone loop upserts exactly the
      entries of the configured zones, binds exactly the input zones, adds one
      door per configured garage zone, and sets the temperature flag exactly
      when some zone is a temperature zone. */
  lemma {:induction false} ZoneLoopSummary(s: ZoneSummary, zones: seq<ZoneMessage>, t: ZoneTables, uuidOf: string -> string)
    requires forall j :: 0 <= j < |zones| ==> !ZoneThrows(zones[j], t)
    ensures ZoneLoop(s, zones, t, uuidOf)
      == ZoneSummary(UpsertAll(s.reg, uuidOf, ZoneEntries(zones, t)), s.inputIds + InputZoneIds(zones, t),
                     s.doors + GarageDoorCount(zones, t), s.temperature || HasTemperatureZone(zones, t))
    decreases |zones|
  {
    if zones == [] {
      assert s.inputIds + {} == s.inputIds;
    } else {
      var front, z := zones[..|zones| - 1], zones[|zones| - 1];
      assert zones == front + [z];
      assert !ZoneThrows(z, t);
      assert forall j :: 0 <= j < |front| ==> !ZoneThrows(front[j], t) by {
        forall j | 0 <= j < |front| ensures !ZoneThrows(front[j], t) {
          assert front[j] == zones[j];
        }
      }
      ZoneLoopSummary(s, front, t, uuidOf);
      ZoneStepCompleted(ZoneLoop(s, front, t, uuidOf), z, t, uuidOf);
      ZonesSnoc(front, t, z);
      var e := ZoneEntry(z, t);
      if e.Some? {
        UpsertAllSnoc(s.reg, uuidOf, ZoneEntries(front, t), e.value);
      } else {
        assert ZoneEntries(front, t) + [] == ZoneEntries(front, t);
      }
      var x: set<nat> := if ZoneActionOf(z, t).MakeInput? then {z.id} else {};
      assert s.inputIds + InputZoneIds(front, t) + x == s.inputIds + (InputZoneIds(front, t) + x);
    }
  }

  /** The zone loop up to a zone that throws: the zones before it run to the
      end, and the throwing zone only restores its cached context. */
  lemma ZoneLoopThrowing(s: ZoneSummary, zones: seq<ZoneMessage>, t: ZoneTables, uuidOf: string -> string, i: nat)
    requires i < |zones| && ZoneThrows(zones[i], t)
    requires forall j :: 0 <= j < i ==> !ZoneThrows(zones[j], t)
    ensures var e := ZoneEntry(zones[i], t).value;
      ZoneLoop(s, zones[..i + 1], t, uuidOf)
      == ZoneSummary(Restored(UpsertAll(s.reg, uuidOf, ZoneEntries(zones[..i], t)), uuidOf(e.identity), e.device),
                     s.inputIds + InputZoneIds(zones[..i], t),
                     s.doors + GarageDoorCount(zones[..i], t), s.temperature || HasTemperatureZone(zones[..i], t))
  {
    var reached := zones[..i + 1];
    assert reached[..|reached| - 1] == zones[..i] && reached[|reached| - 1] == zones[i];
    assert forall j :: 0 <= j < i ==> !ZoneThrows(zones[..i][j], t) by {
      forall j | 0 <= j < i ensures !ZoneThrows(zones[..i][j], t) {
        assert zones[..i][j] == zones[j];
      }
    }
    ZoneLoopSummary(s, zones[..i], t, uuidOf);
  }

  /** What the zone loop of discovery leaves over all the zones it reaches:
      the summary of every zone, or, when a zone throws, the summary of the
      zones before it with only that zone's cached context restored. */
  lemma ZoneLoopReached(s: ZoneSummary, zones: seq<ZoneMessage>, t: ZoneTables, uuidOf: string -> string)
    ensures FirstThrowingZone(zones, t).None? ==>
      ZoneLoop(s, ZonesReached(zones, t), t, uuidOf)
      == ZoneSummary(UpsertAll(s.reg, uuidOf, ZoneEntries(zones, t)), s.inputIds + InputZoneIds(zones, t),
                     s.doors + GarageDoorCount(zones, t), s.temperature || HasTemperatureZone(zones, t))
    ensures FirstThrowingZone(zones, t).Some? ==>
      var i := FirstThrowingZone(zones, t).value;
      var e := ZoneEntry(zones[i], t).value;
      ZoneLoop(s, ZonesReached(zones, t), t, uuidOf)
      == ZoneSummary(Restored(UpsertAll(s.reg, uuidOf, ZoneEntries(zones[..i], t)), uuidOf(e.identity), e.device),
                     s.inputIds + InputZoneIds(zones[..i], t),
                     s.doors + GarageDoorCount(zones[..i], t), s.temperature || HasTemperatureZone(zones[..i], t))
  {
    match FirstThrowingZone(zones, t)
    case None =>
      assert ZonesReached(zones, t) == zones;
      ZoneLoopSummary(s, zones, t, uuidOf);
    case Some(i) =>
      assert ZonesReached(zones, t) == zones[..i + 1];
      ZoneLoopThrowing(s, zones, t, uuidOf, i);
  }

  /** The zone loop over one more zone of a list. */
  lemma ZoneLoopSnoc(s: ZoneSummary, zones: seq<ZoneMessage>, t: ZoneTables, uuidOf: string -> string, i: nat)
    requires i < |zones|
    ensures ZoneLoop(s, zones[..i + 1], t, uuidOf) == ZoneStep(ZoneLoop(s, zones[..i], t, uuidOf), zones[i], t, uuidOf)
  {
    assert zones[..i + 1][..i] == zones[..i];
  }

  /** `s` ends with `suffix`. */
  predicate EndsWith(s: seq<Command>, suffix: seq<Command>)
  {
    |suffix| <= |s| && s[|s| - |suffix|..] == suffix
  }

  lemma EndsWithAppend(pre: seq<Command>, a: seq<Command>, b: seq<Command>)
    ensures EndsWith(pre + a + b, a + b)
  {
    assert (pre + a + b)[|pre|..] == a + b;
  }

  class ElkM1Platform {
    const elk: PanelLink
    /** `api.hap.uuid.generate`, deterministic and otherwise unknown. */
    const uuidOf: string -> string
    const areaConfigs: seq<AreaConfig>
    const includedTasks: seq<nat>
    const includedOutputs: seq<nat>
    const zoneTypes: map<nat, ZoneConfig>
    const garageDoors: map<Option<nat>, GarageDoorConfig>

    /** Restored accessories (`configureAccessory`) and every registration made. */
    var accessories: seq<CachedAccessory>
    var registered: seq<CachedAccessory>
    var zoneTexts: map<nat, string>
    var zoneAccessories: map<nat, InputAccessory.ElkInput>
    var garageDoorAccessories: seq<GarageDoorAccessory.ElkGarageDoor>

    var retryDelay: int
    var hasTemperatureZone: bool
    var connecting: bool
    var connected: bool
    /** Delays of the retry timers armed by 'error' and not yet fired. */
    var pendingRetries: seq<int>
    /** Temperature poll intervals started by discovery. */
    var temperaturePolls: nat
    /** Errors since the last successful connection. */
    ghost var errorsSinceConnect: nat

    function Session(): Session
      reads this`connecting, this`connected, this`retryDelay, this`pendingRetries
    {
      PlatformConfig.Session(connecting, connected, retryDelay, pendingRetries)
    }

    function Registry(): Registry
      reads this`accessories, this`registered
    {
      PlatformConfig.Registry(accessories, registered)
    }

    function Tables(): ZoneTables
      reads this`zoneTexts
    {
      ZoneTables(zoneTypes, zoneTexts, garageDoors)
    }

    function Summary(): ZoneSummary
      reads this`accessories, this`registered, this`zoneAccessories, this`garageDoorAccessories, this`hasTemperatureZone
    {
      ZoneSummary(Registry(), zoneAccessories.Keys, |garageDoorAccessories|, hasTemperatureZone)
    }

    /** The registry after the task and output text stages: every selected
      task, then every selected output, added or updated in reply order. */
    function Described(reg: Registry, tasks: seq<TextDescription>, outputs: seq<TextDescription>): Registry
    {
      UpsertAll(UpsertAll(reg, uuidOf, ItemEntries(TaskIdentity, tasks, includedTasks)),
                uuidOf, ItemEntries(OutputIdentity, outputs, includedOutputs))
    }

    /** The garage-door table is keyed by each door's state zone. */
    ghost predicate DoorTableKeyed()
    {
      forall k :: k in garageDoors ==> garageDoors[k].stateZone == k
    }

    /** No door object is held twice. */
    ghost predicate DoorsDistinct()
      reads this`garageDoorAccessories
    {
      forall i, j :: 0 <= i < j < |garageDoorAccessories| ==> garageDoorAccessories[i] != garageDoorAccessories[j]
    }

    /** The retry delay is the one the errors since the last connection have grown it to. */
    ghost predicate SessionConsistent()
      reads this`connecting, this`connected, this`retryDelay, this`pendingRetries, this`errorsSinceConnect
    {
      retryDelay == RetryDelayAfter(errorsSinceConnect) && SessionValid(Session())
    }

    /** Every input bound to a zone has a service: the ZC handler's status
      update never throws. */
    ghost predicate BoundInputsServed()
      reads this`zoneAccessories
    {
      forall id :: id in zoneAccessories ==> zoneAccessories[id].HasServiceSet()
    }

    ghost predicate Valid()
      reads this`garageDoorAccessories, this`connecting, this`connected, this`retryDelay, this`pendingRetries
      reads this`errorsSinceConnect, this`zoneAccessories
    {
      DoorTableKeyed() && DoorsDistinct() && SessionConsistent() && BoundInputsServed()
    }

    /** The zone stage ends without an exception: no zone's `addZone` throws,
      and the initial sync can read every door's zones from the report. */
    predicate ZoneStageCompletes(zones: seq<ZoneMessage>)
      reads this`zoneTexts, this`garageDoorAccessories
    {
      FirstThrowingZone(zones, Tables()).None?
      && forall k :: 0 <= k < |garageDoorAccessories| ==>
        SyncReadable(garageDoorAccessories[k].stateZone, garageDoorAccessories[k].obstructionZone, zones)
    }

    /** Configuration normalisation; the garage doors are entered one by one. */
    constructor (settings: PlatformSettings, uuidOf: string -> string)
      ensures Valid() && fresh(elk) && elk.sent == []
      ensures this.uuidOf == uuidOf
      ensures areaConfigs == AreaConfigs(settings)
      ensures includedTasks == IncludedOrNone(settings.includedTasks)
      ensures includedOutputs == IncludedOrNone(settings.includedOutputs)
      ensures zoneTypes == ZoneTypesTable(settings.zoneTypes)
      ensures garageDoors == if settings.garageDoors.Some? then GarageDoorTable(settings.garageDoors.value) else map[]
      ensures Session() == InitialSession && Registry() == PlatformConfig.Registry([], [])
      ensures zoneTexts == map[] && zoneAccessories == map[] && garageDoorAccessories == []
      ensures !hasTemperatureZone && temperaturePolls == 0
    {
      var table: map<Option<nat>, GarageDoorConfig> := map[];
      if settings.garageDoors.Some? {
        var doors := settings.garageDoors.value;
        var i := 0;
        while i < |doors|
          invariant 0 <= i <= |doors|
          invariant table == GarageDoorTable(doors[..i])
        {
          table := table[doors[i].stateZone := doors[i]];
          assert doors[..i + 1][..i] == doors[..i];
          i := i + 1;
        }
        assert doors[..|doors|] == doors;
        forall k | k in table ensures table[k].stateZone == k {
          GarageDoorTableKeyed(doors, k);
        }
      }
      elk := new PanelLink();
      this.uuidOf := uuidOf;
      areaConfigs := AreaConfigs(settings);
      includedTasks := IncludedOrNone(settings.includedTasks);
      includedOutputs := IncludedOrNone(settings.includedOutputs);
      zoneTypes := ZoneTypesTable(settings.zoneTypes);
      garageDoors := table;
      accessories, registered := [], [];
      zoneTexts, zoneAccessories, garageDoorAccessories := map[], map[], [];
      retryDelay := InitialRetryDelay;
      hasTemperatureZone, connecting, connected := false, false, false;
      pendingRetries, temperaturePolls := [], 0;
      errorsSinceConnect := 0;
    }

    /** Homebridge hands over an accessory restored from its cache. */
    method ConfigureAccessory(accessory: CachedAccessory)
      modifies this`accessories
      ensures accessories == old(accessories) + [accessory]
    {
      accessories := accessories + [accessory];
    }

    // ------------------------------------------------------------ connection

    /** `connect()`; `throws` says whether the link throws at once. */
    method Connect(throws: bool)
      requires Valid()
      modifies this`connecting, elk
      ensures Valid()
      ensures Session() == AfterConnect(old(Session()), throws)
      ensures elk.sent == old(elk.sent) + ConnectCommands(old(Session()))
    {
      if connecting {
        return;
      }
      connecting := true;
      elk.Issue(Command.Connect);
      if throws {
        connecting := false;
      }
    }

    /** The 'error' handler: arms a retry with the current delay, then grows the delay. */
    method OnError()
      requires Valid()
      modifies this`connected, this`pendingRetries, this`retryDelay, this`errorsSinceConnect
      ensures Valid()
      ensures Session() == AfterError(old(Session()))
      ensures errorsSinceConnect == old(errorsSinceConnect) + 1
    {
      SessionValidPreserved(Session(), 0, false);
      connected := false;
      pendingRetries := pendingRetries + [retryDelay];
      retryDelay := NextRetryDelay(retryDelay);
      errorsSinceConnect := errorsSinceConnect + 1;
    }

    /** The retry timer armed with delay `pendingRetries[k]` fires. */
    method FireRetry(k: nat, throws: bool)
      requires Valid() && k < |pendingRetries|
      modifies this`pendingRetries, this`connecting, elk
      ensures Valid()
      ensures Session() == AfterFireRetry(old(Session()), k, throws)
      ensures elk.sent == old(elk.sent) + ConnectCommands(old(Session()))
    {
      SessionValidPreserved(Session(), k, throws);
      pendingRetries := RemoveAt(pendingRetries, k);
      Connect(throws);
    }

    /** The 'connected' handler. Discovery is started but not awaited: it runs
      up to its first request, the zone status report, and the handler resets
      the delay before any reply arrives. The rest of discovery is
      `DiscoverDevices`. */
    method OnConnected()
      requires Valid()
      modifies this`connecting, this`connected, this`retryDelay, this`errorsSinceConnect, elk
      ensures Valid()
      ensures !connecting && connected && retryDelay == InitialRetryDelay && errorsSinceConnect == 0
      ensures elk.sent == old(elk.sent) + [RequestZoneStatusReport]
    {
      connecting := false;
      connected := true;
      elk.Issue(RequestZoneStatusReport);
      retryDelay := InitialRetryDelay;
      errorsSinceConnect := 0;
    }

    /** One tick of a temperature poll interval. */
    method FireTemperaturePoll()
      requires temperaturePolls > 0
      modifies elk
      ensures elk.sent == old(elk.sent) + [RequestTemperature]
    {
      elk.Issue(RequestTemperature);
    }

    // ------------------------------------------------------------ upserts

    /** The find-then-replace-or-register pattern every `add*` shares. */
    method UpsertAccessory(identity: string, name: Option<string>, device: Device)
      modifies this`accessories, this`registered
      ensures Registry() == Upsert(old(Registry()), uuidOf(identity), name, device)
    {
      var uuid := uuidOf(identity);
      var existing := FirstWithUuid(accessories, uuid);
      if existing.Some? {
        accessories := accessories[existing.value := accessories[existing.value].(device := Some(device))];
      } else {
        registered := registered + [CachedAccessory(uuid, name, Some(device))];
      }
    }

    /** `addPanel`. The security-area class is called with the new-style
      arguments `(platform, accessory)` but takes the old-style ones, so its
      first statement reads `hap` of the platform object, which has none, and
      throws. A restored accessory has its context replaced before that; a new
      one is never registered. */
    method AddPanel(device: Device)
      requires device.PanelDevice?
      modifies this`accessories
      ensures var i := FirstWithUuid(old(accessories), uuidOf(Identity(PanelIdentity, device.area)));
        accessories == if i.Some? then old(accessories)[i.value := old(accessories)[i.value].(device := Some(device))]
                       else old(accessories)
    {
      var uuid := uuidOf(Identity(PanelIdentity, device.area));
      var existing := FirstWithUuid(accessories, uuid);
      if existing.Some? {
        accessories := accessories[existing.value := accessories[existing.value].(device := Some(device))];
      }
    }

    method AddOutput(td: TextDescription)
      modifies this`accessories, this`registered
      ensures Registry() == Upsert(old(Registry()), uuidOf(ItemEntry(OutputIdentity, td).identity),
                                   Some(td.description), ItemDevice(td.id, td.description))
    {
      UpsertAccessory(Identity(OutputIdentity, td.id), Some(td.description), ItemDevice(td.id, td.description));
      var handler := new OutputAccessory.ElkOutput(elk, td.id, Some(td.description));
    }

    method AddTask(td: TextDescription)
      modifies this`accessories, this`registered
      ensures Registry() == Upsert(old(Registry()), uuidOf(ItemEntry(TaskIdentity, td).identity),
                                   Some(td.description), ItemDevice(td.id, td.description))
    {
      UpsertAccessory(Identity(TaskIdentity, td.id), Some(td.description), ItemDevice(td.id, td.description));
      var handler := new TaskAccessory.ElkTask(elk, td.id, Some(td.description));
    }

    method AddTemperatureZone(device: Device)
      requires Valid() && device.ZoneDevice?
      modifies this`accessories, this`registered, this`hasTemperatureZone
      ensures Valid() && hasTemperatureZone
      ensures Summary() == old(Summary()).(reg := Registry(), temperature := true)
      ensures Registry() == Upsert(old(Registry()), uuidOf(Identity(TemperatureIdentity, device.id)), device.zoneName, device)
    {
      hasTemperatureZone := true;
      UpsertAccessory(Identity(TemperatureIdentity, device.id), device.zoneName, device);
      var handler := new TemperatureAccessory.ElkTemperature(elk, device.id, device.zoneName);
    }

    /** `addInputAccessory`: a restored accessory gets the device in its context;
      the new input takes the zone's reported status at once, is bound to the
      zone id, replacing an earlier binding, and a new accessory is registered.
      An input without a service throws at the status update, after the
      restore and before the binding and the registration. */
    method AddInputAccessory(device: Device, zone: ZoneMessage, kind: InputAccessory.InputKind) returns (threw: bool)
      requires Valid() && device.ZoneDevice? && device.id == zone.id
      modifies this`accessories, this`registered, this`zoneAccessories
      ensures Valid()
      ensures threw <==> !InputAccessory.HasService(kind)
      ensures Summary() == old(Summary()).(reg := Registry(), inputIds := old(Summary()).inputIds + if threw then {} else {zone.id})
      ensures threw ==>
        Registry() == Restored(old(Registry()), uuidOf(Identity(InputIdentity(kind), device.id)), device)
        && zoneAccessories == old(zoneAccessories)
      ensures !threw ==>
        Registry() == Upsert(old(Registry()), uuidOf(Identity(InputIdentity(kind), device.id)), device.zoneName, device)
      ensures !threw ==> zone.id in zoneAccessories && zoneAccessories == old(zoneAccessories)[zone.id := zoneAccessories[zone.id]]
      ensures !threw ==> var input := zoneAccessories[zone.id];
        fresh(input) && input.id == zone.id && input.inputType == InputAccessory.InputTypeOf(kind)
        && input.tamperType == InputAccessory.TamperNone
        && input.State() == InputAccessory.Receive(InputAccessory.InputState(false, false), InputAccessory.TamperNone, zone)
    {
      var uuid := uuidOf(Identity(InputIdentity(kind), device.id));
      var existing := FirstWithUuid(accessories, uuid);
      if existing.Some? {
        accessories := accessories[existing.value := accessories[existing.value].(device := Some(device))];
      }
      var input;
      input, threw := NewInput(zone, kind);
      if threw {
        assert zoneAccessories.Keys + {} == zoneAccessories.Keys;
        return;
      }
      zoneAccessories := zoneAccessories[device.id := input];
      if existing.None? {
        registered := registered + [CachedAccessory(uuid, device.zoneName, Some(device))];
      }
    }

    /** The input accessory of `addInputAccessory`, after its first status
      update: both flags reach HomeKit, or, without a service, the update
      throws and nothing does. */
    static method NewInput(zone: ZoneMessage, kind: InputAccessory.InputKind) returns (input: InputAccessory.ElkInput, threw: bool)
      ensures fresh(input) && input.id == zone.id && input.inputType == InputAccessory.InputTypeOf(kind)
      ensures input.kind == kind && (threw <==> !InputAccessory.HasService(kind))
      ensures input.tamperType == InputAccessory.TamperNone
      ensures input.State() == InputAccessory.Receive(InputAccessory.InputState(false, false), InputAccessory.TamperNone, zone)
      ensures input.pushed == if threw then [] else [Push(input.contactCharacteristic, HKBool(input.contactState)),
                                                     Push(StatusTampered, HKBool(input.tamperState))]
    {
      input := new InputAccessory.ElkInput(zone.id, kind);
      threw := input.SetStatusFromMessage(zone);
    }

    /** `addGarageDoor`: the name defaults to `Garage door <id>`; the new door is
      appended to the doors the zone-change handler serves. */
    method AddGarageDoor(id: nat, config: GarageDoorConfig)
      requires Valid() && config.stateZone == Some(id)
      modifies this`accessories, this`registered, this`garageDoorAccessories
      ensures Valid()
      ensures Registry() == Upsert(old(Registry()), uuidOf(Identity(GarageDoorIdentity, id)),
                                   Some(GarageDoorName(config, id)), GarageDoorDevice(id, GarageDoorName(config, id), config))
      ensures Summary() == old(Summary()).(reg := Registry(), doors := old(Summary()).doors + 1)
      ensures |garageDoorAccessories| == |old(garageDoorAccessories)| + 1
      ensures |old(garageDoorAccessories)| <= |garageDoorAccessories|
      ensures garageDoorAccessories[..|old(garageDoorAccessories)|] == old(garageDoorAccessories)
      ensures forall k :: |old(garageDoorAccessories)| <= k < |garageDoorAccessories| ==>
        fresh(garageDoorAccessories[k]) && garageDoorAccessories[k].State() == GarageDoorAccessory.InitialDoor
      ensures var door := garageDoorAccessories[|garageDoorAccessories| - 1];
        fresh(door) && door.id == id && door.stateZone == id && door.obstructionZone == config.obstructionZone
        && door.State() == GarageDoorAccessory.InitialDoor
    {
      var name := GarageDoorName(config, id);
      UpsertAccessory(Identity(GarageDoorIdentity, id), Some(name), GarageDoorDevice(id, name, config));
      var door := new GarageDoorAccessory.ElkGarageDoor.Init(elk, id, config);
      garageDoorAccessories := garageDoorAccessories + [door];
    }

    /** `addZone`: the zone-type switch, as `ZoneActionOf` states it; it throws
      exactly for an input zone without a service. */
    method AddZone(zone: ZoneMessage) returns (threw: bool)
      requires Valid() && ZoneSelected(zone, Tables())
      modifies this`accessories, this`registered, this`zoneAccessories, this`garageDoorAccessories, this`hasTemperatureZone
      ensures Valid()
      ensures threw <==> ZoneThrows(zone, Tables())
      ensures Summary() == ZoneStep(old(Summary()), zone, Tables(), uuidOf)
      ensures |old(garageDoorAccessories)| <= |garageDoorAccessories|
      ensures garageDoorAccessories[..|old(garageDoorAccessories)|] == old(garageDoorAccessories)
      ensures forall k :: |old(garageDoorAccessories)| <= k < |garageDoorAccessories| ==>
        fresh(garageDoorAccessories[k]) && garageDoorAccessories[k].State() == GarageDoorAccessory.InitialDoor
    {
      var t := Tables();
      match ZoneActionOf(zone, t)
      case MakeInput(kind) =>
        ZoneStepInput(Summary(), zone, t, uuidOf, kind);
        threw := AddInputAccessory(ZoneDeviceOf(zone, t), zone, kind);
      case MakeGarageDoor(config) =>
        ZoneStepGarageDoor(Summary(), zone, t, uuidOf, config);
        AddGarageDoor(zone.id, config);
        threw := false;
      case MakeTemperature =>
        ZoneStepTemperature(Summary(), zone, t, uuidOf);
        AddTemperatureZone(ZoneDeviceOf(zone, t));
        threw := false;
      case NoAccessory =>
        ZoneStepNone(Summary(), zone, t, uuidOf);
        threw := false;
    }

    // ------------------------------------------------------------ discovery stages

    /** The zone-text loop: `zoneTexts` is rebuilt from the reply, later ids winning. */
    method FillZoneTexts(texts: seq<TextDescription>)
      modifies this`zoneTexts
      ensures zoneTexts == ZoneTextTable(texts)
    {
      zoneTexts := map[];
      var i := 0;
      while i < |texts|
        invariant 0 <= i <= |texts|
        invariant zoneTexts == ZoneTextTable(texts[..i])
      {
        var td := texts[i];
        zoneTexts := zoneTexts[td.id := td.description];
        assert texts[..i + 1][..i] == texts[..i];
        i := i + 1;
      }
      assert texts[..|texts|] == texts;
    }

    /** The task loop: only included tasks are added. */
    method AddTasks(texts: seq<TextDescription>)
      modifies this`accessories, this`registered
      ensures Registry() == UpsertAll(old(Registry()), uuidOf, ItemEntries(TaskIdentity, texts, includedTasks))
    {
      var i := 0;
      while i < |texts|
        invariant 0 <= i <= |texts|
        invariant Registry() == UpsertAll(old(Registry()), uuidOf, ItemEntries(TaskIdentity, texts[..i], includedTasks))
      {
        var td := texts[i];
        assert texts[..i + 1] == texts[..i] + [td];
        ItemEntriesSnoc(TaskIdentity, texts[..i], includedTasks, td);
        if td.id in includedTasks {
          AddTask(td);
          UpsertAllSnoc(old(Registry()), uuidOf, ItemEntries(TaskIdentity, texts[..i], includedTasks), ItemEntry(TaskIdentity, td));
        } else {
          assert ItemEntries(TaskIdentity, texts[..i], includedTasks) + [] == ItemEntries(TaskIdentity, texts[..i], includedTasks);
        }
        i := i + 1;
      }
      assert texts[..|texts|] == texts;
    }

    /** The output loop: only included outputs are added. */
    method AddOutputs(texts: seq<TextDescription>)
      modifies this`accessories, this`registered
      ensures Registry() == UpsertAll(old(Registry()), uuidOf, ItemEntries(OutputIdentity, texts, includedOutputs))
    {
      var i := 0;
      while i < |texts|
        invariant 0 <= i <= |texts|
        invariant Registry() == UpsertAll(old(Registry()), uuidOf, ItemEntries(OutputIdentity, texts[..i], includedOutputs))
      {
        var td := texts[i];
        assert texts[..i + 1] == texts[..i] + [td];
        ItemEntriesSnoc(OutputIdentity, texts[..i], includedOutputs, td);
        if td.id in includedOutputs {
          AddOutput(td);
          UpsertAllSnoc(old(Registry()), uuidOf, ItemEntries(OutputIdentity, texts[..i], includedOutputs), ItemEntry(OutputIdentity, td));
        } else {
          assert ItemEntries(OutputIdentity, texts[..i], includedOutputs) + [] == ItemEntries(OutputIdentity, texts[..i], includedOutputs);
        }
        i := i + 1;
      }
      assert texts[..|texts|] == texts;
    }

    /** The zone loop: configured zones with a zone-type entry go to `addZone`;
      a throwing zone ends the loop. */
    method AddZones(zones: seq<ZoneMessage>) returns (threw: bool)
      requires Valid()
      modifies this`accessories, this`registered, this`zoneAccessories, this`garageDoorAccessories, this`hasTemperatureZone
      ensures Valid()
      ensures threw <==> FirstThrowingZone(zones, Tables()).Some?
      ensures Summary() == ZoneLoop(old(Summary()), ZonesReached(zones, Tables()), Tables(), uuidOf)
      ensures |old(garageDoorAccessories)| <= |garageDoorAccessories|
      ensures garageDoorAccessories[..|old(garageDoorAccessories)|] == old(garageDoorAccessories)
      ensures forall k :: |old(garageDoorAccessories)| <= k < |garageDoorAccessories| ==>
        fresh(garageDoorAccessories[k]) && garageDoorAccessories[k].State() == GarageDoorAccessory.InitialDoor
    {
      ghost var doors0 := garageDoorAccessories;
      ghost var s0 := Summary();
      ghost var t := Tables();
      threw := false;
      var i := 0;
      while i < |zones|
        invariant 0 <= i <= |zones| && Valid() && Tables() == t && !threw
        invariant Summary() == ZoneLoop(s0, zones[..i], t, uuidOf)
        invariant forall j :: 0 <= j < i ==> !ZoneThrows(zones[j], t)
        invariant DoorsAddedSince(doors0)
        invariant forall k :: |doors0| <= k < |garageDoorAccessories| ==> fresh(garageDoorAccessories[k])
      {
        ghost var before := garageDoorAccessories;
        threw := AddZoneAt(zones, i, s0);
        assert forall k :: 0 <= k < |before| ==> garageDoorAccessories[k] == before[k];
        assert forall k :: |doors0| <= k < |before| ==> before[k].State() == GarageDoorAccessory.InitialDoor;
        assert garageDoorAccessories[..|doors0|] == doors0;
        if threw {
          break;
        }
        i := i + 1;
      }
      if !threw {
        assert zones[..|zones|] == zones;
        NoThrowingZone(zones, t);
      }
    }

    /** The doors held at some earlier point are still held, in place, and every
      door added since is still closed and unobstructed. */
    ghost predicate DoorsAddedSince(doors0: seq<GarageDoorAccessory.ElkGarageDoor>)
      reads this`garageDoorAccessories, garageDoorAccessories
    {
      |doors0| <= |garageDoorAccessories| && garageDoorAccessories[..|doors0|] == doors0
      && forall k :: |doors0| <= k < |garageDoorAccessories| ==>
        garageDoorAccessories[k].State() == GarageDoorAccessory.InitialDoor
    }

    /** One pass of the zone loop: a selected zone goes to `addZone`; the
      pass that throws is the first throwing zone of the report. */
    method AddZoneAt(zones: seq<ZoneMessage>, i: nat, ghost s0: ZoneSummary) returns (threw: bool)
      requires Valid() && i < |zones| && Summary() == ZoneLoop(s0, zones[..i], Tables(), uuidOf)
      requires forall j :: 0 <= j < i ==> !ZoneThrows(zones[j], Tables())
      modifies this`accessories, this`registered, this`zoneAccessories, this`garageDoorAccessories, this`hasTemperatureZone
      ensures Valid()
      ensures threw <==> ZoneThrows(zones[i], Tables())
      ensures Summary() == ZoneLoop(s0, zones[..i + 1], Tables(), uuidOf)
      ensures !threw ==> forall j :: 0 <= j <= i ==> !ZoneThrows(zones[j], Tables())
      ensures threw ==> FirstThrowingZone(zones, Tables()) == Some(i) && ZonesReached(zones, Tables()) == zones[..i + 1]
      ensures |old(garageDoorAccessories)| <= |garageDoorAccessories|
      ensures garageDoorAccessories[..|old(garageDoorAccessories)|] == old(garageDoorAccessories)
      ensures forall k :: |old(garageDoorAccessories)| <= k < |garageDoorAccessories| ==>
        fresh(garageDoorAccessories[k]) && garageDoorAccessories[k].State() == GarageDoorAccessory.InitialDoor
    {
      var zone := zones[i];
      ZoneLoopSnoc(s0, zones, Tables(), uuidOf, i);
      if ZoneSelected(zone, Tables()) {
        threw := AddZone(zone);
      } else {
        ZoneStepNone(Summary(), zone, Tables(), uuidOf);
        threw := false;
      }
      if threw {
        FirstThrowingZoneAt(zones, Tables(), i);
      }
    }

    /** The initial garage sync over every door the platform holds: the state
      from `zones[stateZone - 1]`, the obstruction from `zones[obstructionZone]`;
      a missing entry throws and stops the loop. */
    method SyncGarageDoors(zones: seq<ZoneMessage>) returns (ok: bool)
      requires DoorsDistinct()
      modifies garageDoorAccessories
      ensures var doors := garageDoorAccessories;
        ok <==> forall k :: 0 <= k < |doors| ==> SyncReadable(doors[k].stateZone, doors[k].obstructionZone, zones)
      ensures var doors := garageDoorAccessories;
        ok ==> forall k :: 0 <= k < |doors| ==>
          doors[k].State() == SyncedDoor(old(doors[k].State()), doors[k].stateZone, doors[k].obstructionZone, zones)
    {
      var doors := garageDoorAccessories;
      var i := 0;
      while i < |doors|
        invariant 0 <= i <= |doors|
        invariant forall k :: 0 <= k < i ==> SyncReadable(doors[k].stateZone, doors[k].obstructionZone, zones)
        invariant forall k :: 0 <= k < i ==>
          doors[k].State() == SyncedDoor(old(doors[k].State()), doors[k].stateZone, doors[k].obstructionZone, zones)
        invariant forall k :: i <= k < |doors| ==> doors[k].State() == old(doors[k].State())
      {
        var door := doors[i];
        if !(1 <= door.stateZone <= |zones|) {
          return false;
        }
        door.SetState(zones[door.stateZone - 1]);
        if door.obstructionZone.Some? {
          if !(door.obstructionZone.value < |zones|) {
            return false;
          }
          door.SetObstructionStatus(zones[door.obstructionZone.value]);
        }
        i := i + 1;
      }
      return true;
    }

    /** The catch block: disconnect, then `connect()`. */
    method Recover(throws: bool)
      requires Valid()
      modifies this`connecting, elk
      ensures Valid()
      ensures Session() == AfterConnect(old(Session()), throws)
      ensures EndsWith(elk.sent, [Disconnect] + ConnectCommands(old(Session())))
    {
      elk.Issue(Disconnect);
      ghost var before := elk.sent;
      Connect(throws);
      EndsWithAppend(before[..|before| - 1], [Disconnect], ConnectCommands(old(Session())));
      assert before[..|before| - 1] + [Disconnect] == before;
    }

    /** `discoverDevices` from the zone status reply on, run to its end over
      the given replies. */
    method DiscoverDevices(r: DiscoveryReplies, throws: bool) returns (outcome: DiscoveryOutcome)
      requires Valid()
      modifies this`zoneTexts, this`accessories, this`registered, this`zoneAccessories, this`garageDoorAccessories
      modifies this`hasTemperatureZone, this`temperaturePolls, this`connecting, elk, garageDoorAccessories
      ensures Valid()
      ensures outcome == Failed ==>
        connecting == AfterConnect(old(Session()), throws).connecting
        && EndsWith(elk.sent, [Disconnect] + ConnectCommands(old(Session())))
      ensures outcome == Completed ==> connecting == old(connecting)
      ensures outcome == Completed <==>
        r.zoneReport.Some? && areaConfigs == [] && r.zoneTexts.Some? && r.taskTexts.Some? && r.outputTexts.Some?
        && ZoneStageCompletes(r.zoneReport.value)
      ensures areaConfigs != [] ==>
        registered == old(registered) && zoneAccessories == old(zoneAccessories)
        && garageDoorAccessories == old(garageDoorAccessories) && zoneTexts == old(zoneTexts)
      ensures r.zoneReport.Some? && areaConfigs == [] && r.zoneTexts.Some? && r.taskTexts.Some? && r.outputTexts.Some? ==>
        zoneTexts == ZoneTextTable(r.zoneTexts.value)
        && Summary() == ZoneLoop(old(Summary()).(reg := Described(old(Registry()), r.taskTexts.value, r.outputTexts.value)),
                                 ZonesReached(r.zoneReport.value, Tables()), Tables(), uuidOf)
        && temperaturePolls == old(temperaturePolls)
           + (if FirstThrowingZone(r.zoneReport.value, Tables()).None? && hasTemperatureZone then 1 else 0)
      ensures outcome == Completed ==> |elk.sent| > 0 && elk.sent[|elk.sent| - 1] == RequestArmingStatus
    {
      if r.zoneReport.None? {
        Recover(throws);
        return Failed;
      }
      if |areaConfigs| > 0 {
        DescribeFirstArea(r.areaTexts, throws);
        return Failed;
      }
      outcome := DiscoverTextsAndZones(r, r.zoneReport.value, throws);
    }

    /** The loop over areas ends in its first pass: the area's text request is
      rejected, or the panel accessory throws; either way discovery reconnects. */
    method DescribeFirstArea(areaTexts: map<nat, string>, throws: bool)
      requires Valid() && |areaConfigs| > 0
      modifies this`accessories, this`connecting, elk
      ensures Valid()
      ensures connecting == AfterConnect(old(Session()), throws).connecting
      ensures EndsWith(elk.sent, [Disconnect] + ConnectCommands(old(Session())))
    {
      var areaConfig := areaConfigs[0];
      elk.Issue(RequestTextDescription(areaConfig.area, 1));
      if areaConfig.area in areaTexts {
        AddPanel(PanelDevice(areaConfig.area, areaConfig.keypadCode, areaTexts[areaConfig.area]));
      }
      Recover(throws);
    }

    /** Discovery once the zone report is in and there are no areas to describe:
      the text stages, the zone stage, then the arming-status request; a failed
      stage ends discovery with a reconnect. */
    method DiscoverTextsAndZones(r: DiscoveryReplies, zones: seq<ZoneMessage>, throws: bool) returns (outcome: DiscoveryOutcome)
      requires Valid()
      modifies this`zoneTexts, this`accessories, this`registered, this`zoneAccessories, this`garageDoorAccessories
      modifies this`hasTemperatureZone, this`temperaturePolls, this`connecting, elk, garageDoorAccessories
      ensures Valid()
      ensures outcome == Failed ==>
        connecting == AfterConnect(old(Session()), throws).connecting
        && EndsWith(elk.sent, [Disconnect] + ConnectCommands(old(Session())))
      ensures outcome == Completed ==> connecting == old(connecting)
      ensures outcome == Completed <==>
        r.zoneTexts.Some? && r.taskTexts.Some? && r.outputTexts.Some? && ZoneStageCompletes(zones)
      ensures r.zoneTexts.Some? && r.taskTexts.Some? && r.outputTexts.Some? ==>
        zoneTexts == ZoneTextTable(r.zoneTexts.value)
        && Summary() == ZoneLoop(old(Summary()).(reg := Described(old(Registry()), r.taskTexts.value, r.outputTexts.value)),
                                 ZonesReached(zones, Tables()), Tables(), uuidOf)
        && temperaturePolls == old(temperaturePolls)
           + (if FirstThrowingZone(zones, Tables()).None? && hasTemperatureZone then 1 else 0)
      ensures outcome == Completed ==> |elk.sent| > 0 && elk.sent[|elk.sent| - 1] == RequestArmingStatus
    {
      var described := DiscoverTexts(r);
      if !described {
        Recover(throws);
        return Failed;
      }
      outcome := FinishDiscovery(zones, throws);
    }

    /** The zone stage and the arming-status request, or a reconnect when a
      zone throws or the initial door sync fails. */
    method FinishDiscovery(zones: seq<ZoneMessage>, throws: bool) returns (outcome: DiscoveryOutcome)
      requires Valid()
      modifies this`accessories, this`registered, this`zoneAccessories, this`garageDoorAccessories
      modifies this`hasTemperatureZone, this`temperaturePolls, this`connecting, elk, garageDoorAccessories
      ensures Valid()
      ensures outcome == Completed <==> ZoneStageCompletes(zones)
      ensures outcome == Failed ==>
        connecting == AfterConnect(old(Session()), throws).connecting
        && EndsWith(elk.sent, [Disconnect] + ConnectCommands(old(Session())))
      ensures outcome == Completed ==> connecting == old(connecting)
      ensures Summary() == ZoneLoop(old(Summary()), ZonesReached(zones, Tables()), Tables(), uuidOf)
      ensures temperaturePolls == old(temperaturePolls)
        + (if FirstThrowingZone(zones, Tables()).None? && hasTemperatureZone then 1 else 0)
      ensures outcome == Completed ==> |elk.sent| > 0 && elk.sent[|elk.sent| - 1] == RequestArmingStatus
    {
      var synced := DiscoverZones(zones);
      if !synced {
        Recover(throws);
        return Failed;
      }
      elk.Issue(RequestArmingStatus);
      return Completed;
    }

    /** The zone, task and output text stages: each request is followed by its
      loop, and a rejected request ends the stages. */
    method DiscoverTexts(r: DiscoveryReplies) returns (ok: bool)
      modifies this`zoneTexts, this`accessories, this`registered, elk
      ensures ok <==> r.zoneTexts.Some? && r.taskTexts.Some? && r.outputTexts.Some?
      ensures ok ==>
        zoneTexts == ZoneTextTable(r.zoneTexts.value)
        && Registry() == Described(old(Registry()), r.taskTexts.value, r.outputTexts.value)
        && Summary() == old(Summary()).(reg := Registry())
    {
      elk.Issue(RequestTextDescriptionAll(0));
      if r.zoneTexts.None? {
        return false;
      }
      FillZoneTexts(r.zoneTexts.value);
      elk.Issue(RequestTextDescriptionAll(5));
      if r.taskTexts.None? {
        return false;
      }
      AddTasks(r.taskTexts.value);
      elk.Issue(RequestTextDescriptionAll(4));
      if r.outputTexts.None? {
        return false;
      }
      AddOutputs(r.outputTexts.value);
      return true;
    }

    /** The zone stage: the zone loop, the temperature poll, and the initial
      sync of every door the platform holds, new doors from their initial
      state. A throwing zone ends the stage before the poll. */
    method DiscoverZones(zones: seq<ZoneMessage>) returns (synced: bool)
      requires Valid()
      modifies this`accessories, this`registered, this`zoneAccessories, this`garageDoorAccessories, this`hasTemperatureZone
      modifies this`temperaturePolls, elk, garageDoorAccessories
      ensures Valid()
      ensures synced <==> ZoneStageCompletes(zones)
      ensures Summary() == ZoneLoop(old(Summary()), ZonesReached(zones, Tables()), Tables(), uuidOf)
      ensures var polled := FirstThrowingZone(zones, Tables()).None? && hasTemperatureZone;
        temperaturePolls == old(temperaturePolls) + (if polled then 1 else 0)
        && elk.sent == old(elk.sent) + (if polled then [RequestTemperature] else [])
      ensures |old(garageDoorAccessories)| <= |garageDoorAccessories|
      ensures garageDoorAccessories[..|old(garageDoorAccessories)|] == old(garageDoorAccessories)
      ensures var doors := garageDoorAccessories;
        FirstThrowingZone(zones, Tables()).Some? ==> forall k :: 0 <= k < |doors| ==>
          doors[k].State() == if k < |old(garageDoorAccessories)| then old(garageDoorAccessories[k].State()) else GarageDoorAccessory.InitialDoor
      ensures var doors := garageDoorAccessories;
        synced ==> forall k :: 0 <= k < |doors| ==>
          doors[k].State() == SyncedDoor(if k < |old(garageDoorAccessories)| then old(garageDoorAccessories[k].State()) else GarageDoorAccessory.InitialDoor,
                                         doors[k].stateZone, doors[k].obstructionZone, zones)
    {
      var threw := AddZones(zones);
      ghost var doors := garageDoorAccessories;
      assert forall k :: 0 <= k < |doors| ==>
        doors[k].State() == if k < |old(garageDoorAccessories)| then old(garageDoorAccessories[k].State()) else GarageDoorAccessory.InitialDoor;
      if threw {
        return false;
      }
      synced := PollAndSync(zones);
    }

    /** The zone stage after a zone loop that did not throw: the temperature
      poll, then the initial sync of every door. */
    method PollAndSync(zones: seq<ZoneMessage>) returns (synced: bool)
      requires DoorsDistinct()
      modifies this`temperaturePolls, elk, garageDoorAccessories
      ensures temperaturePolls == old(temperaturePolls) + (if hasTemperatureZone then 1 else 0)
      ensures elk.sent == old(elk.sent) + (if hasTemperatureZone then [RequestTemperature] else [])
      ensures var doors := garageDoorAccessories;
        synced <==> forall k :: 0 <= k < |doors| ==> SyncReadable(doors[k].stateZone, doors[k].obstructionZone, zones)
      ensures var doors := garageDoorAccessories;
        synced ==> forall k :: 0 <= k < |doors| ==>
          doors[k].State() == SyncedDoor(old(doors[k].State()), doors[k].stateZone, doors[k].obstructionZone, zones)
    {
      StartTemperaturePoll();
      synced := SyncGarageDoors(zones);
    }

    /** With a temperature zone, discovery asks for temperatures and starts the
      one-minute poll. */
    method StartTemperaturePoll()
      modifies this`temperaturePolls, elk
      ensures temperaturePolls == old(temperaturePolls) + (if hasTemperatureZone then 1 else 0)
      ensures elk.sent == old(elk.sent) + (if hasTemperatureZone then [RequestTemperature] else [])
    {
      if hasTemperatureZone {
        elk.Issue(RequestTemperature);
        temperaturePolls := temperaturePolls + 1;
      }
    }

    // ------------------------------------------------------------ zone-change routing

    /** The platform's ZC handler: the input bound to the zone id, if any, takes
      the message; each door takes it as a state update on its state zone,
      otherwise as an obstruction update on its obstruction zone. */
    method OnZoneChange(msg: ZoneMessage)
      requires Valid()
      modifies (if msg.id in zoneAccessories then {zoneAccessories[msg.id]} else {}), garageDoorAccessories
      ensures msg.id in zoneAccessories ==>
        var input := zoneAccessories[msg.id];
        input.State() == InputAccessory.Receive(old(input.State()), input.tamperType, msg)
      ensures forall k :: 0 <= k < |garageDoorAccessories| ==>
        var door := garageDoorAccessories[k];
        door.State() == GarageDoorAccessory.PlatformRouted(old(door.State()), msg, door.stateZone, door.obstructionZone)
    {
      if msg.id in zoneAccessories {
        var threw := zoneAccessories[msg.id].SetStatusFromMessage(msg);
      }
      var doors := garageDoorAccessories;
      var i := 0;
      while i < |doors|
        invariant 0 <= i <= |doors|
        invariant forall k :: 0 <= k < i ==>
          doors[k].State() == GarageDoorAccessory.PlatformRouted(old(doors[k].State()), msg, doors[k].stateZone, doors[k].obstructionZone)
        invariant forall k :: i <= k < |doors| ==> doors[k].State() == old(doors[k].State())
        invariant msg.id in zoneAccessories ==>
          zoneAccessories[msg.id].State()
          == InputAccessory.Receive(old(zoneAccessories[msg.id].State()), zoneAccessories[msg.id].tamperType, msg)
      {
        var door := doors[i];
        if msg.id == door.stateZone {
          door.SetState(msg);
        } else if Some(msg.id) == door.obstructionZone {
          door.SetObstructionStatus(msg);
        }
        i := i + 1;
      }
    }

    /** One ZC event as the panel link delivers it: first to the platform's
      handler, then to each door's own handler, in the order the doors were
      created. */
    method DeliverZoneChange(msg: ZoneMessage)
      requires Valid()
      modifies (if msg.id in zoneAccessories then {zoneAccessories[msg.id]} else {}), garageDoorAccessories
      ensures msg.id in zoneAccessories ==>
        var input := zoneAccessories[msg.id];
        input.State() == InputAccessory.Receive(old(input.State()), input.tamperType, msg)
      ensures forall k :: 0 <= k < |garageDoorAccessories| ==>
        var door := garageDoorAccessories[k];
        door.State() == GarageDoorAccessory.SelfRouted(
          GarageDoorAccessory.PlatformRouted(old(door.State()), msg, door.stateZone, door.obstructionZone),
          msg, door.stateZone, door.obstructionZone)
    {
      OnZoneChange(msg);
      var doors := garageDoorAccessories;
      ghost var routed := seq(|doors|, k requires 0 <= k < |doors| reads doors => doors[k].State());
      var i := 0;
      while i < |doors|
        invariant 0 <= i <= |doors|
        invariant forall k :: 0 <= k < i ==>
          doors[k].State() == GarageDoorAccessory.SelfRouted(routed[k], msg, doors[k].stateZone, doors[k].obstructionZone)
        invariant forall k :: i <= k < |doors| ==> doors[k].State() == routed[k]
        invariant msg.id in zoneAccessories ==>
          zoneAccessories[msg.id].State()
          == InputAccessory.Receive(old(zoneAccessories[msg.id].State()), zoneAccessories[msg.id].tamperType, msg)
      {
        doors[i].OnZoneChange(msg);
        i := i + 1;
      }
    }
  }
}
