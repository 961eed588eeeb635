# Elk M1 security panel bridge for HomeKit, modelled in Dafny

This project models the core of a Homebridge plugin that connects an Elk M1
security panel to Apple HomeKit. The plugin exists twice in the repository.
This model covers both:

- **the dynamic platform** (`src/`): it discovers areas, zones, tasks and
  outputs from the panel's replies. It restores cached accessories or
  registers new ones, keyed by a UUID derived from an identity string. It
  then routes panel events (zone change `ZC`, output change `CC`, arming
  status `AS`, temperature reply `LW`) to accessory objects: inputs (contact,
  motion, smoke, CO, CO2, leak), garage doors, the area panel, outputs, tasks
  and temperature sensors. It also reconnects with exponential back-off.
- **the 1.x platform** (`index.js` and `lib/`): it builds a list of
  accessories from the same replies, with its own naming, `uuid_base` and
  set/get rules, and hands the list to Homebridge.

Each accessory whose fields the source updates is a `class` with those
fields. Each event handler is a method whose `ensures` ties the new state to
a pure transition function (`State() == AfterSetTarget(old(State()), v)`).
The lemmas beside it state what the source promises of that function. Two
logs record what the plugin does to the outside world:

- the commands sent to the panel are `PanelLink.sent`;
- what HomeKit is told is each accessory's `pushed` log.

Timers are explicit: a handler that arms a timer adds it to a pending queue,
and a separate `Fire…` method runs it. The UUID generator is a function
parameter `uuidOf`. Temperatures are integer tenths of a degree.

The files:

- `types.dfy`: shared records, commands and HomeKit codes.
- `input.dfy`, `garage_door.dfy`, `panel.dfy`, `output.dfy`, `task.dfy`,
  `temperature.dfy`: the dynamic platform's accessories.
- `platform_config.dfy` and `platform.dfy`: the dynamic platform.
- `legacy_accessories.dfy` and `legacy_platform.dfy`: the 1.x plugin.

Where the code does something its authors probably did not intend, the model
does what the code does and a lemma states the consequence. Examples:

- `RetriesStuckWhileConnecting`: the `error` handler never clears
  `connecting`.
- `UpsertTwiceRegistersTwice`: a newly registered accessory is never added to
  the cache list, so it is registered again on the next discovery.
- `SyncReadsNextObstructionZone`: the obstruction zone is indexed without
  `- 1`.
- `ConfigSpellingNeverTampers`: the lower-case tamper spellings never match.
- `LegacySmoke.SetStatusFromMessage`: the legacy smoke sensor always reports
  no smoke.
- `ElkInput.SetStatusFromMessage` and `ZoneLoopReached`: the CO2 and leak
  inputs create their HomeKit service in a method nothing calls, so their
  first status update throws. The zone loop stops at the first such zone and
  discovery reconnects.

## Model

| member | source | states |
|---|---|---|
| ElkTypes.ItemName | src/accessories/ElkOutput.ts:33-34 | A configured name is used unchanged. A missing name becomes the prefix followed by the id's decimal digits. |
| ElkTypes.Decimal | src/accessories/ElkInput.ts:36 | The decimal rendering of an id is non-empty and all digits. It is one character exactly when the id is below 10. |
| ElkTypes.DecimalInjective | src/accessories/ElkInput.ts:36 | Distinct ids render as distinct decimal strings. |
| ElkTypes.TaggedSamePrefix | src/platform.ts:469 | With one prefix, equal identity strings imply equal ids. |
| ElkTypes.TaggedInjective | src/platform.ts:580 | With prefixes that do not end in a digit, equal identity strings imply equal prefixes and equal ids. |
| ElkTypes.DigitAfterPrefix | src/platform.ts:580 | Every character after the prefix of an identity string is a digit. |
| ElkTypes.DefaultNamesDistinct | src/accessories/ElkTask.ts:32-33 | Unnamed items with distinct ids get distinct default names. |
| InputAccessory.TamperAfter | src/accessories/ElkInput.ts:54-64 | 'None' clears the tamper flag. 'NC' sets it exactly on a short circuit. 'NO' sets it exactly on an open circuit. Any other setting keeps the previous value. |
| InputAccessory.Receive | src/accessories/ElkInput.ts:52-69 | The input is active exactly when the zone's logical state is not 'Normal'. The tamper flag follows `TamperAfter`. |
| InputAccessory.ReceiveIdempotent | src/accessories/ElkInput.ts:52-69 | A repeated zone message leaves the state as the first delivery left it. |
| InputAccessory.ConfigSpellingNeverTampers | src/accessories/ElkInput.ts:54-64 | The lower-case spellings 'none', 'no' and 'nc' never change the tamper flag. |
| InputAccessory.ReceiveForgetsHistory | src/accessories/ElkInput.ts:52-69 | Under a recognised tamper setting, the state after a message does not depend on the state before it. |
| InputAccessory.PadStart | src/accessories/ElkInput.ts:36 | Left padding reaches the requested length, keeps the string as a suffix and fills only with the fill character. |
| InputAccessory.SerialNumberShape | src/accessories/ElkInput.ts:36 | The serial number is the id padded with zeros to at least four characters. Distinct ids get distinct serial numbers. |
| InputAccessory.PaddedDecimalInjective | src/accessories/ElkInput.ts:36 | Equal padded serial numbers imply equal ids. |
| InputAccessory.LeadingDigitNotZero | src/accessories/ElkInput.ts:36 | A multi-digit decimal rendering never starts with '0'. |
| InputAccessory.ElkInput.constructor | src/accessories/ElkInput.ts:26-38 | Sets the input type of the kind and the contact characteristic of the kind. Sets the padded serial number. Has a service unless the kind is CO2 or leak. Starts inactive, untampered, with tamper type 'None'. |
| InputAccessory.ElkInput.GetContact | src/accessories/ElkInput.ts:40-44 | Returns the stored contact state. |
| InputAccessory.ElkInput.GetTamper | src/accessories/ElkInput.ts:46-50 | Returns the stored tamper state. |
| InputAccessory.ElkInput.SetStatusFromMessage | src/accessories/ElkInput.ts:52-69 | The new state is `Receive` of the old one. It throws exactly when the input has no service, and then pushes nothing. Otherwise it pushes the contact value, then the tamper value. |
| InputAccessory.ElkInput.SetTamperType | src/accessories/ElkInput.ts:24 | Changes the tamper type and nothing else. |
| GarageDoorAccessory.DoorFromMessage | src/accessories/ElkGarageDoor.ts:117-120 | The door is open exactly when the zone's logical state is not 'Normal', otherwise closed. |
| GarageDoorAccessory.AfterSetState | src/accessories/ElkGarageDoor.ts:117-128 | The current state follows the zone. When it changes, the target follows it. Obstruction is unchanged. |
| GarageDoorAccessory.AfterSetObstruction | src/accessories/ElkGarageDoor.ts:81-84 | Obstruction is set exactly when the obstruction zone is not 'Normal'. Current and target are unchanged. |
| GarageDoorAccessory.AfterSetTarget | src/accessories/ElkGarageDoor.ts:98-115 | A request different from the current state becomes the target. A request equal to it changes nothing. |
| GarageDoorAccessory.TargetCommands | src/accessories/ElkGarageDoor.ts:98-115 | A request equal to the current state sends nothing. Otherwise OPEN pulses the open output and CLOSED pulses the close output, once each. Any other value sends nothing. |
| GarageDoorAccessory.SetStateIdempotent | src/accessories/ElkGarageDoor.ts:117-128 | A repeated zone message changes nothing and pushes nothing. |
| GarageDoorAccessory.OpenThenConfirm | src/accessories/ElkGarageDoor.ts:98-128 | Opening a closed door pulses the open relay once and shows 'opening'. A 'Violated' zone report then leaves it open with target open. |
| GarageDoorAccessory.CloseThenConfirm | src/accessories/ElkGarageDoor.ts:98-128 | Closing an open door pulses the close relay once and shows 'closing'. A 'Normal' zone report then leaves it closed with target closed. |
| GarageDoorAccessory.RepeatedOpenPulsesTwice | src/accessories/ElkGarageDoor.ts:98-115 | Two open requests before the zone reports pulse the open relay twice, because the target is not compared. |
| GarageDoorAccessory.ElkGarageDoor.Init | src/accessories/ElkGarageDoor.ts:21-79 | Given a configured state zone, copies the relays and zones. The door starts closed, target closed, unobstructed. |
| GarageDoorAccessory.ElkGarageDoor.New | src/accessories/ElkGarageDoor.ts:34-38 | Construction fails exactly when the configuration has no state zone. Otherwise it yields a fresh closed door with the configured relays and zones. |
| GarageDoorAccessory.ElkGarageDoor.SetObstructionStatus | src/accessories/ElkGarageDoor.ts:81-84 | The new state is `AfterSetObstruction`. It pushes the obstruction value. |
| GarageDoorAccessory.ElkGarageDoor.GetCurrentState | src/accessories/ElkGarageDoor.ts:86-88 | Returns the stored current state. |
| GarageDoorAccessory.ElkGarageDoor.GetTargetState | src/accessories/ElkGarageDoor.ts:90-92 | Returns the stored target state. |
| GarageDoorAccessory.ElkGarageDoor.GetObstructionState | src/accessories/ElkGarageDoor.ts:94-96 | Returns the stored obstruction flag. |
| GarageDoorAccessory.ElkGarageDoor.SetTargetState | src/accessories/ElkGarageDoor.ts:98-115 | The new state is `AfterSetTarget`. It sends `TargetCommands` and pushes the transitional state. |
| GarageDoorAccessory.ElkGarageDoor.SetState | src/accessories/ElkGarageDoor.ts:117-128 | The new state is `AfterSetState`. It pushes only the values that changed. |
| GarageDoorAccessory.ElkGarageDoor.OnZoneChange | src/accessories/ElkGarageDoor.ts:70-76 | The door's own ZC listener: a message on the obstruction zone is an obstruction update and pushes the obstruction flag. Otherwise one on the state zone is a state update with its pushes. Any other zone changes and pushes nothing. |
| GarageDoorAccessory.DoubleDelivery | src/platform.ts:164-176 | A ZC message goes through both the platform's routing and the door's own listener. Delivered twice, it ends as if delivered once, unless the state and obstruction zones coincide. An unrelated zone changes nothing. |
| OutputAccessory.OutputAfterChange | src/accessories/ElkOutput.ts:42-50 | A CC message for another output changes nothing. One for this output sets it on exactly when the state is 'On'. |
| OutputAccessory.OutputChangePushes | src/accessories/ElkOutput.ts:42-50 | HomeKit is told only when the value changes, and then the new value. |
| OutputAccessory.ReplayPushesOnlyChanges | src/accessories/ElkOutput.ts:42-50 | Over any sequence of CC messages, the pushes alternate, differ from the start value, end at the final value and are no more than the messages. |
| OutputAccessory.SetOutputCommands | src/accessories/ElkOutput.ts:67-78 | No command is sent when the request equals the cached state. Otherwise it sends 'on' (duration 0) or 'off'. |
| OutputAccessory.SetThenConfirm | src/accessories/ElkOutput.ts:42-78 | The panel's confirmation of a set request changes nothing and pushes nothing. |
| OutputAccessory.RequestedStateExamples | src/accessories/ElkOutput.ts:68 | `${value} === 'true'` holds for `true` and 'true' only. It fails for 1, 'True' and `false`. |
| OutputAccessory.ElkOutput.constructor | src/accessories/ElkOutput.ts:13-53 | Sets the defaulted name. The output starts off with nothing pushed. |
| OutputAccessory.ElkOutput.OnOutputChange | src/accessories/ElkOutput.ts:42-50 | The new state is `OutputAfterChange`. It pushes `OutputChangePushes`. |
| OutputAccessory.ElkOutput.GetOutput | src/accessories/ElkOutput.ts:55-65 | Requests the output report. With a reply it stores and returns the reported state. Without one it returns the cached state. |
| OutputAccessory.ElkOutput.SetOutput | src/accessories/ElkOutput.ts:67-78 | Sends `SetOutputCommands` and caches the requested state. |
| TaskAccessory.TaskCommands | src/accessories/ElkTask.ts:48-51 | The task is activated, once, exactly when the value renders as 'true'. |
| TaskAccessory.ElkTask.constructor | src/accessories/ElkTask.ts:12-40 | Sets the defaulted name. No timer is pending and nothing is pushed. |
| TaskAccessory.ElkTask.GetTaskState | src/accessories/ElkTask.ts:42-46 | The switch always reads off. |
| TaskAccessory.ElkTask.SetTaskState | src/accessories/ElkTask.ts:48-56 | Sends `TaskCommands` and arms one reset timer per activation. Keeps the invariant that every activation is reset once. |
| TaskAccessory.ElkTask.FireReset | src/accessories/ElkTask.ts:52-54 | A pending timer pushes off. The invariant is kept. |
| TemperatureAccessory.CelsiusTenths | src/accessories/ElkTemperature.ts:46-52 | The Fahrenheit reading converted to tenths of a degree Celsius, within half a tenth. |
| TemperatureAccessory.CelsiusTenthsNearest | src/accessories/ElkTemperature.ts:46-52 | No other tenth is closer to the exact conversion. |
| TemperatureAccessory.CelsiusTenthsMonotonic | src/accessories/ElkTemperature.ts:46-52 | A warmer Fahrenheit reading never converts to a colder Celsius one. |
| TemperatureAccessory.CelsiusTenthsExamples | src/accessories/ElkTemperature.ts:46-52 | 32°F is 0.0°C, 212°F is 100.0°C, 75°F is 23.9°C and -40°F is -40.0°C. |
| TemperatureAccessory.ReadingFromReply | src/accessories/ElkTemperature.ts:46-52 | The reading is a number exactly when the 1-based slot exists, and then it is its conversion. Otherwise it is NaN. |
| TemperatureAccessory.ElkTemperature.constructor | src/accessories/ElkTemperature.ts:15-54 | Sets the defaulted name and the serial 'M1TZS-<id>'. Starts at 0. |
| TemperatureAccessory.ElkTemperature.OnTemperatureReply | src/accessories/ElkTemperature.ts:46-52 | Stores and pushes `ReadingFromReply`. |
| TemperatureAccessory.ElkTemperature.GetCurrentTemperature | src/accessories/ElkTemperature.ts:57-59 | Returns the stored reading. |
| PanelAccessory.HKStatusFromElkStatus | src/accessories/ElkPanel.ts:82-106 | Any active alarm maps to 'alarm triggered', and only an active alarm does. Otherwise an unknown arm text maps to nothing. Every mapped value is a HomeKit security state. |
| PanelAccessory.ArmTextTable | src/accessories/ElkPanel.ts:82-106 | Without an alarm, each of the seven arm texts maps to its HomeKit state. Vacation counts as away, and instant modes count as their base mode. |
| PanelAccessory.ArmMode | src/accessories/ElkPanel.ts:37-61 | Only the four HomeKit target states have an arm mode: STAY is 2, AWAY is 1, NIGHT is 4 and DISARM is 0. |
| PanelAccessory.ArmModeInjective | src/accessories/ElkPanel.ts:37-61 | Distinct target states send distinct arm modes. |
| PanelAccessory.AfterSetTarget | src/accessories/ElkPanel.ts:37-61 | A request different from the current state becomes the target. One equal to it changes nothing. |
| PanelAccessory.SetTargetCommands | src/accessories/ElkPanel.ts:37-61 | A request equal to the current state sends nothing. Otherwise it sends one arm command with the area, the mode and the keypad code. |
| PanelAccessory.AfterArmingStatus | src/accessories/ElkPanel.ts:67-78 | The current state becomes the mapped status. The target follows it, except when an alarm is triggered. |
| PanelAccessory.AlarmKeepsTarget | src/accessories/ElkPanel.ts:67-106 | An active alarm shows 'triggered' and keeps the user's target. |
| PanelAccessory.EchoIsSilent | src/accessories/ElkPanel.ts:37-78 | Requesting the state the panel just reported changes nothing and sends nothing. |
| PanelAccessory.DisarmSendsOneCommand | src/accessories/ElkPanel.ts:37-61 | Disarming a panel that is not disarmed sends exactly one arm command with mode 0. |
| PanelAccessory.ElkPanel.constructor | src/accessories/ElkPanel.ts:5-80 | Keeps the area, the keypad code and the name. Both the current and the target state start as disarmed. |
| PanelAccessory.ElkPanel.GetCurrentState | src/accessories/ElkPanel.ts:25-32 | Requests the arming status. It answers exactly when the reply has this area, with the mapped status. |
| PanelAccessory.ElkPanel.GetTargetState | src/accessories/ElkPanel.ts:33-35 | Returns the stored target. |
| PanelAccessory.ElkPanel.SetTargetState | src/accessories/ElkPanel.ts:37-61 | The new state is `AfterSetTarget`. It sends `SetTargetCommands` and reports no error. |
| PanelAccessory.ElkPanel.OnArmingStatus | src/accessories/ElkPanel.ts:67-78 | Handles the message exactly when it has this area's status. The state then becomes `AfterArmingStatus` with its pushes. Otherwise nothing changes. |
| PlatformConfig.KeyedLastWinsSpec | src/platform.ts:130-146 | Building a table from a list has a key exactly when some entry has it, and the value is that of the last such entry. |
| PlatformConfig.KeyedLastWinsSelfKeyed | src/platform.ts:142-146 | A table of whole entries stores under each key an entry with that key. |
| PlatformConfig.AreaConfigs | src/platform.ts:113-127 | The `areas` list wins. Otherwise one area is built exactly when both `area` and `keypadCode` are truthy, and none otherwise. |
| PlatformConfig.ZoneTypesTable | src/platform.ts:130-140 | A missing zone-type setting, or one that is not an array, gives an empty table. |
| PlatformConfig.ZoneTypesTableKeys | src/platform.ts:130-140 | The zone-type table has exactly the listed zone numbers, each mapped to an entry with that number. |
| PlatformConfig.GarageDoorTableKeyed | src/platform.ts:142-146 | Each door is stored under its own state zone. |
| PlatformConfig.FirstCharOfTagged | src/platform.ts:580 | An identity string starts with its prefix's first character. |
| PlatformConfig.IdentityInjective | src/platform.ts:434-630 | The identity strings of the panel, output, task, temperature, input and door kinds never collide across kinds or ids, with the untyped inputs counted as one kind. |
| PlatformConfig.UntypedInputsShareIdentity | src/platform.ts:579-580 | Contact, motion, smoke and CO inputs have no input type, so they share the identity 'undefined<id>'. CO2 does not. |
| PlatformConfig.FirstWithUuid | src/platform.ts:435-437 | Finds the first cached accessory with the UUID, or reports that there is none. |
| PlatformConfig.Upsert | src/platform.ts:533-556 | A cached accessory with the UUID gets the device, and nothing is registered. Otherwise a new accessory is registered and the cache list is unchanged. |
| PlatformConfig.RestoredIsUpsertUnregistered | src/platform.ts:568-613 | An add that throws after the restore leaves the cache list as a completed add would, and differs from it exactly when a new accessory would have been registered. |
| PlatformConfig.UpsertAllKeepsRestored | src/platform.ts:234-348 | Discovery never removes or renames cached accessories, and only appends registrations. |
| PlatformConfig.RestoredNeverRegisters | src/platform.ts:234-348 | When every entry is already cached, discovery registers nothing. |
| PlatformConfig.UpsertTwiceRegistersTwice | src/platform.ts:533-556 | An accessory that is not cached is registered again by a second discovery, because new accessories are not added to the cache list. |
| PlatformConfig.ItemEntriesSelect | src/platform.ts:268-299 | The task and output entries are exactly the described items whose ids are in the include list. |
| PlatformConfig.ZoneActionOf | src/platform.ts:360-422 | An unconfigured or untyped zone gets nothing. A 'garage' zone gets a door exactly when configured. A 'temperature' zone gets a sensor. Input types get an input. |
| PlatformConfig.ZoneEntry | src/platform.ts:360-422 | A zone produces an accessory entry exactly when its action is not 'nothing'. |
| PlatformConfig.FirstThrowingZone | src/platform.ts:301-308 | The first zone whose add throws, or none when no zone throws. |
| PlatformConfig.InputZoneIdsSelect | src/platform.ts:301-308 | The zone ids bound to inputs are exactly those of zones whose action creates an input. |
| PlatformConfig.SyncReadsNextObstructionZone | src/platform.ts:322-334 | On a report indexed from zone 1, the state zone reads its own slot but the obstruction zone reads the next zone's. |
| PlatformConfig.NextRetryDelay | src/platform.ts:182-194 | The retry delay doubles, is capped at 30 s and never falls below 5 s. |
| PlatformConfig.RetryDelayClosedForm | src/platform.ts:182-194 | After n errors the delay is min(5 s × 2^n, 30 s). |
| PlatformConfig.RetryDelaySaturates | src/platform.ts:182-194 | From the third error on, the delay is 30 s. |
| PlatformConfig.SessionValidPreserved | src/platform.ts:157-194 | Connect, 'connected', 'error' and a retry keep the delay within 5 s to 30 s and every pending delay within it. |
| PlatformConfig.ErrorsScheduleBackoff | src/platform.ts:157-194 | After a connection, n errors arm n retries with delays 5, 10, 20, 30, 30… seconds. |
| PlatformConfig.RetriesStuckWhileConnecting | src/platform.ts:182-194 | While a connect attempt is outstanding, no number of errors and retries connects again, and `connecting` stays set. |
| Platform.UpsertAllSnoc | src/platform.ts:268-282 | Upserting one more entry extends the registry by that entry's upsert. |
| Platform.UpsertAllConcat | src/platform.ts:234-348 | Upserting two lists in turn equals upserting their concatenation. |
| Platform.ItemEntriesSnoc | src/platform.ts:268-282 | One more description adds its entry exactly when its id is included. |
| Platform.ZonesSnoc | src/platform.ts:301-308 | One more zone extends the entries, the input ids, the door count and the temperature flag by what that zone selects. |
| Platform.ZoneStepInput | src/platform.ts:360-422 | An input zone with a service upserts its input, binds its id and changes nothing else. A CO2 or leak zone only restores its cached accessory's device, and throws. |
| Platform.ZoneStepGarageDoor | src/platform.ts:360-422 | A configured garage zone upserts its door and adds one door. |
| Platform.ZoneStepTemperature | src/platform.ts:360-422 | A temperature zone upserts its sensor and sets the temperature flag. |
| Platform.ZoneStepNone | src/platform.ts:360-422 | A zone that selects nothing changes nothing. |
| Platform.ZoneLoopSummary | src/platform.ts:301-308 | Over zones none of which throws, the zone loop's effect is the upsert of all selected entries, the union of the input ids, the door count and the temperature flag. |
| Platform.ZoneLoopThrowing | src/platform.ts:301-308 | Up to the first throwing zone, the loop has the summary of the zones before it, plus that zone's cached device restored. |
| Platform.ZoneLoopReached | src/platform.ts:301-308 | The loop over the zones it reaches: the whole summary when no zone throws, otherwise the summary up to the first throwing zone. |
| Platform.EndsWithAppend | src/platform.ts:338-347 | Commands appended last end the log. |
| Platform.ElkM1Platform.constructor | src/platform.ts:113-146 | The normalised areas, include lists, zone-type table and door table. A fresh panel link with nothing sent. A disconnected session with the initial delay. |
| Platform.ElkM1Platform.ConfigureAccessory | src/platform.ts:210-215 | Appends the restored accessory to the cache list. |
| Platform.ElkM1Platform.Connect | src/platform.ts:672-686 | The session follows `AfterConnect`. It sends a connect exactly when no attempt is in progress. |
| Platform.ElkM1Platform.OnError | src/platform.ts:182-194 | Arms a retry with the current delay, then doubles the delay up to the cap. `connecting` is not cleared. |
| Platform.ElkM1Platform.FireRetry | src/platform.ts:187-191 | The armed retry calls connect and is removed from the pending list. |
| Platform.ElkM1Platform.OnConnected | src/platform.ts:157-162 | Clears `connecting`, sets `connected`, resets the delay and requests a zone status report. |
| Platform.ElkM1Platform.FireTemperaturePoll | src/platform.ts:313-316 | Each poll requests the temperatures. |
| Platform.ElkM1Platform.UpsertAccessory | src/platform.ts:533-556 | The registry becomes `Upsert` under the identity's UUID. |
| Platform.ElkM1Platform.AddPanel | src/platform.ts:433-456 | A cached panel gets its device. The panel constructor then throws, so nothing is registered. |
| Platform.ElkM1Platform.AddOutput | src/platform.ts:468-491 | Upserts the output under 'Output<id>'. |
| Platform.ElkM1Platform.AddTask | src/platform.ts:533-556 | Upserts the task under 'Task<id>'. |
| Platform.ElkM1Platform.AddTemperatureZone | src/platform.ts:501-525 | Upserts the sensor under 'Temperature<id>' and sets the temperature flag. |
| Platform.ElkM1Platform.AddInputAccessory | src/platform.ts:568-613 | Throws exactly for a kind without a service. Then only a cached accessory gets the device; nothing is bound or registered. Otherwise it upserts the input under its type's identity and binds a fresh input, which has taken the zone's status, to the zone id. |
| Platform.ElkM1Platform.NewInput | src/platform.ts:592-593 | A fresh input of the zone's kind, with tamper type 'None', that has taken the zone's status once. It throws exactly when the kind has no service; otherwise both flags are pushed. |
| Platform.ElkM1Platform.AddGarageDoor | src/platform.ts:625-663 | Upserts the door under 'garageDoor<id>' and appends one fresh closed door. Earlier doors are kept. |
| Platform.ElkM1Platform.AddZone | src/platform.ts:360-422 | Throws exactly for a CO2 or leak zone. The platform's summary advances by `ZoneStep`. New doors are appended. |
| Platform.ElkM1Platform.AddZoneAt | src/platform.ts:301-308 | One pass of the zone loop advances the summary by one zone and throws exactly when that zone does. Given that no earlier zone threw, a throw here makes this zone the first throwing zone and the loop's last. |
| Platform.ElkM1Platform.FillZoneTexts | src/platform.ts:259-265 | The zone-text table is built from the reply. |
| Platform.ElkM1Platform.AddTasks | src/platform.ts:268-282 | The registry becomes the upsert of the included task entries. |
| Platform.ElkM1Platform.AddOutputs | src/platform.ts:285-299 | The registry becomes the upsert of the included output entries. |
| Platform.ElkM1Platform.AddZones | src/platform.ts:301-308 | Throws exactly when some zone throws. The summary becomes `ZoneLoop` over the zones reached, which stop at the first throwing zone. New doors are appended. |
| Platform.ElkM1Platform.SyncGarageDoors | src/platform.ts:322-334 | Succeeds exactly when every door's slots exist. Each door then takes the state of its state slot and of the slot after its obstruction zone. |
| Platform.ElkM1Platform.Recover | src/platform.ts:338-347 | The failure path disconnects and then connects (when not already connecting). |
| Platform.ElkM1Platform.DiscoverDevices | src/platform.ts:234-348 | Completes exactly when every reply is there, no area is configured (the panel constructor throws), no zone throws and the sync can read every door. Otherwise it reconnects. Once the text replies are in, the zone loop over the zones reached is as specified. Completion ends with an arming-status request. |
| Platform.ElkM1Platform.DescribeFirstArea | src/platform.ts:240-255 | Describing an area fails in the panel constructor, so it always ends in the failure path. |
| Platform.ElkM1Platform.DiscoverTextsAndZones | src/platform.ts:259-348 | Completes exactly when every text reply is there and the zone stage completes. Otherwise it reconnects. With the text replies in, it registers what `Described` and `ZoneLoop` specify. Completion ends with an arming-status request. |
| Platform.ElkM1Platform.FinishDiscovery | src/platform.ts:301-347 | Completes exactly when no zone throws and the sync can read every door; otherwise it reconnects. The zone loop runs over the zones reached, and the temperature poll starts only when no zone throws. Completion ends with an arming-status request. |
| Platform.ElkM1Platform.DiscoverTexts | src/platform.ts:259-299 | Succeeds exactly when all three text replies exist. The zone texts, tasks and outputs are then as specified. |
| Platform.ElkM1Platform.DiscoverZones | src/platform.ts:301-334 | The zone loop, then, unless a zone throws, the temperature poll and the door sync. It succeeds exactly when no zone throws and the sync can read every door. |
| Platform.ElkM1Platform.PollAndSync | src/platform.ts:310-334 | The temperature poll when a sensor exists, then the door sync, with the sync's exact success condition. |
| Platform.ElkM1Platform.StartTemperaturePoll | src/platform.ts:310-318 | Starts polling, with an immediate request, exactly when a temperature zone was found. |
| Platform.ElkM1Platform.OnZoneChange | src/platform.ts:164-176 | The input bound to the zone takes the message. Each door takes it as a state update on its state zone, otherwise as an obstruction update on its obstruction zone. |
| Platform.ElkM1Platform.DeliverZoneChange | src/accessories/ElkGarageDoor.ts:70-76 | A ZC event reaches the platform's handler and then each door's own listener. |
| LegacyAccessories.UnnamedUuidBases | lib/ElkMotion.js:12-15 | Unnamed motion, output and task zones get distinct `uuid_base`s. All unnamed contacts share 'contactundefined', and smoke zones named "" share 'smoke'. |
| LegacyAccessories.DistinctAfterPrefix | lib/ElkOutput.js:14-17 | Distinct ids give distinct `uuid_base`s after a common prefix. |
| LegacyAccessories.ContactIgnoresLogicalState | lib/ElkContact.js:37-40 | Without a `logicalStatus` field, the contact reads closed whatever the zone's state. |
| LegacyAccessories.LegacyContact.constructor | lib/ElkContact.js:5-35 | `uuid_base` is 'contact' followed by the name as given. Starts closed and untampered. |
| LegacyAccessories.LegacyContact.GetContact | lib/ElkContact.js:24-26 | Returns the stored contact state. |
| LegacyAccessories.LegacyContact.GetTampered | lib/ElkContact.js:28-30 | Returns the stored tamper flag, which nothing sets. |
| LegacyAccessories.LegacyContact.SetStatusFromMessage | lib/ElkContact.js:37-40 | Stores `ContactFromMessage` and pushes it. |
| LegacyAccessories.LegacyMotion.constructor | lib/ElkMotion.js:5-37 | The name defaults to 'Motion <id>', and `uuid_base` is 'Motion' followed by the name. Starts still. |
| LegacyAccessories.LegacyMotion.GetMotion | lib/ElkMotion.js:26-28 | Returns the stored motion state. |
| LegacyAccessories.LegacyMotion.GetTampered | lib/ElkMotion.js:30-32 | Returns the stored tamper flag. |
| LegacyAccessories.LegacyMotion.SetStatusFromMessage | lib/ElkMotion.js:39-42 | Motion is set exactly when the logical state is not 'Normal', and pushed. |
| LegacyAccessories.LegacySmoke.constructor | lib/ElkSmoke.js:5-35 | The name "" becomes 'Contact <id>'. `uuid_base` is 'smoke' followed by the name as given. |
| LegacyAccessories.LegacySmoke.GetSmoke | lib/ElkSmoke.js:24-26 | Always reports no smoke. |
| LegacyAccessories.LegacySmoke.GetTampered | lib/ElkSmoke.js:28-30 | Always reports untampered. |
| LegacyAccessories.LegacySmoke.SetStatusFromMessage | lib/ElkSmoke.js:37-40 | The message goes into `motionState`, and the value pushed is always 'no smoke'. |
| LegacyAccessories.LegacyOutputCommands | lib/ElkOutput.js:30-39 | A command is sent exactly when the request differs from the cached value: 'on' (duration 0) or 'off'. |
| LegacyAccessories.LegacyOutput.constructor | lib/ElkOutput.js:5-44 | The name defaults to 'Output <id>', and `uuid_base` is 'output' followed by the name. Starts off. |
| LegacyAccessories.LegacyOutput.GetOn | lib/ElkOutput.js:26-28 | Returns the cached state. |
| LegacyAccessories.LegacyOutput.SetOn | lib/ElkOutput.js:30-39 | Sends `LegacyOutputCommands` without updating the cache, and echoes the request. |
| LegacyAccessories.LegacyOutput.SetStatusFromMessage | lib/ElkOutput.js:46-49 | The output is on exactly when the state is 'On', and that value is pushed. |
| LegacyAccessories.LegacyTask.constructor | lib/ElkTask.js:5-39 | The name defaults to 'Task <id>', and `uuid_base` is 'task' followed by the name. No timer is pending. |
| LegacyAccessories.LegacyTask.GetOn | lib/ElkTask.js:22-24 | Always reads off. |
| LegacyAccessories.LegacyTask.SetOn | lib/ElkTask.js:26-34 | An 'on' request activates the task and arms one reset timer. An 'off' request does nothing. It always reports success. |
| LegacyAccessories.LegacyTask.FireReset | lib/ElkTask.js:29-31 | A pending timer pushes off. Every activation is reset once. |
| LegacyAccessories.DoorMessageSpec | lib/ElkGarageDoor.js:72-85 | The door is open exactly when the physical status is 'Violated'. A change moves the target with it. No change leaves everything as it was. A repeated status is idempotent. |
| LegacyAccessories.SetTargetSpec | lib/ElkGarageDoor.js:41-65 | A request equal to the current state changes nothing and pulses nothing. Otherwise it becomes the target. A relay is pulsed exactly for an open or close request that differs from the current state. |
| LegacyAccessories.LegacyGarageDoor.constructor | lib/ElkGarageDoor.js:5-70 | `uuid_base` is 'garage' followed by the name. Starts closed, target closed, and pushes both. |
| LegacyAccessories.LegacyGarageDoor.GetCurrentState | lib/ElkGarageDoor.js:31-34 | Returns the stored current state. |
| LegacyAccessories.LegacyGarageDoor.GetTargetState | lib/ElkGarageDoor.js:36-39 | Returns the stored target state. |
| LegacyAccessories.LegacyGarageDoor.SetTargetState | lib/ElkGarageDoor.js:41-65 | The new state is `AfterSetTarget`. It turns on the pulsed relay and queues its switch-off. It echoes the request. |
| LegacyAccessories.LegacyGarageDoor.FireRelayOff | lib/ElkGarageDoor.js:49-58 | The oldest queued relay, always one of the door's two, is switched off. |
| LegacyAccessories.LegacyGarageDoor.SetStatusFromMessage | lib/ElkGarageDoor.js:72-85 | The new state is `AfterDoorMessage`, with its pushes. |
| LegacyPlatform.LegacyZoneTypeTableSpec | index.js:42-50 | A listed zone number maps to the type of its last entry, and only listed numbers are keys. |
| LegacyPlatform.Descriptors | index.js:80-197 | One descriptor per accessory. |
| LegacyPlatform.DescriptorsDescribeEach | index.js:80-197 | The i-th descriptor describes the i-th accessory. |
| LegacyPlatform.DescriptorsSnoc | index.js:156-159 | Appending an accessory appends its descriptor. |
| LegacyPlatform.ItemDescriptorsSpec | index.js:106-128 | Every task and output description becomes an accessory, in reply order, with no include filter. |
| LegacyPlatform.ZoneDescriptor | index.js:132-159 | A zone gets an accessory exactly when it is configured and typed, and is a contact, motion or smoke zone, or a garage zone with a configured door. |
| LegacyPlatform.ZoneLoopStep | index.js:132-161 | One more zone extends the accessories and the bound ids by what that zone selects. |
| LegacyPlatform.ZoneDescriptorsSound | index.js:132-161 | Every accessory the zone loop creates comes from a selected zone. |
| LegacyPlatform.ZoneDescriptorsComplete | index.js:132-161 | Every selected zone contributes its accessory. |
| LegacyPlatform.ZoneDescriptorsSpec | index.js:132-161 | The zone loop's accessories are exactly those of the selected zones. |
| LegacyPlatform.ZoneIdsSound | index.js:156-159 | Every id the loop binds belongs to a selected zone. |
| LegacyPlatform.ZoneIdsComplete | index.js:156-159 | Every selected zone's id is bound. |
| LegacyPlatform.ZoneIdsSpec | index.js:156-159 | The loop binds exactly the ids of the selected zones. |
| LegacyPlatform.TextIdsSpec | index.js:106-128 | The task and output tables have exactly the ids in the reply. |
| LegacyPlatform.ZoneDescriptorOfSelected | index.js:134-155 | A selected zone's accessory depends only on its own type, text and door entry. |
| LegacyPlatform.LegacyElkPlatform.constructor | index.js:26-78 | Keeps the area. Normalises the zone-type table and builds the door table. Nothing is discovered yet. |
| LegacyPlatform.LegacyElkPlatform.Start | index.js:83 | Connects to the panel. |
| LegacyPlatform.LegacyElkPlatform.OnConnected | index.js:85-170 | Without a zone report nothing is handed over. A missing reply, or a typed zone with no table, hands over an empty list. Exactly when every reply is there and the zone loop does not throw, it hands over the whole list: the panel, tasks, outputs and selected zones in order. It then binds the selected zone ids and ends with an arming-status request. |
| LegacyPlatform.LegacyElkPlatform.DescribeAll | index.js:90-128 | Succeeds exactly when the three text replies exist. It then fills the zone texts and appends every task and output. |
| LegacyPlatform.LegacyElkPlatform.FillZoneTexts | index.js:96-104 | The zone-text table is built from the reply. |
| LegacyPlatform.LegacyElkPlatform.AddTasks | index.js:108-116 | Appends every task and keys the task table by exactly the reply's ids. |
| LegacyPlatform.LegacyElkPlatform.AddTask | index.js:112-115 | Appends one task and adds its id. |
| LegacyPlatform.LegacyElkPlatform.AddOutputs | index.js:120-128 | Appends every output and keys the output table by exactly the reply's ids. |
| LegacyPlatform.LegacyElkPlatform.AddOutput | index.js:124-127 | Appends one output and adds its id. |
| LegacyPlatform.LegacyElkPlatform.MakeZone | index.js:140-155 | Creates the accessory of the zone's type, matching `ZoneDescriptor`. |
| LegacyPlatform.LegacyElkPlatform.AddZones | index.js:132-161 | Throws exactly when a configured zone meets an undefined zone-type table, and then changes nothing. Otherwise it appends exactly the selected zones' accessories and binds their ids. |
| LegacyPlatform.LegacyElkPlatform.AddZoneAt | index.js:132-161 | One iteration of the zone loop keeps its invariant. |
| LegacyPlatform.LegacyElkPlatform.AddZone | index.js:133-159 | Appends and binds the zone's accessory exactly when `ZoneDescriptor` selects it. |
| LegacyPlatform.LegacyElkPlatform.OnZoneChange | index.js:172-178 | The accessory bound to the zone, if any, takes the message and pushes what its own handler pushes. |
| LegacyPlatform.LegacyElkPlatform.OnOutputChange | index.js:185-191 | Throws exactly when discovery never built the output table. Otherwise the output bound to the id, if any, takes the message: it is on exactly when the state is 'On', and that value is pushed to HomeKit. |

## Left out

- The TCP/TLS connection, authentication and the panel protocol's framing are not modelled. The panel link is a log of commands, and each reply is a parameter.
- The event-listener registry of the panel library is not modelled. Each listener is a method that the model calls directly.
- Timers and `setInterval` are not modelled as time. An armed timer is a pending entry, and firing it is a separate method. Timer order is first-in first-out.
- Asynchronous interleaving is not modelled. A chain of promises is one method over all the replies.
- HAP service and characteristic objects are not modelled. What HomeKit is told is a log of pushes per accessory.
- Logging is left out.
- Floating point is not modelled. Temperatures are integer tenths, rounded to the nearest tenth.
- `lib/ElkPanel.js` is not part of this model. Legacy discovery records the panel as a descriptor only.
- `src/accessories/index.ts` is not part of this model. The CO input is taken to have no input type and a service, like contact, motion and smoke.
- Platform.ElkM1Platform.DescribeFirstArea: only the first area is modelled. The panel constructor throws on it, so later areas are never reached.
- The legacy platform's `if (!config)` disabled path is left out.
- The legacy `area` setting is taken as a number, and set-handler values as bool or int. JavaScript loose equality on other types is not modelled.
- Re-entry of set handlers through `setCharacteristic` is left out. In the legacy garage door it calls the target handler with the current state, which changes nothing.
- The legacy `error` handler only logs, and the `CS` handler only logs. Both are left out.
- Platform.ElkM1Platform.DiscoverDevices: when a text request fails, only the reconnect is stated, plus, when areas are configured, that nothing is registered. Registrations made before the failed text request are not described.
- Platform.ElkM1Platform.OnZoneChange: what the doors and inputs push to HomeKit is stated in their own handlers, not in this method.
- LegacyPlatform.LegacyElkPlatform.OnConnected: the accessories are stated by their descriptors (kind, id and `uuid_base`), not by the objects' full state.
- Platform.ElkM1Platform.AddInputAccessory: the zone device carries the configured `tamperType` (src/platform.ts:373), but nothing copies it into the input, which keeps 'None'. The model does the same.
