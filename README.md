# BLE GATT peripheral example — a Dafny model

This project models the core of a BlueZ-based Bluetooth Low Energy GATT
peripheral written in Python:

- the **GATT service** object (`gatt_lib_service.py`): its path
  `/org/bluez/example/service<index>`, its properties dictionary, the
  characteristic list it appends to, `get_characteristic_paths` and
  `GetAll`;
- the **application** and entry point (`Gattserver.py`): the three services
  added in order (Device Information, Cycling Power, the custom service),
  `GetManagedObjects`, which walks service → characteristic → descriptor and
  fills a path → properties dictionary, `find_adapter`, the registration
  callbacks and the steps of `run_gatt_peripheral`;
- the **advertiser** (`Gattadvertiser.py`): the `CyclingAdvertisements`
  payload, its own `find_adapter`, the registration callbacks and the steps
  of `run_gatt_advertiser`;
- the **service implementations**: Cycling Power (with its notifying
  measurement characteristic), Device Information, Generic Access, and the
  two custom services with their write/notify characteristics.

Entities whose fields the source updates in place (`Service`, `Application`,
the notifying characteristics, the advertisement, the main loop) are Dafny
classes. Characteristics and descriptors as they appear in the object tree
are values (`GattService.Characteristic`, `GattService.Descriptor`); the
characteristic base class, which is not part of this model, enters as a
function parameter `CharacteristicBase` from the constructor arguments
(index, UUID, flags, service path) to the path, properties and descriptors
it derives.

`GetManagedObjects` is specified by `ObjectTree.ManagedObjects`: the list of
all tree nodes in visiting order (`TreeEntries`), folded into a dictionary
by assigning one entry after another (`Collect`), so a later node overwrites
an earlier one at the same path, exactly as the Python dictionary
assignments do. The lemmas about it give the keys (exactly the tree's
paths), the size (services + characteristics + descriptors when paths are
distinct) and each node's value.

Notifications are a pure state machine, `Notify.NotifyState`: the
`notifying` flag, the number of GLib timers armed by `timeout_add` that
have not fired yet, and the log of values pushed by `PropertiesChanged`.
Each notifying characteristic class ties its fields to it
(`State() == Notify.Start(old(State()))` and so on), and a timer firing is
an explicit `TimerFires` call. The run-level lemmas (`Notify.Run` over
StartNotify / StopNotify / Tick events) state what a subscriber sees.

Interface names from `gatt_lib_variables` (not part of this model) are
BlueZ's documented names (`org.bluez.GattService1`,
`org.bluez.GattManager1`, `org.bluez.LEAdvertisingManager1`, …).

Behaviour of the code worth knowing:

- `StopNotify` only clears `notifying` and then calls the update helper,
  which then arms nothing. A timer that is already armed is never
  cancelled: it fires once more, pushes one more value, sees `notifying`
  false and is not re-armed. So after subscribe, one interval, unsubscribe,
  two more intervals, two values have been pushed, not one
  (`Notify.SubscribeThenUnsubscribe`, `Notify.StoppedDrains`).
- StartNotify, StopNotify, StartNotify before the first timer has fired
  leaves two timers that both keep re-arming, so every interval pushes two
  values: after m intervals, 2m values (`Notify.RestartBeforeFiringDoublesTimers`,
  from the steady-state lemma `Notify.NotifyingInterval`). The classes keep
  this behaviour as written.
- The overridden `ReadValue`, `WriteValue`, `StartNotify` and `StopNotify`
  in the service files check no flags, and the two entry points keep no
  registration state beyond the main loop's running flag. What the
  characteristic and advertisement base classes do (flag checks for
  operations a subclass does not override, builder calls after
  registration) is not modelled.

## Model

| member | source | states |
|---|---|---|
| `Decimal.DecimalString` | gatt_example/gatt_base/gatt_lib_service.py:17 | `str(index)` is a canonical numeral: digits only, no leading zero, one digit exactly when the index is below 10 |
| `Decimal.ValueOfString` | gatt_example/gatt_base/gatt_lib_service.py:17 | reading the numeral back gives the index: `int(str(n)) == n` |
| `Decimal.StringOfValue` | gatt_example/gatt_base/gatt_lib_service.py:17 | every canonical numeral is `str` of the number it denotes (the other direction of the round trip) |
| `Decimal.DecimalStringInjective` | gatt_example/gatt_base/gatt_lib_service.py:17 | two numbers have the same numeral iff they are equal |
| `GattService.ServicePath` | gatt_example/gatt_base/gatt_lib_service.py:14-17 | a service path is `PATH_BASE` followed by a canonical numeral that denotes the service's index |
| `GattService.ServicePathInjective` | gatt_example/gatt_base/gatt_lib_service.py:14-17 | two services have the same path iff they have the same index |
| `GattService.Service.constructor` | gatt_example/gatt_base/gatt_lib_service.py:16-21 | the new service has the path of its index, the given UUID and primary flag, and no characteristics |
| `GattService.CharacteristicPaths` | gatt_example/gatt_base/gatt_lib_service.py:41-45 | one path per characteristic, the i-th being the i-th characteristic's path |
| `GattService.Service.GetCharacteristicPaths` | gatt_example/gatt_base/gatt_lib_service.py:41-45 | the loop collects exactly `CharacteristicPaths` of the current characteristic list |
| `GattService.ServiceProperties` | gatt_example/gatt_base/gatt_lib_service.py:24-33 | `get_properties`: the service interface mapped to UUID, Primary and the characteristic paths; its shape is `GattService.ServicePropertiesShape` |
| `GattService.NewCharacteristic` | gatt_example/gatt_implementations/gatt_lib_cycling_power_service.py:49-54 | `Characteristic.__init__(bus, index, uuid, flags, service)`: keeps the constructor arguments and takes path, properties and descriptors from the characteristic base class |
| `GattService.ServicePropertiesShape` | gatt_example/gatt_base/gatt_lib_service.py:24-33 | the properties hold one interface, the service interface, with exactly the keys UUID, Primary and Characteristics, carrying the UUID, the flag and the characteristic paths in insertion order |
| `GattService.Service.AddCharacteristic` | gatt_example/gatt_base/gatt_lib_service.py:38-39 | the characteristic is appended at the end, the others kept in order |
| `GattService.Service.GetAll` | gatt_example/gatt_base/gatt_lib_service.py:50-57 | fails with InvalidArgs iff the interface is not the service interface; otherwise returns that interface's dictionary from the properties |
| `GattServer.Application.constructor` | gatt_example/Gattserver.py:36-49 | path "/", then three fresh services: Device Information at index 0, Cycling Power at 1, the custom service at 2, each with its UUID and characteristics |
| `GattServer.ApplicationServicePathsDistinct` | gatt_example/Gattserver.py:42-48 | the three services' paths are pairwise distinct |
| `GattServer.Application.AddService` | gatt_example/Gattserver.py:54-55 | the service is appended at the end |
| `GattServer.Application.GetManagedObjects` | gatt_example/Gattserver.py:57-71 | the response is `ManagedObjects` of the current tree: the dictionary of every node's path and properties, later nodes overwriting earlier ones |
| `GattServer.RecordService` | gatt_example/Gattserver.py:63-70 | one outer iteration adds the service's entry and then its characteristics' blocks, in visiting order |
| `GattServer.RecordCharacteristics` | gatt_example/Gattserver.py:66-70 | the middle loop adds each characteristic's entry followed by its descriptors' entries |
| `GattServer.RecordDescriptors` | gatt_example/Gattserver.py:69-70 | the inner loop adds each descriptor's entry in order |
| `ObjectTree.DescriptorEntries` | gatt_example/Gattserver.py:68-70 | one entry per descriptor, with that descriptor's path and properties |
| `ObjectTree.CollectKeys` | gatt_example/Gattserver.py:61-71 | the dictionary's keys are exactly the paths of the entries assigned |
| `ObjectTree.CollectSnoc` | gatt_example/Gattserver.py:64 | assigning one more entry updates the dictionary at that entry's path only |
| `ObjectTree.CollectLastWins` | gatt_example/Gattserver.py:61-71 | an entry that no later entry shares a path with keeps its properties in the result |
| `ObjectTree.CollectDistinct` | gatt_example/Gattserver.py:61-71 | with distinct paths the dictionary has one key per entry and every entry's properties under its path |
| `ObjectTree.TreeEntriesLength` | gatt_example/Gattserver.py:63-70 | the walk visits services + characteristics + descriptors nodes |
| `ObjectTree.TreeEntriesExactlyTree` | gatt_example/Gattserver.py:63-70 | an entry is visited iff it is a service's, a characteristic's or a descriptor's of the tree |
| `ObjectTree.ManagedObjects` | gatt_example/Gattserver.py:61-71 | the `response` dictionary: every tree node's entry, in visiting order, assigned one after another; its keys, size and values are the three lemmas below |
| `ObjectTree.ManagedObjectsKeys` | gatt_example/Gattserver.py:57-71 | a path is a key of the response iff some node of the tree has that path |
| `ObjectTree.ManagedObjectsCount` | gatt_example/Gattserver.py:57-71 | with distinct node paths the response has services + characteristics + descriptors keys |
| `ObjectTree.ManagedObjectsComplete` | gatt_example/Gattserver.py:57-71 | with distinct node paths every node's path maps to that node's properties |
| `Adapter.FindAdapter` | gatt_example/Gattadvertiser.py:54-62 | None iff no managed object has the interface; otherwise the path of the first object, in iteration order, that has it |
| `Adapter.Missing` | gatt_example/Gattserver.py:108-110 | `if not adapter`: no adapter found, or an empty path, which Python also treats as false |
| `GattServer.FindAdapter` | gatt_example/Gattserver.py:87-95 | the loop with early return gives `Adapter.FindAdapter` for the GATT manager interface |
| `GattServer.RegisterAppCb` | gatt_example/Gattserver.py:74-76 | the success callback leaves the main loop untouched |
| `GattServer.RegisterAppErrorCb` | gatt_example/Gattserver.py:79-84 | the error callback stops the main loop |
| `GattServer.RunGattPeripheral` | gatt_example/Gattserver.py:98-127 | without an adapter (None or empty path) nothing is built or registered; otherwise a fresh application with path "/" and three services is registered once with the found adapter, and the loop keeps running iff the registration succeeds |
| `EventLoop.MainLoop.Run` | gatt_example/Gattserver.py:127 | after `run` the loop is running |
| `EventLoop.MainLoop.Quit` | gatt_example/Gattserver.py:84 | after `quit` the loop is not running |
| `Notify.Update` | gatt_example/gatt_implementations/gatt_lib_cycling_power_service.py:83-91 | the `_update_*` helper: arms one timer iff notifying; what the three classes' update methods are proved equal to |
| `Notify.Start` | gatt_example/gatt_implementations/gatt_lib_cycling_power_service.py:93-101 | StartNotify: unchanged when notifying, otherwise sets the flag and updates; its properties are `Notify.StartSpec` and `Notify.StartIdempotent` |
| `Notify.Stop` | gatt_example/gatt_implementations/gatt_lib_cycling_power_service.py:103-111 | StopNotify: unchanged when not notifying, otherwise clears the flag and updates, cancelling nothing; its properties are `Notify.StopSpec` and `Notify.StopIdempotent` |
| `Notify.Fire` | gatt_example/gatt_implementations/gatt_lib_cycling_power_service.py:57-91 | one timer firing: the callback pushes its value and returns `notifying`, which decides whether the timer stays armed; its properties are `Notify.FireSpec` |
| `Notify.StartSpec` | gatt_example/gatt_implementations/gatt_lib_cycling_power_service.py:93-101 | after StartNotify the characteristic is notifying; one timer is armed iff it was not notifying before; nothing is pushed |
| `Notify.StopSpec` | gatt_example/gatt_implementations/gatt_lib_cycling_power_service.py:103-111 | after StopNotify the characteristic is not notifying; no timer is armed or cancelled; nothing is pushed |
| `Notify.StartIdempotent` | gatt_example/gatt_implementations/gatt_lib_cycling_power_service.py:95-97 | a second StartNotify changes nothing |
| `Notify.StopIdempotent` | gatt_example/gatt_implementations/gatt_lib_cycling_power_service.py:105-107 | a second StopNotify changes nothing |
| `Notify.FireSpec` | gatt_example/gatt_implementations/gatt_lib_cycling_power_service.py:57-81 | a firing pushes exactly the payload; the timer stays armed iff the callback returned `notifying` true |
| `Notify.RunKeepsLive` | gatt_example/gatt_implementations/gatt_lib_cycling_power_service.py:83-111 | over any run, a notifying characteristic always has a timer armed |
| `Notify.EmissionsOnlyFromTicks` | gatt_example/gatt_implementations/gatt_lib_cycling_power_service.py:80-91 | values are only appended, at most one per timer firing, never by StartNotify or StopNotify |
| `Notify.StoppedDrains` | gatt_example/gatt_implementations/gatt_lib_cycling_power_service.py:103-111 | after StopNotify each timer already armed fires once more, pushing one value, and then none is armed |
| `Notify.SilentStaysSilent` | gatt_example/gatt_implementations/gatt_lib_cycling_power_service.py:88-89 | not notifying and no timer armed: no number of intervals pushes anything |
| `Notify.SubscribeThenUnsubscribe` | gatt_example/gatt_implementations/gatt_lib_cycling_power_service.py:93-111 | subscribe, one interval, unsubscribe, two intervals: exactly two values are pushed and no timer is left |
| `Notify.RunAppend` | gatt_example/gatt_implementations/gatt_lib_cycling_power_service.py:83-111 | running two event sequences one after the other is running their concatenation |
| `Notify.NotifyingInterval` | gatt_example/gatt_implementations/gatt_lib_cycling_power_service.py:80-91 | while notifying with a timer armed, k firings push exactly k values and leave the flag and the armed timers unchanged |
| `Notify.RestartBeforeFiringDoublesTimers` | gatt_example/gatt_implementations/gatt_lib_cycling_power_service.py:93-111 | Start, Stop, Start before a firing leaves two armed timers, and for every m the next m intervals (2m firings) push 2m values, keeping both timers |
| `CyclingPower.NewCyclingPowerService` | gatt_example/gatt_implementations/gatt_lib_cycling_power_service.py:30-36 | primary service 0x1818 with Measurement (notify), Feature (read) and Sensor Location (read) at indices 0, 1, 2 |
| `CyclingPower.MeasurementPayload` | gatt_example/gatt_implementations/gatt_lib_cycling_power_service.py:57-71 | four octets: flags 0, then the power little-endian, which decodes back to the power |
| `CyclingPower.MeasurementValue` | gatt_example/gatt_implementations/gatt_lib_cycling_power_service.py:66-71 | the pushed value is 00 00 96 00, whose last two octets decode to 150 |
| `Encoding.Le16RoundTrip` | gatt_example/gatt_implementations/gatt_lib_cycling_power_service.py:67-71 | splitting a 16-bit value into low and high octets and joining them back gives the value |
| `Encoding.Le16ValueInverse` | gatt_example/gatt_implementations/gatt_lib_generic_access_service.py:72 | every octet pair is the little-endian encoding of the value it denotes |
| `CyclingPower.CyclingPowerMeasurementChrc.constructor` | gatt_example/gatt_implementations/gatt_lib_cycling_power_service.py:49-55 | not notifying, no timer armed, nothing pushed |
| `CyclingPower.CyclingPowerMeasurementChrc.PowerMeasurementCb` | gatt_example/gatt_implementations/gatt_lib_cycling_power_service.py:57-81 | pushes the measurement payload and returns `notifying`, changing nothing else |
| `CyclingPower.CyclingPowerMeasurementChrc.UpdatePowerMeasurement` | gatt_example/gatt_implementations/gatt_lib_cycling_power_service.py:83-91 | arms one timer iff notifying |
| `CyclingPower.CyclingPowerMeasurementChrc.StartNotify` | gatt_example/gatt_implementations/gatt_lib_cycling_power_service.py:93-101 | the new state is `Notify.Start` of the old one |
| `CyclingPower.CyclingPowerMeasurementChrc.StopNotify` | gatt_example/gatt_implementations/gatt_lib_cycling_power_service.py:103-111 | the new state is `Notify.Stop` of the old one |
| `CyclingPower.CyclingPowerMeasurementChrc.TimerFires` | gatt_example/gatt_implementations/gatt_lib_cycling_power_service.py:80-91 | the new state is `Notify.Fire` of the old one with the measurement payload |
| `CyclingPower.FeatureReadValue` | gatt_example/gatt_implementations/gatt_lib_cycling_power_service.py:130-145 | four octets, every feature bit clear |
| `CyclingPower.SensorLocationReadValue` | gatt_example/gatt_implementations/gatt_lib_cycling_power_service.py:164-176 | one octet, 12 (Rear Wheel) |
| `CustomService.NewCustomGattService` | gatt_example/gatt_implementations/gatt_lib_custom_service.py:23-27 | primary service with the custom UUID and one write/notify characteristic at index 0 |
| `CustomService.CustomGattCharacteristic.constructor` | gatt_example/gatt_implementations/gatt_lib_custom_service.py:38-46 | empty value, not notifying, no timer, nothing pushed |
| `CustomService.CustomGattCharacteristic.ReturnsAndRepliesCb` | gatt_example/gatt_implementations/gatt_lib_custom_service.py:48-59 | pushes an empty value and returns `notifying`, changing nothing else |
| `CustomService.CustomGattCharacteristic.UpdateChar` | gatt_example/gatt_implementations/gatt_lib_custom_service.py:61-69 | arms one timer iff notifying; the value is kept |
| `CustomService.CustomGattCharacteristic.StartNotify` | gatt_example/gatt_implementations/gatt_lib_custom_service.py:71-79 | the new state is `Notify.Start` of the old one; the value is kept |
| `CustomService.CustomGattCharacteristic.StopNotify` | gatt_example/gatt_implementations/gatt_lib_custom_service.py:81-89 | the new state is `Notify.Stop` of the old one; the value is kept |
| `CustomService.CustomGattCharacteristic.TimerFires` | gatt_example/gatt_implementations/gatt_lib_custom_service.py:58-69 | the new state is `Notify.Fire` of the old one with the empty payload; the value is kept |
| `CustomService.CustomGattCharacteristic.WriteValue` | gatt_example/gatt_implementations/gatt_lib_custom_service.py:91-98 | the written bytes replace the value; the notify state is unchanged |
| `CustomControlService.NewCustomGattControlService` | gatt_example/gatt_implementations/gatt_lib_custom_control_service.py:30-34 | primary service with the control UUID and one write/notify characteristic at index 0 |
| `CustomControlService.CustomGattControlCharacteristic.constructor` | gatt_example/gatt_implementations/gatt_lib_custom_control_service.py:45-53 | empty value, not notifying, no timer, nothing pushed |
| `CustomControlService.CustomGattControlCharacteristic.ReturnsAndRepliesCb` | gatt_example/gatt_implementations/gatt_lib_custom_control_service.py:55-66 | pushes an empty value and returns `notifying`, changing nothing else |
| `CustomControlService.CustomGattControlCharacteristic.UpdateChar` | gatt_example/gatt_implementations/gatt_lib_custom_control_service.py:68-76 | arms one timer iff notifying; the value is kept |
| `CustomControlService.CustomGattControlCharacteristic.StartNotify` | gatt_example/gatt_implementations/gatt_lib_custom_control_service.py:78-86 | the new state is `Notify.Start` of the old one; the value is kept |
| `CustomControlService.CustomGattControlCharacteristic.StopNotify` | gatt_example/gatt_implementations/gatt_lib_custom_control_service.py:88-96 | the new state is `Notify.Stop` of the old one; the value is kept |
| `CustomControlService.CustomGattControlCharacteristic.TimerFires` | gatt_example/gatt_implementations/gatt_lib_custom_control_service.py:65-76 | the new state is `Notify.Fire` of the old one with the empty payload; the value is kept |
| `CustomControlService.CustomGattControlCharacteristic.WriteValue` | gatt_example/gatt_implementations/gatt_lib_custom_control_service.py:98-105 | the written bytes replace the value; the notify state is unchanged |
| `DeviceInformation.NewDeviceInformationService` | gatt_example/gatt_implementations/gatt_lib_device_information_service.py:24-30 | primary service 0x180A with Manufacturer Name, Model Number and Serial Number (all read) at indices 0, 1, 2 |
| `DeviceInformation.ManufacturerNameReadValue` | gatt_example/gatt_implementations/gatt_lib_device_information_service.py:49-57 | two NUL octets |
| `DeviceInformation.ModelNumberReadValue` | gatt_example/gatt_implementations/gatt_lib_device_information_service.py:76-85 | the ASCII octets of "1.0" |
| `Encoding.AsciiBytes` | gatt_example/gatt_implementations/gatt_lib_device_information_service.py:79-83 | one octet per character, each equal to the character's code |
| `DeviceInformation.SerialNumberReadValue` | gatt_example/gatt_implementations/gatt_lib_device_information_service.py:104-113 | two NUL octets, whatever the options |
| `GenericAccess.NewGenericAccessService` | gatt_example/gatt_implementations/gatt_lib_generic_access_service.py:17-22 | primary service 0x1800 with Device Name and Appearance (both read) at indices 0, 1 |
| `GenericAccess.DeviceNameReadValue` | gatt_example/gatt_implementations/gatt_lib_generic_access_service.py:41-47 | the string "DevName" |
| `GenericAccess.AppearanceReadValue` | gatt_example/gatt_implementations/gatt_lib_generic_access_service.py:66-74 | the little-endian encoding of appearance 1153 (Cycling Computer) |
| `GattAdvertiser.Advertisement.constructor` | gatt_example/Gattadvertiser.py:31 | the given index and type, nothing advertised yet |
| `GattAdvertiser.Advertisement.AddServiceUuid` | gatt_example/Gattadvertiser.py:33 | the UUID is appended; the other fields are unchanged |
| `GattAdvertiser.Advertisement.AddManufacturerData` | gatt_example/Gattadvertiser.py:35 | the data is stored under the company identifier; the other fields are unchanged |
| `GattAdvertiser.Advertisement.AddLocalName` | gatt_example/Gattadvertiser.py:37 | the local name is set; the other fields are unchanged |
| `GattAdvertiser.NewCyclingAdvertisements` | gatt_example/Gattadvertiser.py:27-38 | a fresh peripheral advertisement with service UUIDs exactly ["1818"], manufacturer data exactly {0xFFFF: 00 01 02 03 04}, local name "DevName" and TX power included |
| `GattAdvertiser.RegisterAdCb` | gatt_example/Gattadvertiser.py:41-43 | the success callback leaves the main loop untouched |
| `GattAdvertiser.RegisterAdErrorCb` | gatt_example/Gattadvertiser.py:46-51 | the error callback stops the main loop |
| `GattAdvertiser.FindAdapter` | gatt_example/Gattadvertiser.py:54-62 | the loop with early return gives `Adapter.FindAdapter` for the LE advertising manager interface |
| `GattAdvertiser.RunGattAdvertiser` | gatt_example/Gattadvertiser.py:65-98 | without an adapter nothing happens; otherwise: power on, then the Release hook, then RegisterAdvertisement with the found adapter, in that order; the loop keeps running iff the registration succeeds |

## Left out

- D-Bus plumbing (`SystemBus`, `dbus.Interface`, `get_object`, the method and signal decorators, the `dbus.Byte`/`ObjectPath`/`Array` wrappers): paths, octets and dictionaries are plain values.
- The GLib main loop and `timeout_add`: time is not modelled; a timer firing is an explicit `TimerFires` call (or a `Tick` event) and the 250 ms / 100 ms intervals are constants only.
- Threads, `GObject.threads_init`, SIGTERM handling, `time.sleep`, `exit` and the `atexit` machinery: process lifecycle and concurrency. The `atexit` registration is kept only as a step in `RunGattAdvertiser`'s step list.
- Logging, the rotating log file, `time.strftime` and the `-D` command-line flag, which only gates logging.
- Powering the adapter through `Properties.Set` and the remote `RegisterApplication`/`RegisterAdvertisement` calls: the host's reply is an input, and only its effect on the main loop is modelled (power-on stays a step).
- `gatt_lib_characteristic` and `gatt_lib_descriptor` are not part of this model: characteristic and descriptor paths, properties and descriptors come from the `CharacteristicBase` parameter, and no refusal of `ReadValue`, `WriteValue`, `StartNotify` or `StopNotify` by the base class is modelled.
- `gatt_lib_advertisement` is not part of this model: the builder effects (append a UUID, store data under a company identifier, set the name) follow BlueZ's example advertisement, and the advertisement's path and `Release` are not modelled.
- `gatt_lib_exceptions`, `gatt_lib_variables` and `gatt_lib_config` are not part of this model: the error is the `InvalidArgs` value and the interface names are BlueZ's.
- `PropertiesChanged` is recorded only as the 'Value' pushed, in the characteristic's `emitted` log.
- The interpretation of written bytes marked TODO in both custom services: the source only stores them.
- `get_path` and `get_characteristics` are the `path` and `characteristics` fields themselves.
- A notifying characteristic's class and its tree entry (`GattService.Characteristic`) are separate: the tree entry is what `GetManagedObjects` reports, and the class carries the notify state.
- Service indices are natural numbers; `str` of a negative index is not modelled.
- `setup.py`: packaging only.
