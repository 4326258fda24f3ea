/** The Generic Access service (gatt_lib_generic_access_service.py). */
module GenericAccess {
  import opened DBus
  import opened GattService
  import Encoding

  const GENERIC_ACCESS_SERVICE_UUID: string := "00001800-0000-1000-8000-00805f9b34fb"
  const DEVICE_NAME_UUID: string := "00002A00-0000-1000-8000-00805f9b34fb"
  const APPEARANCE_UUID: string := "00002A01-0000-1000-8000-00805f9b34fb"

  /** Appearance 1153: category Cycling, sub-category Cycling Computer. */
  const CYCLING_COMPUTER: bv16 := 1153

  /** Primary, UUID 0x1800, with Device Name (0) and Appearance (1), both read-only. */
  ghost predicate IsGenericAccessService(s: Service, index: nat, base: CharacteristicBase)
    reads s
  {
    && s.path == ServicePath(index)
    && s.uuid == GENERIC_ACCESS_SERVICE_UUID
    && s.primary
    && s.characteristics == [
         NewCharacteristic(base, 0, DEVICE_NAME_UUID, ["read"], s.path),
         NewCharacteristic(base, 1, APPEARANCE_UUID, ["read"], s.path)]
  }

  /** `GenericAccessService(bus, index)`. */
  method NewGenericAccessService(index: nat, base: CharacteristicBase) returns (s: Service)
    ensures fresh(s) && IsGenericAccessService(s, index, base)
  {
    s := new Service(index, GENERIC_ACCESS_SERVICE_UUID, true);
    s.AddCharacteristic(NewCharacteristic(base, 0, DEVICE_NAME_UUID, ["read"], s.path));
    s.AddCharacteristic(NewCharacteristic(base, 1, APPEARANCE_UUID, ["read"], s.path));
  }

  const DEVICE_NAME: string := "DevName"

  /** Device Name: the string "DevName" (a `dbus.String`, not bytes). */
  function DeviceNameReadValue(options: map<string, Value>): (r: string)
    ensures r == DEVICE_NAME
  {
    "DevName"
  }

  /** Appearance: the 16-bit appearance code, little-endian. */
  function AppearanceReadValue(options: map<string, Value>): (r: seq<Byte>)
    ensures r == Encoding.Le16(CYCLING_COMPUTER)
    ensures Encoding.Le16Value(r) as int == 1153
  {
    [0x81, 0x04]
  }
}
