/** The Device Information service (gatt_lib_device_information_service.py). */
module DeviceInformation {
  import opened DBus
  import opened GattService
  import Encoding

  const DEVICE_INFORMATION_SERVICE_UUID: string := "0000180A-0000-1000-8000-00805f9b34fb"
  const MANUFACTURER_NAME_UUID: string := "00002A29-0000-1000-8000-00805f9b34fb"
  const MODEL_NUMBER_UUID: string := "00002A24-0000-1000-8000-00805f9b34fb"
  const SERIAL_NUMBER_UUID: string := "00002A25-0000-1000-8000-00805f9b34fb"

  /** Primary, UUID 0x180A, with three read-only string characteristics:
      Manufacturer Name (0), Model Number (1), Serial Number (2). */
  ghost predicate IsDeviceInformationService(s: Service, index: nat, base: CharacteristicBase)
    reads s
  {
    && s.path == ServicePath(index)
    && s.uuid == DEVICE_INFORMATION_SERVICE_UUID
    && s.primary
    && s.characteristics == [
         NewCharacteristic(base, 0, MANUFACTURER_NAME_UUID, ["read"], s.path),
         NewCharacteristic(base, 1, MODEL_NUMBER_UUID, ["read"], s.path),
         NewCharacteristic(base, 2, SERIAL_NUMBER_UUID, ["read"], s.path)]
  }

  /** `DeviceInformationService(bus, index)`. */
  method NewDeviceInformationService(index: nat, base: CharacteristicBase) returns (s: Service)
    ensures fresh(s) && IsDeviceInformationService(s, index, base)
  {
    s := new Service(index, DEVICE_INFORMATION_SERVICE_UUID, true);
    s.AddCharacteristic(NewCharacteristic(base, 0, MANUFACTURER_NAME_UUID, ["read"], s.path));
    s.AddCharacteristic(NewCharacteristic(base, 1, MODEL_NUMBER_UUID, ["read"], s.path));
    s.AddCharacteristic(NewCharacteristic(base, 2, SERIAL_NUMBER_UUID, ["read"], s.path));
  }

  /** Manufacturer Name: a placeholder of two NUL octets. */
  function ManufacturerNameReadValue(options: map<string, Value>): (r: seq<Byte>)
    ensures |r| == 2 && forall i :: 0 <= i < |r| ==> r[i] == 0
  {
    [0x00, 0x00]
  }

  /** Model Number: the ASCII text "1.0". */
  function ModelNumberReadValue(options: map<string, Value>): (r: seq<Byte>)
    ensures r == Encoding.AsciiBytes("1.0")
  {
    [0x31, 0x2e, 0x30]
  }

  /** Serial Number: a placeholder of two NUL octets. */
  function SerialNumberReadValue(options: map<string, Value>): (r: seq<Byte>)
    ensures |r| == 2 && forall i :: 0 <= i < |r| ==> r[i] == 0
  {
    [0x00, 0x00]
  }
}
