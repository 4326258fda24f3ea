/** Values exchanged with the bus: object paths, variant values, property
    dictionaries keyed by interface name, and the error results of a call. */
module DBus {

  type ObjectPath = string

  /** One byte of a characteristic value (a `dbus.Byte`). */
  type Byte = bv8

  /** The variants that appear in the property dictionaries of this model. */
  datatype Value =
    | Str(s: string)
    | Bool(b: bool)
    | Paths(paths: seq<ObjectPath>)
    | Strs(strs: seq<string>)
    | Bytes(bytes: seq<Byte>)

  /** `a{sa{sv}}`: interface name -> property name -> value. */
  type Properties = map<string, map<string, Value>>

  datatype Option<T> = None | Some(value: T)

  /** The errors a bus method of the core can raise. */
  datatype Error = InvalidArgs

  datatype Result<T> = Ok(value: T) | Err(error: Error)

  /** The outcome the host stack delivers for a registration request:
      the reply handler, or the error handler with its error detail. */
  datatype Reply = Registered | Failed(detail: string)
}

/** Interface names used by the core.  They are BlueZ's documented names
    (doc/gatt-api.txt, doc/advertising-api.txt) and the D-Bus standard ones. */
module GattVars {
  const BLUEZ_SERVICE_NAME: string := "org.bluez"
  const DBUS_OM_IFACE: string := "org.freedesktop.DBus.ObjectManager"
  const DBUS_PROP_IFACE: string := "org.freedesktop.DBus.Properties"
  const GATT_MANAGER_IFACE: string := "org.bluez.GattManager1"
  const GATT_SERVICE_IFACE: string := "org.bluez.GattService1"
  const GATT_CHRC_IFACE: string := "org.bluez.GattCharacteristic1"
  const LE_ADVERTISING_MANAGER_IFACE: string := "org.bluez.LEAdvertisingManager1"
}
