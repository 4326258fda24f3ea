/** The Cycling Power service (gatt_lib_cycling_power_service.py). */
module CyclingPower {
  import opened DBus
  import opened GattService
  import Notify
  import Encoding

  const CYCLING_POWER_UUID: string := "00001818-0000-1000-8000-00805f9b34fb"
  const CYCLING_POWER_MEASUREMENT_UUID: string := "00002A63-0000-1000-8000-00805f9b34fb"
  const CP_FEATURE_UUID: string := "00002A65-0000-1000-8000-00805f9b34fb"
  const CP_SENSOR_LOCATION_UUID: string := "00002A5D-0000-1000-8000-00805f9b34fb"

  /** The instantaneous power the measurement always reports, in watts. */
  const POWER: bv16 := 150

  /** Sensor Location value 12, "Rear Wheel". */
  const REAR_WHEEL: Byte := 12

  /** The service built for bus index `index`: primary, with UUID 0x1818 and
      the Measurement (notify), Feature (read) and Sensor Location (read)
      characteristics at indices 0, 1, 2. */
  ghost predicate IsCyclingPowerService(s: Service, index: nat, base: CharacteristicBase)
    reads s
  {
    && s.path == ServicePath(index)
    && s.uuid == CYCLING_POWER_UUID
    && s.primary
    && s.characteristics == [
         NewCharacteristic(base, 0, CYCLING_POWER_MEASUREMENT_UUID, ["notify"], s.path),
         NewCharacteristic(base, 1, CP_FEATURE_UUID, ["read"], s.path),
         NewCharacteristic(base, 2, CP_SENSOR_LOCATION_UUID, ["read"], s.path)]
  }

  /** `CyclingPowerService(bus, index)`. */
  method NewCyclingPowerService(index: nat, base: CharacteristicBase) returns (s: Service)
    ensures fresh(s) && IsCyclingPowerService(s, index, base)
  {
    s := new Service(index, CYCLING_POWER_UUID, true);
    s.AddCharacteristic(NewCharacteristic(base, 0, CYCLING_POWER_MEASUREMENT_UUID, ["notify"], s.path));
    s.AddCharacteristic(NewCharacteristic(base, 1, CP_FEATURE_UUID, ["read"], s.path));
    s.AddCharacteristic(NewCharacteristic(base, 2, CP_SENSOR_LOCATION_UUID, ["read"], s.path));
  }

  /** A Cycling Power Measurement value: the 16-bit flags field (all clear:
      only the mandatory instantaneous power is present) followed by the
      16-bit little-endian instantaneous power. */
  function MeasurementPayload(power: bv16): (p: seq<Byte>)
    ensures |p| == 4
    ensures Encoding.Le16Value(p[..2]) == 0
    ensures Encoding.Le16Value(p[2..]) == power
    ensures p[2..] == Encoding.Le16(power)
  {
    var p := [0x00, 0x00] + [(power & 0xFF) as bv8, ((power >> 8) & 0xFF) as bv8];
    assert p[2..] == Encoding.Le16(power);
    Encoding.Le16RoundTrip(power);
    p
  }

  /** The value pushed on every firing: octets 00 00 96 00. */
  lemma MeasurementValue()
    ensures MeasurementPayload(POWER) == [0x00, 0x00, 0x96, 0x00]
    ensures Encoding.Le16Value(MeasurementPayload(POWER)[2..]) as int == 150
  {
  }

  class CyclingPowerMeasurementChrc {
    const updateTimeout: nat := 250
    var notifying: bool
    var pending: nat
    var emitted: seq<seq<Byte>>

    function State(): Notify.NotifyState
      reads this
    {
      Notify.NotifyState(notifying, pending, emitted)
    }

    constructor ()
      ensures State() == Notify.Idle
    {
      notifying := false;
      pending := 0;
      emitted := [];
    }

    /** `power_msrmt_cb`: builds the payload, pushes it, returns `notifying`. */
    method PowerMeasurementCb() returns (again: bool)
      modifies this
      ensures emitted == old(emitted) + [MeasurementPayload(POWER)]
      ensures notifying == old(notifying) && pending == old(pending)
      ensures again == notifying
    {
      var value: seq<Byte> := [];
      value := value + [0x00];
      value := value + [0x00];
      var power16: bv16 := POWER;
      var lso := power16 & 0xFF;
      var mso := (power16 >> 8) & 0xFF;
      value := value + [lso as bv8];
      value := value + [mso as bv8];
      assert value == [0x00, 0x00] + [(POWER & 0xFF) as bv8, ((POWER >> 8) & 0xFF) as bv8];
      emitted := emitted + [value];
      again := notifying;
    }

    /** `_update_power_msrmt`: arms one 250 ms timer while notifying. */
    method UpdatePowerMeasurement()
      modifies this
      ensures State() == Notify.Update(old(State()))
    {
      if !notifying {
        return;
      }
      pending := pending + 1;
    }

    method StartNotify()
      modifies this
      ensures State() == Notify.Start(old(State()))
    {
      if notifying {
        return;
      }
      notifying := true;
      UpdatePowerMeasurement();
    }

    method StopNotify()
      modifies this
      ensures State() == Notify.Stop(old(State()))
    {
      if !notifying {
        return;
      }
      notifying := false;
      UpdatePowerMeasurement();
    }

    /** The main loop fires one armed timer: the callback runs, and the
        timer is re-armed iff it returned true. */
    method TimerFires()
      requires pending > 0
      modifies this
      ensures State() == Notify.Fire(old(State()), MeasurementPayload(POWER))
    {
      var again := PowerMeasurementCb();
      if !again {
        pending := pending - 1;
      }
    }
  }

  /** Cycling Power Feature: a 32-bit field with every feature bit clear. */
  function FeatureReadValue(options: map<string, Value>): (r: seq<Byte>)
    ensures |r| == 4 && forall i :: 0 <= i < 4 ==> r[i] == 0
  {
    [0x00, 0x00, 0x00, 0x00]
  }

  /** Sensor Location: one octet, Rear Wheel. */
  function SensorLocationReadValue(options: map<string, Value>): (r: seq<Byte>)
    ensures r == [REAR_WHEEL]
  {
    [12]
  }
}
