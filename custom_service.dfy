/** The custom service (gatt_lib_custom_service.py). */
module CustomService {
  import opened DBus
  import opened GattService
  import Notify

  const EXAMPLE_SRV_UUID: string := "712ea4d1-ec01-4654-bc82-1b15c14fbe2d"
  const CUST_GATT_CHRC_UUID: string := "31842d98-c4f6-487b-80c5-715aa5657461"

  /** Primary, with one write+notify characteristic at index 0. */
  ghost predicate IsCustomGattService(s: Service, index: nat, base: CharacteristicBase)
    reads s
  {
    && s.path == ServicePath(index)
    && s.uuid == EXAMPLE_SRV_UUID
    && s.primary
    && s.characteristics == [NewCharacteristic(base, 0, CUST_GATT_CHRC_UUID, ["write", "notify"], s.path)]
  }

  /** `CustomGattService(bus, index)`. */
  method NewCustomGattService(index: nat, base: CharacteristicBase) returns (s: Service)
    ensures fresh(s) && IsCustomGattService(s, index, base)
  {
    s := new Service(index, EXAMPLE_SRV_UUID, true);
    s.AddCharacteristic(NewCharacteristic(base, 0, CUST_GATT_CHRC_UUID, ["write", "notify"], s.path));
  }

  class CustomGattCharacteristic {
    const updateTimeout: nat := 100
    var value: seq<Byte>
    var notifying: bool
    var pending: nat
    var emitted: seq<seq<Byte>>

    function State(): Notify.NotifyState
      reads this
    {
      Notify.NotifyState(notifying, pending, emitted)
    }

    constructor ()
      ensures value == [] && State() == Notify.Idle
    {
      value := [];
      notifying := false;
      pending := 0;
      emitted := [];
    }

    /** `returns_and_replies_cb`: pushes an empty value, returns `notifying`. */
    method ReturnsAndRepliesCb() returns (again: bool)
      modifies this
      ensures emitted == old(emitted) + [[]]
      ensures value == old(value) && notifying == old(notifying) && pending == old(pending)
      ensures again == notifying
    {
      var characteristicValue: seq<Byte> := [];
      emitted := emitted + [characteristicValue];
      again := notifying;
    }

    /** `_update_char`: arms one 100 ms timer while notifying. */
    method UpdateChar()
      modifies this
      ensures State() == Notify.Update(old(State())) && value == old(value)
    {
      if !notifying {
        return;
      }
      pending := pending + 1;
    }

    method StartNotify()
      modifies this
      ensures State() == Notify.Start(old(State())) && value == old(value)
    {
      if notifying {
        return;
      }
      notifying := true;
      UpdateChar();
    }

    method StopNotify()
      modifies this
      ensures State() == Notify.Stop(old(State())) && value == old(value)
    {
      if !notifying {
        return;
      }
      notifying := false;
      UpdateChar();
    }

    /** The main loop fires one armed timer. */
    method TimerFires()
      requires pending > 0
      modifies this
      ensures State() == Notify.Fire(old(State()), []) && value == old(value)
    {
      var again := ReturnsAndRepliesCb();
      if !again {
        pending := pending - 1;
      }
    }

    /** `WriteValue`: the written bytes replace the stored value. */
    method WriteValue(v: seq<Byte>, options: map<string, Value>)
      modifies this
      ensures value == v && State() == old(State())
    {
      value := v;
    }
  }
}
