/** The LE advertiser's entry point (Gattadvertiser.py): the cycling
    advertisement and the steps of `run_gatt_advertiser`. */
module GattAdvertiser {
  import opened DBus
  import opened GattVars
  import Adapter
  import opened EventLoop

  /** The advertisement object.  Its base class is not part of this model;
      the builder methods below follow BlueZ's example advertisement: a
      service UUID is appended, manufacturer data is stored under its
      company identifier, the local name is replaced. */
  class Advertisement {
    const index: nat
    const adType: string
    var serviceUuids: seq<string>
    var manufacturerData: map<bv16, seq<Byte>>
    var localName: Option<string>
    var includeTxPower: bool

    /** `Advertisement(bus, index, advertising_type)`: nothing advertised yet. */
    constructor (index: nat, adType: string)
      ensures this.index == index && this.adType == adType
      ensures serviceUuids == [] && manufacturerData == map[]
      ensures localName == None && !includeTxPower
    {
      this.index := index;
      this.adType := adType;
      serviceUuids := [];
      manufacturerData := map[];
      localName := None;
      includeTxPower := false;
    }

    /** `add_service_uuid`. */
    method AddServiceUuid(uuid: string)
      modifies this
      ensures serviceUuids == old(serviceUuids) + [uuid]
      ensures manufacturerData == old(manufacturerData) && localName == old(localName)
      ensures includeTxPower == old(includeTxPower)
    {
      serviceUuids := serviceUuids + [uuid];
    }

    /** `add_manufacturer_data`: a later call for the same company replaces the data. */
    method AddManufacturerData(company: bv16, data: seq<Byte>)
      modifies this
      ensures manufacturerData == old(manufacturerData)[company := data]
      ensures serviceUuids == old(serviceUuids) && localName == old(localName)
      ensures includeTxPower == old(includeTxPower)
    {
      manufacturerData := manufacturerData[company := data];
    }

    /** `add_local_name`. */
    method AddLocalName(name: string)
      modifies this
      ensures localName == Some(name)
      ensures serviceUuids == old(serviceUuids) && manufacturerData == old(manufacturerData)
      ensures includeTxPower == old(includeTxPower)
    {
      localName := Some(name);
    }
  }

  /** Bluetooth SIG company identifier 0xFFFF, reserved for testing. */
  const TEST_COMPANY: bv16 := 0xFFFF
  const CYCLING_MANUFACTURER_DATA: seq<Byte> := [0x00, 0x01, 0x02, 0x03, 0x04]

  /** What `CyclingAdvertisements(bus, index)` holds once built. */
  ghost predicate IsCyclingAdvertisement(ad: Advertisement, index: nat)
    reads ad
  {
    && ad.index == index
    && ad.adType == "peripheral"
    && ad.serviceUuids == ["1818"]
    && ad.manufacturerData == map[TEST_COMPANY := CYCLING_MANUFACTURER_DATA]
    && ad.localName == Some("DevName")
    && ad.includeTxPower
  }

  /** `CyclingAdvertisements(bus, index)`. */
  method NewCyclingAdvertisements(index: nat) returns (ad: Advertisement)
    ensures fresh(ad) && IsCyclingAdvertisement(ad, index)
  {
    ad := new Advertisement(index, "peripheral");
    ad.AddServiceUuid("1818");
    ad.AddManufacturerData(TEST_COMPANY, CYCLING_MANUFACTURER_DATA);
    ad.AddLocalName("DevName");
    ad.includeTxPower := true;
  }

  /** `register_ad_cb`: only logs; the main loop keeps running. */
  method RegisterAdCb(loop: MainLoop)
    ensures unchanged(loop)
  {
  }

  /** `register_ad_error_cb`: stops the main loop. */
  method RegisterAdErrorCb(loop: MainLoop, error: string)
    modifies loop
    ensures !loop.running
  {
    loop.Quit();
  }

  /** `find_adapter`: the first managed object implementing the LE
      advertising manager interface, or None. */
  method FindAdapter(objects: seq<Adapter.ManagedObject>) returns (r: Option<ObjectPath>)
    ensures r == Adapter.FindAdapter(objects, LE_ADVERTISING_MANAGER_IFACE)
  {
    var i := 0;
    while i < |objects|
      invariant 0 <= i <= |objects|
      invariant forall j :: 0 <= j < i ==> LE_ADVERTISING_MANAGER_IFACE !in objects[j].interfaces
    {
      if LE_ADVERTISING_MANAGER_IFACE in objects[i].interfaces {
        return Some(objects[i].path);
      }
      i := i + 1;
    }
    return None;
  }

  /** The externally visible steps of `run_gatt_advertiser`, in order. */
  datatype Step =
    | PowerOn(adapter: ObjectPath)                        // Properties.Set(Adapter1, "Powered", true)
    | ReleaseAtExit(advertisement: nat)                   // atexit.register(ad.Release)
    | RegisterAdvertisement(adapter: ObjectPath, advertisement: nat)

  /** `run_gatt_advertiser`, with the host's managed objects and its reply
      to the registration as inputs.  Without an adapter nothing happens;
      otherwise the adapter is powered, advertisement 0 is built, its
      Release hook is registered before it is offered to the adapter, the
      loop runs, and it stops iff the registration fails. */
  method RunGattAdvertiser(objects: seq<Adapter.ManagedObject>, reply: Reply)
    returns (ad: Advertisement?, loop: MainLoop?, steps: seq<Step>)
    ensures Adapter.Missing(Adapter.FindAdapter(objects, LE_ADVERTISING_MANAGER_IFACE)) ==>
              ad == null && loop == null && steps == []
    ensures !Adapter.Missing(Adapter.FindAdapter(objects, LE_ADVERTISING_MANAGER_IFACE)) ==>
              var adapter := Adapter.FindAdapter(objects, LE_ADVERTISING_MANAGER_IFACE).value;
              && ad != null && fresh(ad) && IsCyclingAdvertisement(ad, 0)
              && loop != null && fresh(loop)
              && steps == [PowerOn(adapter), ReleaseAtExit(0), RegisterAdvertisement(adapter, 0)]
              && (loop.running <==> reply.Registered?)
  {
    var adapter := FindAdapter(objects);
    if Adapter.Missing(adapter) {
      return null, null, [];
    }
    steps := [PowerOn(adapter.value)];
    ad := NewCyclingAdvertisements(0);
    steps := steps + [ReleaseAtExit(ad.index)];
    loop := new MainLoop();
    steps := steps + [RegisterAdvertisement(adapter.value, ad.index)];
    loop.Run();
    match reply
    case Registered =>
      RegisterAdCb(loop);
    case Failed(detail) =>
      RegisterAdErrorCb(loop, detail);
  }
}
