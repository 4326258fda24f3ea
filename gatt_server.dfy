/** The GATT application and the peripheral's entry point (Gattserver.py). */
module GattServer {
  import opened DBus
  import opened GattVars
  import opened GattService
  import opened ObjectTree
  import Adapter
  import opened EventLoop
  import opened DeviceInformation
  import opened CyclingPower
  import opened CustomService

  /** Snapshots of the given services, in order. */
  function Snapshot(ss: seq<Service>): (ns: seq<ServiceNode>)
    reads ss
    ensures |ns| == |ss|
    ensures forall i :: 0 <= i < |ss| ==> ns[i] == ss[i].Node()
  {
    if ss == [] then [] else Snapshot(ss[..|ss| - 1]) + [ss[|ss| - 1].Node()]
  }

  class Application {
    const path: ObjectPath
    var services: seq<Service>

    /** `Application(bus)`: path "/", then Device Information (index 0),
        Cycling Power (1) and the custom service (2), in that order. */
    constructor (base: CharacteristicBase)
      ensures path == "/"
      ensures |services| == 3
      ensures fresh(services[0]) && fresh(services[1]) && fresh(services[2])
      ensures IsDeviceInformationService(services[0], 0, base)
      ensures IsCyclingPowerService(services[1], 1, base)
      ensures IsCustomGattService(services[2], 2, base)
    {
      path := "/";
      services := [];
      new;
      var deviceInformation := NewDeviceInformationService(0, base);
      AddService(deviceInformation);
      var cyclingPower := NewCyclingPowerService(1, base);
      AddService(cyclingPower);
      var custom := NewCustomGattService(2, base);
      AddService(custom);
    }

    /** `add_service`: appends at the end. */
    method AddService(service: Service)
      modifies this
      ensures services == old(services) + [service]
    {
      services := services + [service];
    }

    /** `GetManagedObjects`: walks service -> characteristic -> descriptor and
        records each node's path and properties. */
    method GetManagedObjects() returns (response: map<ObjectPath, Properties>)
      ensures response == ManagedObjects(Snapshot(services))
    {
      ghost var nodes := Snapshot(services);
      ghost var done: seq<Entry> := [];   // the entries recorded so far, in order
      response := map[];
      var i := 0;
      while i < |services|
        invariant 0 <= i <= |services|
        invariant response == Collect(done)
        invariant done == TreeEntries(nodes[..i])
      {
        response := RecordService(response, services[i], done);
        TreeEntriesStep(nodes, i);
        done := done + ServiceBlock(nodes[i]);
        i := i + 1;
      }
      assert nodes[..i] == nodes;
    }
  }

  /** One service of the walk: the service itself, then its characteristics. */
  method RecordService(response: map<ObjectPath, Properties>, service: Service, ghost done: seq<Entry>)
    returns (r: map<ObjectPath, Properties>)
    requires response == Collect(done)
    ensures r == Collect(done + ServiceBlock(service.Node()))
  {
    ghost var entry := ServiceEntry(service.Node());
    CollectSnoc(done, entry);
    r := response[service.path := service.GetProperties()];
    r := RecordCharacteristics(r, service.characteristics, done + [entry]);
    ServiceBlockAppend(done, service.Node());
  }

  /** The characteristic level of the walk: each characteristic, then its
      descriptors. */
  method RecordCharacteristics(response: map<ObjectPath, Properties>, chrcs: seq<Characteristic>,
                               ghost done: seq<Entry>)
    returns (r: map<ObjectPath, Properties>)
    requires response == Collect(done)
    ensures r == Collect(done + CharacteristicEntries(chrcs))
  {
    r := response;
    var j := 0;
    assert done + CharacteristicEntries(chrcs[..0]) == done;
    while j < |chrcs|
      invariant 0 <= j <= |chrcs|
      invariant r == Collect(done + CharacteristicEntries(chrcs[..j]))
    {
      ghost var sofar := done + CharacteristicEntries(chrcs[..j]);
      var chrc := chrcs[j];
      CollectSnoc(sofar, CharacteristicEntry(chrc));
      r := r[chrc.path := chrc.properties];
      r := RecordDescriptors(r, chrc.descriptors, sofar + [CharacteristicEntry(chrc)]);
      CharacteristicEntriesAppend(done, chrcs, j);
      j := j + 1;
    }
    assert chrcs[..j] == chrcs;
  }

  /** The descriptor level of the walk. */
  method RecordDescriptors(response: map<ObjectPath, Properties>, descs: seq<Descriptor>,
                           ghost done: seq<Entry>)
    returns (r: map<ObjectPath, Properties>)
    requires response == Collect(done)
    ensures r == Collect(done + DescriptorEntries(descs))
  {
    r := response;
    var k := 0;
    assert done + DescriptorEntries(descs[..0]) == done;
    while k < |descs|
      invariant 0 <= k <= |descs|
      invariant r == Collect(done + DescriptorEntries(descs[..k]))
    {
      var desc := descs[k];
      CollectSnoc(done + DescriptorEntries(descs[..k]), DescriptorEntry(desc));
      DescriptorEntriesAppend(done, descs, k);
      r := r[desc.path := desc.properties];
      k := k + 1;
    }
    assert descs[..k] == descs;
  }

  /** `find_adapter`: the first managed object implementing the GATT manager
      interface, or None. */
  method FindAdapter(objects: seq<Adapter.ManagedObject>) returns (r: Option<ObjectPath>)
    ensures r == Adapter.FindAdapter(objects, GATT_MANAGER_IFACE)
  {
    var i := 0;
    while i < |objects|
      invariant 0 <= i <= |objects|
      invariant forall j :: 0 <= j < i ==> GATT_MANAGER_IFACE !in objects[j].interfaces
    {
      if GATT_MANAGER_IFACE in objects[i].interfaces {
        return Some(objects[i].path);
      }
      i := i + 1;
    }
    return None;
  }

  /** `register_app_cb`: only logs; the main loop keeps running. */
  method RegisterAppCb(loop: MainLoop)
    ensures unchanged(loop)
  {
  }

  /** `register_app_error_cb`: stops the main loop. */
  method RegisterAppErrorCb(loop: MainLoop, error: string)
    modifies loop
    ensures !loop.running
  {
    loop.Quit();
  }

  /** A `RegisterApplication` request: the adapter asked and the object path offered. */
  datatype Registration = Registration(adapter: ObjectPath, application: ObjectPath)

  /** `run_gatt_peripheral`, with the host's managed objects and its reply to
      the registration as inputs.  Without an adapter it returns before
      building or registering anything; otherwise it registers the
      application's path "/" with that adapter, runs the loop, and the loop
      stops iff the registration fails. */
  method RunGattPeripheral(objects: seq<Adapter.ManagedObject>, base: CharacteristicBase, reply: Reply)
    returns (app: Application?, loop: MainLoop?, requests: seq<Registration>)
    ensures Adapter.Missing(Adapter.FindAdapter(objects, GATT_MANAGER_IFACE)) ==>
              app == null && loop == null && requests == []
    ensures !Adapter.Missing(Adapter.FindAdapter(objects, GATT_MANAGER_IFACE)) ==>
              && app != null && fresh(app) && app.path == "/" && |app.services| == 3
              && loop != null && fresh(loop)
              && requests == [Registration(Adapter.FindAdapter(objects, GATT_MANAGER_IFACE).value, "/")]
              && (loop.running <==> reply.Registered?)
  {
    var adapter := FindAdapter(objects);
    if Adapter.Missing(adapter) {
      return null, null, [];
    }
    app := new Application(base);
    loop := new MainLoop();
    requests := [Registration(adapter.value, app.path)];
    loop.Run();
    match reply
    case Registered =>
      RegisterAppCb(loop);
    case Failed(detail) =>
      RegisterAppErrorCb(loop, detail);
  }

  /** The application's three services sit at three distinct paths. */
  lemma ApplicationServicePathsDistinct()
    ensures ServicePath(0) != ServicePath(1) && ServicePath(1) != ServicePath(2) && ServicePath(0) != ServicePath(2)
  {
    ServicePathInjective(0, 1);
    ServicePathInjective(1, 2);
    ServicePathInjective(0, 2);
  }
}
