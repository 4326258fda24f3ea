/** The GATT service node (`Service` of gatt_lib_service.py) and the values
    that stand for its characteristics and descriptors in the object tree. */
module GattService {
  import opened DBus
  import opened GattVars
  import Decimal

  const PATH_BASE: string := "/org/bluez/example/service"

  /** A descriptor as it appears in the tree: its path and property snapshot. */
  datatype Descriptor = Descriptor(path: ObjectPath, properties: Properties)

  /** A characteristic as it appears in the tree.  `index`, `uuid`, `flags` and
      `service` are the arguments it was constructed with; `path`, `properties`
      and `descriptors` are what the characteristic base class makes of them. */
  datatype Characteristic = Characteristic(
    index: nat, uuid: string, flags: seq<string>, service: ObjectPath,
    path: ObjectPath, properties: Properties, descriptors: seq<Descriptor>)

  /** What the characteristic base class derives for one characteristic. */
  datatype BaseParts = BaseParts(path: ObjectPath, properties: Properties, descriptors: seq<Descriptor>)

  /** The characteristic base class, as a function of its constructor
      arguments (index, uuid, flags, owning service's path). */
  type CharacteristicBase = (nat, string, seq<string>, ObjectPath) -> BaseParts

  /** `Characteristic.__init__(bus, index, uuid, flags, service)`. */
  function NewCharacteristic(base: CharacteristicBase, index: nat, uuid: string, flags: seq<string>,
                             service: ObjectPath): (c: Characteristic)
  {
    var parts := base(index, uuid, flags, service);
    Characteristic(index, uuid, flags, service, parts.path, parts.properties, parts.descriptors)
  }

  /** The path of service `index`: the base path followed by the decimal index. */
  function ServicePath(index: nat): (p: ObjectPath)
    ensures |p| > |PATH_BASE| && p[..|PATH_BASE|] == PATH_BASE
    ensures Decimal.Canonical(p[|PATH_BASE|..])
    ensures Decimal.DecimalValue(p[|PATH_BASE|..]) == index
  {
    Decimal.ValueOfString(index);
    var p := PATH_BASE + Decimal.DecimalString(index);
    assert p[|PATH_BASE|..] == Decimal.DecimalString(index);
    p
  }

  /** Distinct indices give distinct service paths. */
  lemma ServicePathInjective(i: nat, j: nat)
    ensures ServicePath(i) == ServicePath(j) <==> i == j
  {
    if ServicePath(i) == ServicePath(j) {
      assert ServicePath(i)[|PATH_BASE|..] == ServicePath(j)[|PATH_BASE|..];
    }
  }

  /** The object paths of `cs`, in order. */
  function CharacteristicPaths(cs: seq<Characteristic>): (ps: seq<ObjectPath>)
    ensures |ps| == |cs|
    ensures forall i :: 0 <= i < |cs| ==> ps[i] == cs[i].path
  {
    if cs == [] then [] else CharacteristicPaths(cs[..|cs| - 1]) + [cs[|cs| - 1].path]
  }

  /** The dictionary `get_properties` returns. */
  function ServiceProperties(uuid: string, primary: bool, cs: seq<Characteristic>): Properties
  {
    map[GATT_SERVICE_IFACE :=
      map["UUID" := Str(uuid), "Primary" := Bool(primary), "Characteristics" := Paths(CharacteristicPaths(cs))]]
  }

  /** `get_properties` has one interface, the service interface, holding
      exactly UUID, Primary and the characteristic paths in insertion order. */
  lemma ServicePropertiesShape(uuid: string, primary: bool, cs: seq<Characteristic>)
    ensures var props := ServiceProperties(uuid, primary, cs);
            && props.Keys == {GATT_SERVICE_IFACE}
            && props[GATT_SERVICE_IFACE].Keys == {"UUID", "Primary", "Characteristics"}
            && props[GATT_SERVICE_IFACE]["UUID"] == Str(uuid)
            && props[GATT_SERVICE_IFACE]["Primary"] == Bool(primary)
            && var v := props[GATT_SERVICE_IFACE]["Characteristics"];
               v.Paths? && |v.paths| == |cs| && forall i :: 0 <= i < |cs| ==> v.paths[i] == cs[i].path
  {
  }

  /** An immutable snapshot of a service node. */
  datatype ServiceNode = ServiceNode(path: ObjectPath, properties: Properties, characteristics: seq<Characteristic>)

  class Service {
    const path: ObjectPath
    const uuid: string
    const primary: bool
    var characteristics: seq<Characteristic>

    constructor (index: nat, uuid: string, primary: bool)
      ensures path == ServicePath(index)
      ensures this.uuid == uuid && this.primary == primary
      ensures characteristics == []
    {
      path := ServicePath(index);
      this.uuid := uuid;
      this.primary := primary;
      characteristics := [];
    }

    function GetProperties(): Properties
      reads this
    {
      ServiceProperties(uuid, primary, characteristics)
    }

    function Node(): ServiceNode
      reads this
    {
      ServiceNode(path, GetProperties(), characteristics)
    }

    /** `add_characteristic`: appends at the end. */
    method AddCharacteristic(c: Characteristic)
      modifies this
      ensures characteristics == old(characteristics) + [c]
    {
      characteristics := characteristics + [c];
    }

    /** `get_characteristic_paths`: the paths, collected one by one. */
    method GetCharacteristicPaths() returns (result: seq<ObjectPath>)
      ensures result == CharacteristicPaths(characteristics)
    {
      result := [];
      var i := 0;
      while i < |characteristics|
        invariant 0 <= i <= |characteristics|
        invariant result == CharacteristicPaths(characteristics[..i])
      {
        assert characteristics[..i + 1][..i] == characteristics[..i];
        result := result + [characteristics[i].path];
        i := i + 1;
      }
      assert characteristics[..i] == characteristics;
    }

    /** `GetAll` on the properties interface: only the service interface is
        known; any other name is rejected with InvalidArgs. */
    function GetAll(iface: string): (r: Result<map<string, Value>>)
      reads this
      ensures r.Err? <==> iface != GATT_SERVICE_IFACE
      ensures r.Err? ==> r.error == InvalidArgs
      ensures r.Ok? ==> r.value == GetProperties()[GATT_SERVICE_IFACE]
    {
      if iface != GATT_SERVICE_IFACE then Err(InvalidArgs)
      else Ok(GetProperties()[GATT_SERVICE_IFACE])
    }
  }
}
