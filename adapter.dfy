/** Locating the adapter among the host stack's managed objects. */
module Adapter {
  import opened DBus

  /** One managed object: its path and the names of the interfaces it implements. */
  datatype ManagedObject = ManagedObject(path: ObjectPath, interfaces: set<string>)

  /** The first object, in iteration order, that implements `iface`;
      None when no object does. */
  function FindAdapter(objects: seq<ManagedObject>, iface: string): (r: Option<ObjectPath>)
    ensures r.None? <==> forall i :: 0 <= i < |objects| ==> iface !in objects[i].interfaces
    ensures r.Some? ==> exists i :: 0 <= i < |objects| && iface in objects[i].interfaces &&
                          r.value == objects[i].path &&
                          forall j :: 0 <= j < i ==> iface !in objects[j].interfaces
  {
    if objects == [] then None
    else if iface in objects[0].interfaces then Some(objects[0].path)
    else
      var r := FindAdapter(objects[1..], iface);
      assert forall i :: 1 <= i < |objects| ==> objects[i] == objects[1..][i - 1];
      r
  }

  /** `if not adapter`: Python treats both None and an empty path as missing. */
  predicate Missing(found: Option<ObjectPath>) {
    found.None? || found.value == ""
  }
}
