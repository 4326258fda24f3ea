/** The bulk enumeration of the GATT object tree: every node in the order
    `GetManagedObjects` visits it (service, then each characteristic followed
    by its descriptors), and the path -> properties dictionary built by
    assigning those entries one after another. */
module ObjectTree {
  import opened DBus
  import opened GattService

  datatype Entry = Entry(path: ObjectPath, properties: Properties)

  function DescriptorEntry(d: Descriptor): Entry { Entry(d.path, d.properties) }
  function CharacteristicEntry(c: Characteristic): Entry { Entry(c.path, c.properties) }
  function ServiceEntry(s: ServiceNode): Entry { Entry(s.path, s.properties) }

  function DescriptorEntries(ds: seq<Descriptor>): (es: seq<Entry>)
    ensures |es| == |ds|
    ensures forall k :: 0 <= k < |ds| ==> es[k] == DescriptorEntry(ds[k])
  {
    if ds == [] then [] else DescriptorEntries(ds[..|ds| - 1]) + [DescriptorEntry(ds[|ds| - 1])]
  }

  /** A characteristic's entry followed by those of its descriptors. */
  function CharacteristicBlock(c: Characteristic): seq<Entry>
  {
    [CharacteristicEntry(c)] + DescriptorEntries(c.descriptors)
  }

  function CharacteristicEntries(cs: seq<Characteristic>): seq<Entry>
  {
    if cs == [] then [] else CharacteristicEntries(cs[..|cs| - 1]) + CharacteristicBlock(cs[|cs| - 1])
  }

  /** A service's entry followed by the blocks of its characteristics. */
  function ServiceBlock(s: ServiceNode): seq<Entry>
  {
    [ServiceEntry(s)] + CharacteristicEntries(s.characteristics)
  }

  /** Every node of the tree, in visiting order. */
  function TreeEntries(ss: seq<ServiceNode>): seq<Entry>
  {
    if ss == [] then [] else TreeEntries(ss[..|ss| - 1]) + ServiceBlock(ss[|ss| - 1])
  }

  /** The dictionary obtained by assigning `response[e.path] = e.properties`
      for each entry in turn; a later entry overwrites an earlier one. */
  function Collect(es: seq<Entry>): map<ObjectPath, Properties>
  {
    if es == [] then map[]
    else Collect(es[..|es| - 1])[es[|es| - 1].path := es[|es| - 1].properties]
  }

  /** The keys are exactly the paths of the entries. */
  lemma {:induction false} CollectKeys(es: seq<Entry>)
    ensures Collect(es).Keys == set e | e in es :: e.path
  {
    if es != [] {
      CollectKeys(es[..|es| - 1]);
      assert es == es[..|es| - 1] + [es[|es| - 1]];
    }
  }

  lemma CollectSnoc(es: seq<Entry>, e: Entry)
    ensures Collect(es + [e]) == Collect(es)[e.path := e.properties]
  {
    assert (es + [e])[..|es|] == es;
  }

  lemma TreeEntriesStep(ss: seq<ServiceNode>, i: nat)
    requires i < |ss|
    ensures TreeEntries(ss[..i + 1]) == TreeEntries(ss[..i]) + ServiceBlock(ss[i])
  {
    assert ss[..i + 1][..i] == ss[..i];
  }

  lemma CharacteristicEntriesStep(cs: seq<Characteristic>, j: nat)
    requires j < |cs|
    ensures CharacteristicEntries(cs[..j + 1]) == CharacteristicEntries(cs[..j]) + CharacteristicBlock(cs[j])
  {
    assert cs[..j + 1][..j] == cs[..j];
  }

  lemma DescriptorEntriesStep(ds: seq<Descriptor>, k: nat)
    requires k < |ds|
    ensures DescriptorEntries(ds[..k + 1]) == DescriptorEntries(ds[..k]) + [DescriptorEntry(ds[k])]
  {
    assert ds[..k + 1][..k] == ds[..k];
  }

  /** The entries recorded after one more characteristic and its descriptors. */
  lemma CharacteristicEntriesAppend(done: seq<Entry>, cs: seq<Characteristic>, j: nat)
    requires j < |cs|
    ensures done + CharacteristicEntries(cs[..j]) + [CharacteristicEntry(cs[j])] + DescriptorEntries(cs[j].descriptors)
         == done + CharacteristicEntries(cs[..j + 1])
  {
    CharacteristicEntriesStep(cs, j);
  }

  /** The entries recorded after one more descriptor. */
  lemma DescriptorEntriesAppend(done: seq<Entry>, ds: seq<Descriptor>, k: nat)
    requires k < |ds|
    ensures done + DescriptorEntries(ds[..k]) + [DescriptorEntry(ds[k])] == done + DescriptorEntries(ds[..k + 1])
  {
    DescriptorEntriesStep(ds, k);
  }

  /** The entries recorded after a service's entry and its characteristics. */
  lemma ServiceBlockAppend(done: seq<Entry>, s: ServiceNode)
    ensures done + [ServiceEntry(s)] + CharacteristicEntries(s.characteristics) == done + ServiceBlock(s)
  {
  }

  /** An entry that no later entry overwrites keeps its properties. */
  lemma {:induction false} CollectLastWins(es: seq<Entry>, i: nat)
    requires i < |es|
    requires forall j :: i < j < |es| ==> es[j].path != es[i].path
    ensures es[i].path in Collect(es) && Collect(es)[es[i].path] == es[i].properties
  {
    CollectKeys(es);
    if i < |es| - 1 {
      CollectLastWins(es[..|es| - 1], i);
    }
  }

  predicate DistinctPaths(es: seq<Entry>) {
    forall i, j :: 0 <= i < j < |es| ==> es[i].path != es[j].path
  }

  /** With distinct paths, every entry is a key of its own and the
      dictionary has exactly one key per entry. */
  lemma {:induction false} CollectDistinct(es: seq<Entry>)
    requires DistinctPaths(es)
    ensures |Collect(es)| == |es|
    ensures forall e :: e in es ==> e.path in Collect(es) && Collect(es)[e.path] == e.properties
  {
    if es != [] {
      var p := es[..|es| - 1];
      var last := es[|es| - 1];
      CollectDistinct(p);
      CollectKeys(p);
      CollectKeys(es);
      assert last.path !in Collect(p) by {
        forall e | e in p ensures e.path != last.path {
          var k :| 0 <= k < |p| && p[k] == e;
          assert es[k] == e;
        }
      }
      forall e | e in es ensures e.path in Collect(es) && Collect(es)[e.path] == e.properties {
        var k :| 0 <= k < |es| && es[k] == e;
        CollectLastWins(es, k);
      }
    }
  }

  // ---- sizes ----

  function DescriptorCount(cs: seq<Characteristic>): nat
  {
    if cs == [] then 0 else DescriptorCount(cs[..|cs| - 1]) + |cs[|cs| - 1].descriptors|
  }

  /** Number of characteristics (sum of C_i) in the tree. */
  function TreeCharacteristicCount(ss: seq<ServiceNode>): nat
  {
    if ss == [] then 0 else TreeCharacteristicCount(ss[..|ss| - 1]) + |ss[|ss| - 1].characteristics|
  }

  /** Number of descriptors (sum of D_ij) in the tree. */
  function TreeDescriptorCount(ss: seq<ServiceNode>): nat
  {
    if ss == [] then 0 else TreeDescriptorCount(ss[..|ss| - 1]) + DescriptorCount(ss[|ss| - 1].characteristics)
  }

  lemma {:induction false} CharacteristicEntriesLength(cs: seq<Characteristic>)
    ensures |CharacteristicEntries(cs)| == |cs| + DescriptorCount(cs)
  {
    if cs != [] {
      CharacteristicEntriesLength(cs[..|cs| - 1]);
    }
  }

  /** The walk visits N + sum C_i + sum D_ij nodes. */
  lemma {:induction false} TreeEntriesLength(ss: seq<ServiceNode>)
    ensures |TreeEntries(ss)| == |ss| + TreeCharacteristicCount(ss) + TreeDescriptorCount(ss)
  {
    if ss != [] {
      TreeEntriesLength(ss[..|ss| - 1]);
      CharacteristicEntriesLength(ss[|ss| - 1].characteristics);
    }
  }

  // ---- membership: every node is visited, and nothing else is ----

  lemma {:induction false} CharacteristicEntriesMembers(cs: seq<Characteristic>, e: Entry)
    ensures e in CharacteristicEntries(cs) <==>
            exists j :: 0 <= j < |cs| && e in CharacteristicBlock(cs[j])
  {
    if cs != [] {
      var p := cs[..|cs| - 1];
      var last := cs[|cs| - 1];
      CharacteristicEntriesMembers(p, e);
      assert CharacteristicEntries(cs) == CharacteristicEntries(p) + CharacteristicBlock(last);
      if e in CharacteristicEntries(p) {
        var j :| 0 <= j < |p| && e in CharacteristicBlock(p[j]);
        assert cs[j] == p[j];
      } else if e in CharacteristicBlock(last) {
        assert cs[|cs| - 1] == last;
      }
      if exists j :: 0 <= j < |cs| && e in CharacteristicBlock(cs[j]) {
        var j :| 0 <= j < |cs| && e in CharacteristicBlock(cs[j]);
        if j < |p| {
          assert p[j] == cs[j];
        }
      }
    }
  }

  lemma {:induction false} TreeEntriesMembers(ss: seq<ServiceNode>, e: Entry)
    ensures e in TreeEntries(ss) <==> exists i :: 0 <= i < |ss| && e in ServiceBlock(ss[i])
  {
    if ss != [] {
      var p := ss[..|ss| - 1];
      TreeEntriesMembers(p, e);
      if e in TreeEntries(ss) && e !in ServiceBlock(ss[|ss| - 1]) {
        var i :| 0 <= i < |p| && e in ServiceBlock(p[i]);
        assert ss[i] == p[i];
      }
      if exists i :: 0 <= i < |ss| && e in ServiceBlock(ss[i]) {
        var i :| 0 <= i < |ss| && e in ServiceBlock(ss[i]);
        if i < |p| {
          assert p[i] == ss[i];
        }
      }
    }
  }

  /** An entry belongs to the tree: it is a service's, a characteristic's
      or a descriptor's. */
  ghost predicate InTree(ss: seq<ServiceNode>, e: Entry) {
    || (exists i :: 0 <= i < |ss| && e == ServiceEntry(ss[i]))
    || (exists i, j :: 0 <= i < |ss| && 0 <= j < |ss[i].characteristics| &&
          e == CharacteristicEntry(ss[i].characteristics[j]))
    || (exists i, j, k :: 0 <= i < |ss| && 0 <= j < |ss[i].characteristics| &&
          0 <= k < |ss[i].characteristics[j].descriptors| &&
          e == DescriptorEntry(ss[i].characteristics[j].descriptors[k]))
  }

  lemma BlockMembers(s: ServiceNode, e: Entry)
    ensures e in ServiceBlock(s) <==>
            || e == ServiceEntry(s)
            || (exists j :: 0 <= j < |s.characteristics| && e == CharacteristicEntry(s.characteristics[j]))
            || (exists j, k :: 0 <= j < |s.characteristics| && 0 <= k < |s.characteristics[j].descriptors| &&
                  e == DescriptorEntry(s.characteristics[j].descriptors[k]))
  {
    var cs := s.characteristics;
    CharacteristicEntriesMembers(cs, e);
    if e in CharacteristicEntries(cs) {
      var j :| 0 <= j < |cs| && e in CharacteristicBlock(cs[j]);
      if e != CharacteristicEntry(cs[j]) {
        var es := DescriptorEntries(cs[j].descriptors);
        var k :| 0 <= k < |es| && es[k] == e;
      }
    }
    if exists j, k :: 0 <= j < |cs| && 0 <= k < |cs[j].descriptors| &&
                      e == DescriptorEntry(cs[j].descriptors[k]) {
      var j, k :| 0 <= j < |cs| && 0 <= k < |cs[j].descriptors| && e == DescriptorEntry(cs[j].descriptors[k]);
      assert DescriptorEntries(cs[j].descriptors)[k] == e;
      assert e in CharacteristicBlock(cs[j]);
    }
    if exists j :: 0 <= j < |cs| && e == CharacteristicEntry(cs[j]) {
      var j :| 0 <= j < |cs| && e == CharacteristicEntry(cs[j]);
      assert e in CharacteristicBlock(cs[j]);
    }
  }

  /** The walk lists exactly the nodes of the tree. */
  lemma TreeEntriesExactlyTree(ss: seq<ServiceNode>, e: Entry)
    ensures e in TreeEntries(ss) <==> InTree(ss, e)
  {
    TreeEntriesMembers(ss, e);
    if e in TreeEntries(ss) {
      var i :| 0 <= i < |ss| && e in ServiceBlock(ss[i]);
      BlockMembers(ss[i], e);
    }
    if InTree(ss, e) {
      if exists i :: 0 <= i < |ss| && e == ServiceEntry(ss[i]) {
        var i :| 0 <= i < |ss| && e == ServiceEntry(ss[i]);
        BlockMembers(ss[i], e);
      } else if exists i, j :: 0 <= i < |ss| && 0 <= j < |ss[i].characteristics| &&
                               e == CharacteristicEntry(ss[i].characteristics[j]) {
        var i, j :| 0 <= i < |ss| && 0 <= j < |ss[i].characteristics| &&
                    e == CharacteristicEntry(ss[i].characteristics[j]);
        BlockMembers(ss[i], e);
      } else {
        var i, j, k :| 0 <= i < |ss| && 0 <= j < |ss[i].characteristics| &&
                       0 <= k < |ss[i].characteristics[j].descriptors| &&
                       e == DescriptorEntry(ss[i].characteristics[j].descriptors[k]);
        BlockMembers(ss[i], e);
      }
    }
  }

  /** The managed-objects dictionary of a tree. */
  function ManagedObjects(ss: seq<ServiceNode>): map<ObjectPath, Properties>
  {
    Collect(TreeEntries(ss))
  }

  /** No key outside the tree: the keys are exactly the paths of tree nodes. */
  lemma ManagedObjectsKeys(ss: seq<ServiceNode>, p: ObjectPath)
    ensures p in ManagedObjects(ss) <==> exists e :: InTree(ss, e) && e.path == p
  {
    CollectKeys(TreeEntries(ss));
    if p in ManagedObjects(ss) {
      var e :| e in TreeEntries(ss) && e.path == p;
      TreeEntriesExactlyTree(ss, e);
    }
    if exists e :: InTree(ss, e) && e.path == p {
      var e :| InTree(ss, e) && e.path == p;
      TreeEntriesExactlyTree(ss, e);
    }
  }

  /** When all node paths are distinct: one entry per node,
      N + sum C_i + sum D_ij in all. */
  lemma ManagedObjectsCount(ss: seq<ServiceNode>)
    requires DistinctPaths(TreeEntries(ss))
    ensures |ManagedObjects(ss)| == |ss| + TreeCharacteristicCount(ss) + TreeDescriptorCount(ss)
  {
    CollectDistinct(TreeEntries(ss));
    TreeEntriesLength(ss);
  }

  /** When all node paths are distinct, each node of the tree has an entry
      holding that node's properties. */
  lemma ManagedObjectsComplete(ss: seq<ServiceNode>, e: Entry)
    requires DistinctPaths(TreeEntries(ss))
    requires InTree(ss, e)
    ensures e.path in ManagedObjects(ss) && ManagedObjects(ss)[e.path] == e.properties
  {
    TreeEntriesExactlyTree(ss, e);
    CollectKeys(TreeEntries(ss));
    CollectDistinct(TreeEntries(ss));
  }
}
