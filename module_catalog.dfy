/** The module catalog: module descriptors in registration order, at most one per name. */
module ModuleCatalogs {
  import opened Wrappers
  import opened Sorting

  datatype ModuleDescriptor = ModuleDescriptor(
    name: string, version: string, capabilities: seq<string>, resources: seq<string>, telemetryKeys: seq<string>,
    description: Option<string>, metadata: Option<map<string, string>>)

  predicate DifferentNames(a: ModuleDescriptor, b: ModuleDescriptor)
  {
    a.name != b.name
  }

  /** No two descriptors share a name (compared ordinally). */
  predicate UniqueNames(descriptors: seq<ModuleDescriptor>)
  {
    Pairwise(descriptors, DifferentNames)
  }

  /** The descriptors RemoveAll keeps: those with another name. */
  function OtherNames(name: string): ModuleDescriptor -> bool
  {
    (d: ModuleDescriptor) => d.name != name
  }

  /** Register: every descriptor with the same name is removed, keeping the others in order,
      and the new one goes last. */
  function Registered(descriptors: seq<ModuleDescriptor>, descriptor: ModuleDescriptor): (r: seq<ModuleDescriptor>)
    ensures |r| > 0 && r[|r| - 1] == descriptor
    ensures r[..|r| - 1] == Filter(descriptors, OtherNames(descriptor.name))
    ensures forall d :: d in r <==> d == descriptor || (d in descriptors && d.name != descriptor.name)
    ensures UniqueNames(descriptors) ==> UniqueNames(r)
  {
    var others := Filter(descriptors, OtherNames(descriptor.name));
    var r := others + [descriptor];
    assert r[..|r| - 1] == others;
    KeepsUniqueNames(descriptors, descriptor);
    r
  }

  lemma KeepsUniqueNames(descriptors: seq<ModuleDescriptor>, descriptor: ModuleDescriptor)
    ensures UniqueNames(descriptors) ==> UniqueNames(Filter(descriptors, OtherNames(descriptor.name)) + [descriptor])
  {
    if UniqueNames(descriptors) {
      FilterPairwise(descriptors, OtherNames(descriptor.name), DifferentNames);
      PairwiseAppend(Filter(descriptors, OtherNames(descriptor.name)), descriptor, DifferentNames);
    }
  }

  /** A descriptor under a new name is simply appended. */
  lemma RegisterNewName(descriptors: seq<ModuleDescriptor>, descriptor: ModuleDescriptor)
    requires forall i | 0 <= i < |descriptors| :: descriptors[i].name != descriptor.name
    ensures Registered(descriptors, descriptor) == descriptors + [descriptor]
  {
    FilterAll(descriptors, OtherNames(descriptor.name));
    var r := Registered(descriptors, descriptor);
    assert r == r[..|r| - 1] + [r[|r| - 1]];
  }

  /** Registering the same descriptor twice is the same as registering it once. */
  lemma RegisterIdempotent(descriptors: seq<ModuleDescriptor>, descriptor: ModuleDescriptor)
    ensures Registered(Registered(descriptors, descriptor), descriptor) == Registered(descriptors, descriptor)
  {
    var once := Registered(descriptors, descriptor);
    var others := once[..|once| - 1];
    assert once == others + [descriptor];
    FilterConcat(others, [descriptor], OtherNames(descriptor.name));
    assert Filter([descriptor], OtherNames(descriptor.name)) == [];
    FilterAll(others, OtherNames(descriptor.name));
    var twice := Registered(once, descriptor);
    assert twice == twice[..|twice| - 1] + [twice[|twice| - 1]];
  }

  class ModuleCatalog {
    var descriptors: seq<ModuleDescriptor>

    ghost predicate Valid()
      reads this
    {
      UniqueNames(descriptors)
    }

    constructor()
      ensures Valid() && descriptors == []
    {
      descriptors := [];
    }

    /** Register: the descriptor replaces any registered under its name and becomes the last. */
    method Register(descriptor: ModuleDescriptor)
      requires Valid()
      modifies this
      ensures Valid() && descriptors == Registered(old(descriptors), descriptor)
    {
      descriptors := Registered(descriptors, descriptor);
    }

    /** List: the descriptors in registration order, names unique. */
    function List(): (r: seq<ModuleDescriptor>)
      reads this
      ensures r == descriptors
      ensures Valid() ==> UniqueNames(r)
    {
      descriptors
    }
  }
}
