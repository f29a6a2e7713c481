/**
 * The registry of counting systems (src/counting/system_manager.py): a dictionary
 * from name to system. `order` is the dictionary's key order (insertion order,
 * kept when an existing name is replaced).
 */
module SystemManager {
  import opened Wrappers
  import opened CountingSystems

  class CountingSystemManager {
    var systems: map<string, CountingSystem>
    var order: seq<string>

    ghost predicate Valid()
      reads this
    {
      Registry(systems, order) && "Hi-Lo" in systems
    }

    /** A new manager holds Hi-Lo, KO and Hi-Opt I, registered (and so listed) in that order. */
    constructor ()
      ensures Valid()
      ensures order == ["Hi-Lo", "KO", "Hi-Opt I"]
      ensures systems == map["Hi-Lo" := HiLo, "KO" := KO, "Hi-Opt I" := HiOptI]
    {
      systems := map[Name(HiLo) := HiLo, Name(KO) := KO, Name(HiOptI) := HiOptI];
      order := [Name(HiLo), Name(KO), Name(HiOptI)];
      BuiltInRegistry();
    }

    /** `register_system`: stores the system under its name, replacing any system of that name. */
    method RegisterSystem(sys: CountingSystem)
      requires Valid()
      modifies this
      ensures Valid()
      ensures systems == old(systems)[Name(sys) := sys]
      ensures order == if Name(sys) in old(systems) then old(order) else old(order) + [Name(sys)]
    {
      var key := Name(sys);
      RegistryStep(systems, order, sys);
      if key !in systems {
        order := order + [key];
      }
      systems := systems[key := sys];
    }

    /** `get_system`: the registered system, or None for an unknown name. */
    function GetSystem(name: string): (r: Option<CountingSystem>)
      reads this
      requires Valid()
      ensures r.Some? <==> name in order
      ensures r.Some? ==> Name(r.value) == name && r.value == systems[name]
    {
      if name in systems then Some(systems[name]) else None
    }

    /** `list_systems`: the names in registration order, each once. */
    function ListSystems(): (names: seq<string>)
      reads this
      requires Valid()
      ensures forall name :: name in names <==> GetSystem(name).Some?
      ensures forall i, j :: 0 <= i < j < |names| ==> names[i] != names[j]
    {
      order
    }

    /** `get_default_system`: the entry named "Hi-Lo". */
    function GetDefaultSystem(): (sys: CountingSystem)
      reads this
      requires Valid()
      ensures Name(sys) == "Hi-Lo" && GetSystem("Hi-Lo") == Some(sys)
    {
      systems["Hi-Lo"]
    }

    /** `is_system_available`. */
    predicate IsSystemAvailable(name: string)
      reads this
      requires Valid()
      ensures IsSystemAvailable(name) <==> GetSystem(name).Some?
    {
      name in systems
    }

    /** `__len__`: the number of distinct registered names. */
    function Length(): (n: nat)
      reads this
      requires Valid()
      ensures n == |ListSystems()|
    {
      DistinctKeys(systems, order);
      |systems|
    }
  }

  /** The registry's invariant: the key order lists every name once, and each system is filed under its own name. */
  ghost predicate Registry(systems: map<string, CountingSystem>, order: seq<string>) {
    (forall i, j :: 0 <= i < j < |order| ==> order[i] != order[j])
    && (forall name :: name in systems <==> name in order)
    && (forall name :: name in systems ==> Name(systems[name]) == name)
  }

  /** The three built-in systems, registered in order, satisfy the invariant. */
  lemma BuiltInRegistry()
    ensures Registry(map["Hi-Lo" := HiLo, "KO" := KO, "Hi-Opt I" := HiOptI], ["Hi-Lo", "KO", "Hi-Opt I"])
  {
  }

  /** Filing a system under its name keeps the registry's invariant. */
  lemma RegistryStep(systems: map<string, CountingSystem>, order: seq<string>, sys: CountingSystem)
    requires Registry(systems, order)
    ensures Registry(systems[Name(sys) := sys], if Name(sys) in systems then order else order + [Name(sys)])
  {
    var order' := if Name(sys) in systems then order else order + [Name(sys)];
    assert forall i :: 0 <= i < |order| ==> order'[i] == order[i];
  }

  /** A map whose keys are exactly the entries of a list without repetitions has as many keys as the list has entries. */
  lemma {:induction false} DistinctKeys<V>(m: map<string, V>, keys: seq<string>)
    requires forall i, j :: 0 <= i < j < |keys| ==> keys[i] != keys[j]
    requires forall k :: k in m <==> k in keys
    ensures |m| == |keys|
    decreases |keys|
  {
    if keys != [] {
      var last := keys[|keys| - 1];
      DropLastKey(m, keys);
      DistinctKeys(m - {last}, keys[..|keys| - 1]);
      assert m.Keys == (m - {last}).Keys + {last};
    } else {
      assert m.Keys == {};
    }
  }

  /** Removing the last entry of the list and its key from the map keeps the two in step. */
  lemma DropLastKey<V>(m: map<string, V>, keys: seq<string>)
    requires keys != []
    requires forall i, j :: 0 <= i < j < |keys| ==> keys[i] != keys[j]
    requires forall k :: k in m <==> k in keys
    ensures var rest := keys[..|keys| - 1];
      (forall i, j :: 0 <= i < j < |rest| ==> rest[i] != rest[j])
      && (forall k :: k in m - {keys[|keys| - 1]} <==> k in rest)
      && keys[|keys| - 1] in m
  {
    var last := keys[|keys| - 1];
    var rest := keys[..|keys| - 1];
    assert keys == rest + [last];
    forall k ensures k in m - {last} <==> k in rest {
      if k in rest {
        var i :| 0 <= i < |rest| && rest[i] == k;
        assert keys[i] == k;
      }
    }
  }
}
