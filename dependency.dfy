/**
 * The dependable trait: a registry from instances to the trait registered
 * for them (`DependableTrait.implement` / `get`), and `ConcreteDependable`,
 * whose trait is a live view of the roots it accumulates.
 */
module Dependables {
  import opened Wrappers
  import opened Errors

  /**
   * A registered trait: the live view a `ConcreteDependable` installs over its
   * own root list, or a trait whose roots are fixed.
   */
  datatype Trait = LiveRoots(source: ConcreteDependable) | FixedRoots(roots: seq<object>)

  /** `trait.dependencyRoots`: for a live view, the source's list as it is now. */
  function DependencyRoots(t: Trait): seq<object>
    reads if t.LiveRoots? then {t.source} else {}
  {
    match t
    case LiveRoots(source) => source.dependencyRoots
    case FixedRoots(roots) => roots
  }

  /** The traits stored on instances under the dependable symbol. */
  class TraitRegistry {
    var traits: map<object, Trait>

    constructor ()
      ensures traits == map[]
    {
      traits := map[];
    }

    /** `DependableTrait.implement(instance, trait)`: stores `trait`, replacing any earlier one. */
    method Implement(instance: object, t: Trait)
      modifies this
      ensures traits == old(traits)[instance := t]
      ensures Get(instance) == Success(t)
    {
      traits := traits[instance := t];
    }

    /** `DependableTrait.get(instance)`: the stored trait, or the does-not-implement error. */
    function Get(instance: object): (r: Result<Trait, Error>)
      reads this
      ensures r.Success? <==> instance in traits
      ensures r.Success? ==> r.value == traits[instance]
      ensures r.Failure? ==> r.error == DoesNotImplementDependableTrait(instance)
    {
      if instance in traits then Success(traits[instance]) else Failure(DoesNotImplementDependableTrait(instance))
    }
  }

  class ConcreteDependable {
    /** `_dependencyRoots`. */
    var dependencyRoots: seq<object>

    /** Starts with no roots and registers the live view over them as its trait. */
    constructor (registry: TraitRegistry)
      modifies registry
      ensures dependencyRoots == []
      ensures registry.traits == old(registry.traits)[this := LiveRoots(this)]
    {
      dependencyRoots := [];
      new;
      registry.Implement(this, LiveRoots(this));
    }

    /** `add(construct)`: appends to the roots. */
    method Add(construct: object)
      modifies this
      ensures dependencyRoots == old(dependencyRoots) + [construct]
    {
      dependencyRoots := dependencyRoots + [construct];
    }
  }

  /**
   * Whatever roots were added since, the trait registered by the constructor
   * reports exactly the dependable's current roots.
   */
  lemma LiveViewTracksRoots(registry: TraitRegistry, d: ConcreteDependable)
    requires d in registry.traits && registry.traits[d] == LiveRoots(d)
    ensures registry.Get(d).Success? && DependencyRoots(registry.Get(d).value) == d.dependencyRoots
  {
  }

  /**
   * A dependable built on a registry and given two roots: the registry's
   * trait for it lists both, in the order added.
   */
  method LiveViewAfterAdds(registry: TraitRegistry, a: object, b: object) returns (d: ConcreteDependable)
    modifies registry
    ensures registry.Get(d).Success?
    ensures DependencyRoots(registry.Get(d).value) == [a, b]
  {
    d := new ConcreteDependable(registry);
    d.Add(a);
    d.Add(b);
  }
}
