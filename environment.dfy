/**
 * Scopes: a mutable local store plus an optional enclosing frame. `Get` walks
 * outward through the chain; `Set` writes only the local store. The chain is
 * finite and acyclic because a frame can only be enclosed around one that
 * already exists; the ghost `depth` and `outers` record that.
 */
module Environments {
  import opened Wrappers

  class Environment<V> {
    var store: map<string, V>
    const outer: Environment?<V>
    /** Every frame strictly outside this one. */
    ghost const outers: set<Environment<V>>
    ghost const depth: nat

    /** Depends on constant fields only, so no `Set` anywhere can break it. */
    ghost predicate Valid()
      decreases depth
    {
      && (outer == null ==> outers == {} && depth == 0)
      && (outer != null ==>
            && outers == {outer} + outer.outers
            && outer.depth < depth
            && outer.Valid())
    }

    /** The frames `Get` may consult, innermost first. */
    ghost function Chain(): set<Environment<V>>
    {
      {this} + outers
    }

    /** What the chain binds: each frame's store overrides the frames outside it. */
    ghost function Bindings(): map<string, V>
      requires Valid()
      reads Chain()
      decreases depth
    {
      (if outer == null then map[] else outer.Bindings()) + store
    }

    constructor New()
      ensures Valid() && store == map[] && outer == null
    {
      store := map[];
      outer := null;
      outers := {};
      depth := 0;
    }

    constructor Enclosed(outer: Environment<V>)
      requires outer.Valid()
      ensures Valid() && store == map[] && this.outer == outer
      ensures Chain() == {this} + outer.Chain()
    {
      store := map[];
      this.outer := outer;
      outers := {outer} + outer.outers;
      depth := outer.depth + 1;
    }

    lemma OutersAreDeeper()
      requires Valid()
      ensures forall f | f in outers :: f.depth < depth && f.Valid()
      ensures this !in outers
      decreases depth
    {
      if outer != null {
        outer.OutersAreDeeper();
      }
    }

    function Get(key: string): (r: Option<V>)
      requires Valid()
      reads Chain()
      ensures key in store ==> r == Some(store[key])
      ensures r.None? <==> forall f | f in Chain() :: key !in f.store
      ensures r.Some? ==> exists f | f in Chain() :: key in f.store && f.store[key] == r.value
      ensures r == (if key in Bindings() then Some(Bindings()[key]) else None)
      decreases depth
    {
      if key in store then Some(store[key])
      else if outer == null then None
      else outer.Get(key)
    }

    method Set(key: string, value: V) returns (r: V)
      requires Valid()
      modifies this
      ensures store == old(store)[key := value] && r == value
    {
      store := store[key := value];
      r := value;
    }

    /**
     * After a `Set` of `key` that left the enclosing frames alone, `Get`
     * gives the new value for `key` and every other key reads as before.
     */
    twostate lemma SetRebinds(key: string, value: V)
      requires Valid() && store == old(store)[key := value]
      requires unchanged(outers)
      ensures Get(key) == Some(value)
      ensures forall k | k != key :: Get(k) == old(Get(k))
    {
    }
  }
}
