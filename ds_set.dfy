/** The generic set of pkg/ds: a Go map from elements to empty structs,
    mutated in place. The map's key set is the field `elems`. */
module DsSet {

  class Set<E(==)> {
    /** The keys of the underlying map. */
    var elems: set<E>

    /** `make(Set[E])`: an empty set. */
    constructor Empty()
      ensures elems == {}
    {
      elems := {};
    }

    /** `NewSet(items...)`: a fresh set holding exactly the given items;
        duplicates collapse. */
    static method NewSet(items: seq<E>) returns (s: Set<E>)
      ensures fresh(s)
      ensures s.elems == set x | x in items
    {
      s := new Set.Empty();
      var i := 0;
      while i < |items|
        invariant 0 <= i <= |items|
        invariant s.elems == set x | x in items[..i]
      {
        s.Add(items[i]);
        assert items[..i + 1] == items[..i] + [items[i]];
        i := i + 1;
      }
      assert items[..|items|] == items;
    }

    /** `Add(v)`: afterwards `v` is a member; no other membership changes. */
    method Add(value: E)
      modifies this
      ensures elems == old(elems) + {value}
      ensures Contains(value)
      ensures old(Contains(value)) ==> elems == old(elems)
      ensures forall x :: x != value ==> (x in elems <==> x in old(elems))
    {
      elems := elems + {value};
    }

    /** `Remove(v)`: afterwards `v` is not a member; no other membership changes. */
    method Remove(value: E)
      modifies this
      ensures elems == old(elems) - {value}
      ensures !Contains(value)
      ensures !old(Contains(value)) ==> elems == old(elems)
      ensures forall x :: x != value ==> (x in elems <==> x in old(elems))
    {
      elems := elems - {value};
    }

    /** `Contains(v)`: a read of the map, changes nothing. */
    predicate Contains(value: E)
      reads this
    {
      value in elems
    }
  }
}
