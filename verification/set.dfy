/** A mutable membership set kept as a map whose values are all `true`
    (container/set/set.go). The pool keeps its checked-out handles in one. */
module Sets {

  class Set<T(==)> {
    var data: map<T, bool>

    /** The members: the keys of the map. */
    ghost function Elements(): set<T>
      reads this
    {
      data.Keys
    }

    /** `New`: an empty set. */
    constructor ()
      ensures Elements() == {}
      ensures Len() == 0
    {
      data := map[];
    }

    /** `Add`: `e` becomes a member; nothing else changes, and adding a
        member already present leaves the size as it was. */
    method Add(e: T)
      modifies this
      ensures Elements() == old(Elements()) + {e}
      ensures Contains(e)
      ensures forall x :: x != e ==> (Contains(x) <==> x in old(Elements()))
      ensures Len() == if old(Contains(e)) then old(Len()) else old(Len()) + 1
    {
      data := data[e := true];
    }

    /** `Contains`: membership. */
    function Contains(e: T): (present: bool)
      reads this
      ensures present <==> e in Elements()
    {
      e in data
    }

    /** `Len`: the number of distinct members. */
    function Len(): (n: int)
      reads this
      ensures n == |Elements()|
    {
      |data|
    }

    /** `Remove`: `e` is no longer a member; removing an absent element
        changes nothing. */
    method Remove(e: T)
      modifies this
      ensures Elements() == old(Elements()) - {e}
      ensures !Contains(e)
      ensures forall x :: x != e ==> (Contains(x) <==> x in old(Elements()))
      ensures !old(Contains(e)) ==> data == old(data)
      ensures Len() == if old(Contains(e)) then old(Len()) - 1 else old(Len())
    {
      data := data - {e};
    }
  }
}
