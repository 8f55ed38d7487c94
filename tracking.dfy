/** The live-tracking listener both the receiver's and the sender's modal keep in a ref
    (`modalUnsubscribeRef`): a handle is an id, and `live` holds the listeners that have
    been installed and not yet cancelled. */
module Tracking {
  import opened Wrappers

  class Subscription {
    /** `modalUnsubscribeRef.current`. */
    var handle: Option<nat>
    /** The listeners still delivering snapshots. */
    var live: set<nat>
    /** The next id `onSnapshot` hands out. */
    var next: nat

    /** Only the listener in the ref is live, so at most one is. */
    ghost predicate Valid()
      reads this
      ensures Valid() ==> |live| <= 1
    {
      && live == (if handle.Some? then {handle.value} else {})
      && forall h :: h in live ==> h < next
    }

    constructor ()
      ensures Valid() && handle.None? && live == {}
    {
      handle := None;
      live := {};
      next := 0;
    }

    /** Cancel the listener in the ref, if any, then install a new one there. */
    method Replace() returns (h: nat)
      requires Valid()
      modifies this
      ensures Valid()
      ensures handle == Some(h) && live == {h}
      ensures h !in old(live) && h == old(next)
    {
      if handle.Some? {
        live := live - {handle.value};
      }
      h := next;
      next := next + 1;
      handle := Some(h);
      live := live + {h};
    }

    /** Cancel the listener in the ref, if any, and clear the ref. */
    method Cancel()
      requires Valid()
      modifies this
      ensures Valid()
      ensures handle.None? && live == {} && next == old(next)
    {
      if handle.Some? {
        live := live - {handle.value};
        handle := None;
      }
    }
  }
}
