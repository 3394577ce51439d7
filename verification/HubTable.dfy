/** The registry's two maps, updated in place under its short-lived mutex; each method is one step of the
    transition system. */
module HubTable {
  import opened HubRegistry

  class Hubs {
    var active: map<RunId, GenId>
    var lifecycle: map<RunId, SlotId>
    var nextSlot: SlotId

    constructor ()
      ensures active == map[] && lifecycle == map[] && nextSlot == 0
    {
      active, lifecycle, nextSlot := map[], map[], 0;
    }

    /** The maps are those of this state. */
    ghost predicate Holds(s: State)
      reads this
    {
      active == s.active && lifecycle == s.slots && nextSlot == s.nextSlot
    }

    /** `lifecycle`'s lookup: retain the entries somebody still holds or waits for, then upgrade or insert.
        `strong` are the slots with a strong reference. */
    method LookupSlot(r: RunId, strong: set<SlotId>, ghost s: State) returns (slot: SlotId)
      requires Holds(s) && forall x :: x in strong <==> Alive(s.ops, x)
      modifies this`lifecycle, this`nextSlot
      ensures Holds(Lookup(s, r).0) && slot == Lookup(s, r).1
    {
      var todo := lifecycle.Keys;
      while todo != {}
        invariant todo <= s.slots.Keys
        invariant lifecycle == map q | q in s.slots && (q in todo || Alive(s.ops, s.slots[q])) :: s.slots[q]
        modifies this`lifecycle
      {
        var q :| q in todo;
        if lifecycle[q] !in strong {
          lifecycle := lifecycle - {q};
        }
        todo := todo - {q};
      }
      assert lifecycle == Pruned(s);
      if r in lifecycle {
        slot := lifecycle[r];
      } else {
        slot := nextSlot;
        lifecycle := lifecycle[r := slot];
        nextSlot := nextSlot + 1;
      }
    }

    /** `register_candidate`: first wins. */
    method RegisterCandidate(r: RunId, candidate: GenId) returns (inserted: bool)
      modifies this`active
      ensures inserted <==> r !in old(active)
      ensures active == if inserted then old(active)[r := candidate] else old(active)
    {
      inserted := r !in active;
      if inserted {
        active := active[r := candidate];
      }
    }

    /** `remove_own`: a stale identity removes nothing. */
    method RemoveOwnHub(r: RunId, own: GenId, ghost s: State)
      requires Holds(s)
      modifies this`active
      ensures Holds(RemoveOwn(s, r, own))
    {
      if r in active && active[r] == own {
        active := active - {r};
      }
    }
  }
}
