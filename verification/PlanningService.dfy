/** The stored plan of a message as the program keeps it: the conditional store,
    the choice and check in finish, and the reset after a stale plan. */
module PlanningService {
  import opened Types
  import opened Booking
  import opened PlanGate
  import opened Planning
  import BookingRuns
  import BookingService

  class Message {
    var stored: Option<Draft>
    var processed: bool

    constructor ()
      ensures stored == None && !processed
    {
      stored, processed := None, false;
    }

    /** The turn of this message with one handler in it. */
    function Value(store: BookingService.Store, h: Handler): Turn
      reads this, store
    {
      Turn(store.Value(), stored, processed, [h])
    }

    /** Where nothing is stored and the message is open. */
    method StorePlan(store: BookingService.Store, d: Draft)
      modifies this`stored
      ensures Value(store, Holding(d)) == Planning.Step(old(Value(store, Drafted(d))), Stores(0))
    {
      if stored.None? && !processed { stored := Some(d); }
    }

    /** Whatever is stored, and whoever stored it. */
    method Reset(store: BookingService.Store)
      modifies this`stored
      ensures Value(store, Over) == Planning.Step(old(Value(store, Stale)), Resets(0))
    {
      if !processed { stored := None; }
    }

    /** finish: the stored plan goes before the proposed one, and brings the
        versions to check; without it there are none. */
    method Finish(store: BookingService.Store, d: Draft, sc: Scene) returns (after: Handler)
      modifies this, store
      ensures Value(store, after) == Planning.Finish(old(Value(store, Holding(d))), 0, sc)
      ensures after == Stale <==>
                !old(processed) && !old(Fresh(store.Value(), Expected(Value(store, Holding(d)))))
      ensures old(BookingRuns.StoreInv(store.Value())) ==> BookingRuns.StoreInv(store.Value())
    {
      if processed { return Over; }
      var used := if stored.Some? then stored.value else d;
      var expected := if stored.Some? then Versions(stored.value.shown) else map[];
      if !Fresh(store.Value(), expected) { return Stale; }
      store.FinishPlan(Plan(sc.phone, expected, used.cmds, sc.context, sc.outsideTarget, sc.now, sc.time, sc.allowed));
      processed := true;
      after := Over;
    }
  }
}
