// Crashes and errors: a machine that may lose power before any durable write.
module Machines {

  /** How a call comes back: done, refused, or with an error that escapes it. */
  datatype Reply = Done | Refused | Raised

  /** The machine durable state lives on. Once it is off nothing durable changes any more, so a
      method that returns with the machine off shows the state some crash point left behind.
      `faults` counts the file-system and database errors it has thrown so far, `acts` what other
      processes have done to that state beside the one looked at. */
  class Machine {
    var on: bool
    ghost var faults: nat
    ghost var acts: nat

    constructor ()
      ensures on
    {
      on, faults, acts := true, 0, 0;
    }

    /** The machine does not come back by itself, and errors are counted. */
    twostate predicate Runs()
      reads this
    {
      (on ==> old(on)) && old(faults) <= faults && old(acts) <= acts
    }

    /** Neither a crash nor an error. */
    twostate predicate Quiet()
      reads this
    {
      on && old(on) && faults == old(faults)
    }

    /** ... and nobody else at work. */
    twostate predicate Undisturbed()
      reads this
    {
      Quiet() && acts == old(acts)
    }

    /** The power may fail just before any durable write. */
    method Spend()
      modifies this`on
      ensures on ==> old(on)
    {
      if * {
        on := false;
      }
    }

    /** Any file-system or database operation may fail. */
    method Fails() returns (failed: bool)
      modifies this`faults
      ensures faults == old(faults) + if failed then 1 else 0
    {
      failed := *;
      if failed {
        faults := faults + 1;
      }
    }
  }
}
