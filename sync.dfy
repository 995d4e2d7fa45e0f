/** sync.WaitGroup reduced to what the prober relies on: a shared counter of outstanding jobs. */
module Sync {

  class WaitGroup {
    var count: nat

    constructor ()
      ensures count == 0
    {
      count := 0;
    }

    /** Go panics when the counter would go negative, so callers must not let it. */
    method Add(delta: int)
      requires count + delta >= 0
      modifies this
      ensures count == old(count) + delta
    {
      count := count + delta;
    }

    method Done()
      requires count > 0
      modifies this
      ensures count == old(count) - 1
    {
      Add(-1);
    }
  }
}
