/** sync.WaitGroup as its counter; goroutines are not modelled. */
module WaitGroups {
  class WaitGroup {
    var counter: int

    constructor ()
      ensures counter == 0
    {
      counter := 0;
    }

    /** wg.Add(delta); Go panics when the counter becomes negative. */
    method Add(delta: int) returns (panicked: bool)
      modifies this
      ensures counter == old(counter) + delta
      ensures panicked <==> counter < 0
    {
      counter := counter + delta;
      panicked := counter < 0;
    }

    /** wg.Done(), that is wg.Add(-1). */
    method Done() returns (panicked: bool)
      modifies this
      ensures counter == old(counter) - 1
      ensures panicked <==> counter < 0
    {
      panicked := Add(-1);
    }

    /**
     * wg.Wait(): blocks until the counter is zero. `signals` is the number of
     * Done calls other goroutines make while it waits; it returns (released)
     * once they bring the counter to zero and otherwise stays blocked.
     */
    method Wait(signals: nat) returns (released: bool, used: nat)
      requires counter >= 0
      modifies this
      ensures released <==> old(counter) <= signals
      ensures used == if released then old(counter) else signals
      ensures counter == old(counter) - used
    {
      used := 0;
      while counter > 0 && used < signals
        invariant 0 <= used <= signals
        invariant counter == old(counter) - used >= 0
      {
        var _ := Done();
        used := used + 1;
      }
      released := counter == 0;
    }
  }
}
