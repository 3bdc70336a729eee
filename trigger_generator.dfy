/**
 The periodic trigger source (`TriggerGenerator`): a counter that every tick
 advances by one and reports to a listener as a value in the cycle
 1, 2, ..., 256, 1, 2, ...

 The scheduler is modelled by its observable effect: `Start` registers one
 repeating task, `Stop` cancels it, and each firing of that task is an explicit
 call of `Tick`. Time and threads are not modelled.
 */
module Triggers {

  /** Length of the trigger cycle. */
  const Cycle: nat := 256

  /**
   The trigger value shown for internal counter `c`: `c % 256`, with 0 shown as
   256. It always lies in 1..256 and agrees with the counter modulo 256.
   */
  function TriggerValue(c: nat): (v: int)
    ensures 1 <= v <= Cycle
    ensures v % Cycle == c % Cycle
  {
    var next := c % Cycle;
    if next == 0 then Cycle else next
  }

  /** The value the k-th tick after a reset reports, counting from 1. */
  lemma TickValue(k: nat)
    requires k >= 1
    ensures TriggerValue(k) == (k - 1) % Cycle + 1
  {
    var q := (k - 1) / Cycle;
    var r := (k - 1) % Cycle;
    assert k == q * Cycle + (r + 1);
    if r + 1 == Cycle {
      assert k == (q + 1) * Cycle;
      assert k % Cycle == 0;
    } else {
      assert k % Cycle == r + 1;
    }
  }

  /**
   Consecutive counters give consecutive trigger values in the cycle: no value
   is skipped or repeated, and 256 is followed by 1.
   */
  lemma NextTriggerValue(c: nat)
    ensures TriggerValue(c + 1) == if TriggerValue(c) == Cycle then 1 else TriggerValue(c) + 1
  {
    if c == 0 {
      TickValue(1);
    } else {
      TickValue(c);
      TickValue(c + 1);
    }
  }

  class TriggerGenerator {
    /** `triggerCounter`: the number of ticks since construction or the last reset. */
    var counter: nat
    /** `isRunning`. */
    var running: bool
    /** A repeating registration (`scheduledFuture`) is live, not cancelled. */
    var scheduled: bool
    /** `scheduler.shutdown()` has been called. */
    var shutDown: bool

    /** Every value passed to `onTriggerGenerated`, in order. */
    ghost var emitted: seq<int>
    /** The position in `emitted` at which the counter was last 0. */
    ghost var cycleStart: nat
    /** How many repeating registrations have been made. */
    ghost var registrations: nat
    /** How many times `onTriggerError` has been called. */
    ghost var errorReports: nat

    /**
     The object invariant. A registration is live exactly while the generator
     runs, a shut-down generator does not run, and the values emitted since the
     last reset are 1, 2, ..., 256, 1, 2, ... with one value per counter step.
     */
    ghost predicate Valid()
      reads this
    {
      && scheduled == running
      && (shutDown ==> !running)
      && cycleStart + counter == |emitted|
      && forall i :: cycleStart <= i < |emitted| ==> emitted[i] == (i - cycleStart) % Cycle + 1
    }

    constructor ()
      ensures Valid()
      ensures counter == 0 && !running && !scheduled && !shutDown
      ensures emitted == [] && registrations == 0 && errorReports == 0
    {
      counter := 0;
      running, scheduled, shutDown := false, false, false;
      emitted, cycleStart := [], 0;
      registrations, errorReports := 0, 0;
    }

    /**
     `start`: does nothing while running; otherwise marks the generator
     running and registers exactly one repeating task.
     */
    method Start()
      requires Valid() && !shutDown
      modifies this
      ensures Valid()
      ensures old(running) ==> unchanged(this)
      ensures !old(running) ==> running && scheduled && registrations == old(registrations) + 1
      ensures counter == old(counter) && emitted == old(emitted) && cycleStart == old(cycleStart)
      ensures shutDown == old(shutDown) && errorReports == old(errorReports)
    {
      if running {
        return;
      }
      running := true;
      scheduled := true;
      registrations := registrations + 1;
    }

    /**
     `stop`: does nothing while not running; otherwise cancels the
     registration and clears the running flag. The counter is kept, so a
     later `Start` continues the cycle where it stopped.
     */
    method Stop()
      requires Valid()
      modifies this
      ensures Valid()
      ensures !running && !scheduled
      ensures !old(running) ==> unchanged(this)
      ensures counter == old(counter) && emitted == old(emitted) && cycleStart == old(cycleStart)
      ensures shutDown == old(shutDown) && registrations == old(registrations)
      ensures errorReports == old(errorReports)
    {
      if !running {
        return;
      }
      scheduled := false;
      running := false;
    }

    /** `shutdown`: stops, then releases the scheduler for good. */
    method Shutdown()
      requires Valid()
      modifies this
      ensures Valid()
      ensures !running && !scheduled && shutDown
      ensures counter == old(counter) && emitted == old(emitted) && cycleStart == old(cycleStart)
      ensures registrations == old(registrations) && errorReports == old(errorReports)
    {
      Stop();
      shutDown := true;
    }

    /**
     `generateTrigger`: one firing of the repeating task (or a direct call).
     The counter advances first; the listener then receives the wrapped value.
     When the listener throws, the error callback is called once and the
     generator stops itself; the counter stays advanced.
     */
    method Tick(listenerThrows: bool)
      requires Valid()
      modifies this
      ensures Valid()
      ensures counter == old(counter) + 1
      ensures emitted == old(emitted) + [TriggerValue(counter)]
      ensures cycleStart == old(cycleStart)
      ensures shutDown == old(shutDown) && registrations == old(registrations)
      ensures listenerThrows ==> !running && !scheduled && errorReports == old(errorReports) + 1
      ensures !listenerThrows ==>
        running == old(running) && scheduled == old(scheduled) && errorReports == old(errorReports)
    {
      counter := counter + 1;
      var triggerValue := TriggerValue(counter);
      TickValue(counter);
      emitted := emitted + [triggerValue];
      if listenerThrows {
        errorReports := errorReports + 1;
        Stop();
      }
    }

    /**
     `getCurrentTriggerValue`: reads without advancing. The result is in
     1..256, is 256 while the counter is 0, and equals the last value emitted
     since the last reset.
     */
    method GetCurrentTriggerValue() returns (v: int)
      requires Valid()
      ensures v == TriggerValue(counter)
      ensures 1 <= v <= Cycle
      ensures counter == 0 ==> v == Cycle
      ensures counter > 0 ==> v == emitted[|emitted| - 1]
    {
      v := TriggerValue(counter);
      if counter > 0 {
        TickValue(counter);
      }
    }

    /** `reset`: the counter returns to 0, so the next tick emits 1. */
    method Reset()
      requires Valid()
      modifies this
      ensures Valid()
      ensures counter == 0 && cycleStart == |emitted|
      ensures emitted == old(emitted) && running == old(running) && scheduled == old(scheduled)
      ensures shutDown == old(shutDown) && registrations == old(registrations)
      ensures errorReports == old(errorReports)
    {
      counter := 0;
      cycleStart := |emitted|;
    }
  }
}
