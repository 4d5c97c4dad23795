/** delay: a bounded buffer between a source and its sink, emptied by timers that may fire at once. */
module Delays {
  import opened Histories
  import opened Demand
  import opened DelayReference
  import opened DelayTheorems
  import opened DelayTurns

  /** `delay_op::instance` in its world: a source, timers and a sink. */
  class Delay<T(!new)> {
    const world: World<T>

    var buffer: seq<T>
    var needs: nat
    var waiting: nat
    var active: bool
    var cancelled: bool
    var error: bool
    var timer: Timer
    var fate: Fate
    var deleted: bool

    /** The source's own counters. */
    var sent: nat
    var granted: nat

    var log: Log<T>
    /** The sink's on_next is on the stack; its item is still in front of the buffer. */
    var delivering: bool
    var rash: bool

    function S(): Delaying<T>
      reads this
    {
      Delaying(log, buffer, needs, waiting, sent, granted, Flags(active, cancelled, error, timer, delivering, deleted),
               fate, rash)
    }

    constructor (world: World<T>)
      ensures S() == FreshDelay() && this.world == world
    {
      this.world := world;
      buffer, needs, waiting, sent, granted := [], 0, 0, 0, 0;
      active, cancelled, error, timer, delivering, deleted := true, false, false, Off, false, false;
      log, fate, rash := Start, Fine, false;
    }

    // ----- the source's side

    /** on_next of the source. */
    method OnNext()
      requires active && sent < |world.script.items| && 0 < waiting
      modifies this
      ensures S() == Signalled(world, old(S()))
      decreases Total(world, S()), 4, 0, 0
    {
      waiting := waiting - 1;
      buffer := buffer + [world.script.items[sent]];
      sent := sent + 1;
      if |buffer| == 1 && !delivering {
        ScheduleTimer();
      }
    }

    /** on_complete and on_error of the source. */
    method OnEnd()
      modifies this`log, this`active, this`error, this`deleted
      ensures S() == SourceEnded(world, old(S()))
    {
      if buffer == [] {
        log := After(log, Ended(world.script.ending));
        deleted := true;
      } else {
        active := false;
        error := world.script.ending.Failure?;
      }
    }

    predicate MaySignal()
      reads this`active, this`sent, this`waiting
    {
      active && (sent == |world.script.items| || (sent < |world.script.items| && 0 < waiting))
    }

    /** Inside its request the source may signal at once, and more than once. */
    method SourceSignals()
      modifies this
      ensures S() == SourceSignalled(world, old(S()))
      decreases Total(world, S()), 5, 0, 0
    {
      while !deleted && fate == Fine && MaySignal() && world.goesOn(log, sent)
        invariant SourceSignalled(world, S()) == SourceSignalled(world, old(S()))
        invariant Total(world, S()) <= old(Total(world, S()))
        decreases Unsent(world, S()), if active && !deleted then 1 else 0
      {
        Signal();
      }
    }

    method Signal()
      requires MaySignal()
      modifies this
      ensures S() == Signalled(world, old(S()))
      decreases Total(world, S()), 4, 1, 0
    {
      if sent == |world.script.items| {
        OnEnd();
      } else {
        OnNext();
      }
    }

    // ----- the timer

    method ScheduleTimer()
      requires buffer != [] && !delivering
      modifies this
      ensures S() == Scheduled(world, old(S()))
      decreases Total(world, S()), 3, 0, 0
    {
      if world.immediate(log, buffer[0]) {
        OnTimer();
      } else {
        timer := Running;
      }
    }

    method OnTimer()
      requires buffer != [] && !delivering
      modifies this
      ensures S() == Fired(world, old(S()))
      decreases Total(world, S()), 2, 0, 0
    {
      if cancelled {
        deleted := true;
        return;
      }
      if needs == 0 {
        fate := Overdrawn;
        return;
      }
      Deliver();
      if fate != Fine {
        return;
      }
      AfterDeliveryOf();
    }

    /** The front item is handed over, and only then leaves the buffer. */
    method Deliver()
      requires buffer != [] && !delivering && 0 < needs
      modifies this
      ensures S() == Delivered(world, old(S()))
      decreases Total(world, S()), 1, 0, 0
    {
      hide SinkRan;
      needs := needs - 1;
      delivering := true;
      log := After(log, Next(buffer[0]));
      assert S() == Handed(old(S()));
      SinkOnNext();
      if fate == Fine && buffer != [] {
        delivering := false;
        buffer := buffer[1..];
      }
    }

    /** The rest of on_timer, with the item out of the buffer. */
    method AfterDeliveryOf()
      requires !delivering
      modifies this
      ensures S() == AfterDelivery(world, old(S()))
      decreases Total(world, S()), 8, 0, 0
    {
      if cancelled {
        deleted := true;
        return;
      }
      if buffer != [] {
        ScheduleTimer();
        return;
      }
      if active {
        MaybeRequest();
        return;
      }
      log := After(log, Ended(if error then world.script.ending else Complete));
      deleted := true;
    }

    // ----- the sink's side

    /** The sink's on_next: it requests and cancels from there. */
    method SinkOnNext()
      modifies this
      ensures S() == SinkRan(world, old(S()))
      decreases Total(world, S()), 10, 0, 0
    {
      var r := world.react(log);
      for i := 0 to |r.requests|
        invariant Asking(world, S(), r.requests[i..]) == Asking(world, old(S()), r.requests)
        invariant Total(world, S()) <= old(Total(world, S()))
      {
        if fate == Fine {
          assert r.requests[i..][1..] == r.requests[i + 1..];
          Request(r.requests[i]);
        }
      }
      if r.cancels && fate == Fine {
        Cancel();
      }
    }

    method Request(n: pos)
      modifies this
      ensures S() == RequestMade(world, old(S()), n)
      decreases Total(world, S()), 7, 0, 0
    {
      log := After(log, Requested(n));
      if !active {
        return;
      }
      if n > INT_MAX - needs {
        fate := Overflow;
        return;
      }
      needs := needs + n;
      MaybeRequest();
    }

    /** Tops up what is buffered or on its way. */
    method MaybeRequest()
      modifies this
      ensures S() == ToppedUp(world, old(S()))
      decreases Total(world, S()), 6, 0, 0
    {
      hide SourceSignalled, Rash;
      rash := rash || Rash(needs, |buffer|, waiting, delivering);
      if needs == 0 {
        return;
      }
      if |buffer| + waiting >= WATERMARK {
        return;
      }
      var requesting := if WATERMARK - |buffer| - waiting < needs then WATERMARK - |buffer| - waiting else needs;
      waiting := waiting + requesting;
      granted := granted + requesting;
      SourceSignals();
    }

    method Cancel()
      modifies this`log, this`active, this`cancelled, this`deleted
      ensures S() == Cancelling(old(S()))
    {
      active := false;
      cancelled := true;
      log := After(log, Cancelled);
      if buffer == [] {
        deleted := true;
      }
    }

    // ----- whole runs

    /** One event, if it can happen now. */
    method Handle(o: Occurrence)
      modifies this
      ensures S() == Occurred(world, old(S()), o)
    {
      match o {
        case SinkRequests(n) =>
          if !Closed(log) {
            Request(n);
          }
        case SinkCancels =>
          if !Closed(log) {
            Cancel();
          }
        case SourceSignals =>
          if MaySignal() {
            Signal();
          }
        case TimerFires =>
          if timer.Running? && buffer != [] && !delivering {
            timer := Off;
            OnTimer();
          }
        case TimerFails =>
          if timer.Running? {
            timer := Failed;
          }
      }
    }

    /** Every run from outside, up to a failing CHECK, is the reference's. */
    method Run(occurrences: seq<Occurrence>)
      requires S() == FreshDelay()
      modifies this
      ensures S() == AllOccurred(world, FreshDelay(), occurrences)
      ensures |buffer| + waiting <= WATERMARK && waiting == granted - sent
      ensures sent <= |world.script.items| && Received(log) + Undelivered(S()) == world.script.items[..sent]
      ensures fate == Overflow <==> active && Needs(log) > INT_MAX
      ensures IsCancelled(log) ==> SinkEverCancels(occurrences) || Cancels(log, world.react)
      ensures HasEnded(log) ==> Received(log) == world.script.items && log.event.ending == world.script.ending
      ensures AllInTurn(world, FreshDelay(), occurrences) && (fate == Fine ==> Obeyed(log, world.react))
    {
      for i := 0 to |occurrences|
        invariant AllOccurred(world, S(), occurrences[i..]) == AllOccurred(world, FreshDelay(), occurrences)
      {
        if fate != Fine || deleted {
          break;
        }
        assert occurrences[i..][0] == occurrences[i] && occurrences[i..][1..] == occurrences[i + 1..];
        Handle(occurrences[i]);
      }
      EveryRun(world, occurrences);
      EveryRunIsInTurn(world, occurrences);
    }
  }
}
