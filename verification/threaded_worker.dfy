/** The threaded worker: every interleaving of the producer, the worker thread and the sink's calls. */
module ThreadedWorkers {
  import opened Wrappers

  datatype Terminal = Complete | Error(code: int)

  /** Where the worker thread stands; Asleep and Signalled are inside the condition-variable wait. */
  datatype Place =
    | Subscribing     // deliver_on_subscribe, before the loop
    | LoopTest        // while (_thread_should_be_active)
    | WaitTest        // holding the mutex, at the inner while
    | Asleep
    | Signalled
    | DrainEntry
    | DrainTest       // while (needs() > 0 && !_die)
    | DrainImpl       // about to swap the buffer under the mutex
    | DeliverBatch    // the batch is in hand, deliver_on_next is next
    | AfterImpl       // drain_impl has returned false
    | DrainExit
    | Finish
    | Deleted

  /** _die, _thread_should_be_active, _complete, _ec, _cancelled, and whether _src is set. */
  datatype Flags = Flags(die: bool, active: bool, complete: bool, error: Option<int>, cancelled: bool, hasSource: bool)

  /** What the producer put in and what the sink was given. */
  datatype Trace<T> = Trace(accepted: seq<T>, batches: seq<seq<T>>, terminal: Option<Terminal>)

  /**
   The shared state. `others`: calls of request() by other threads that have not returned; while
   there is one, the worker may find `_in_drain` set. `asked`: request() was called since the
   last round of the drain began; then it may find `_drain_requested` set. `aborted`: a CHECK
   failed.
   */
  datatype Worker<T> = Worker(
    maxQueued: Option<nat>,
    buffer: seq<T>,
    hand: seq<T>,
    requested: nat,
    delivered: nat,
    others: nat,
    asked: bool,
    at: Place,
    aborted: bool,
    flags: Flags,
    trace: Trace<T>)

  function Fresh<T>(maxQueued: Option<nat>): Worker<T>
  {
    Worker(maxQueued, [], [], 0, 0, 0, false, Subscribing, false, Flags(false, true, false, None, false, true),
           Trace([], [], None))
  }

  datatype Event<T> =
    // the producer's thread
    | SourceNext(item: T)
    | SourceComplete
    | SourceError(code: int)
    // the sink: on the worker's own thread, from on_subscribe and on_next, or on another one
    | Request(n: nat, own: bool)
    | OtherReturns(inDrain: bool) // another thread's request() returns, from a drain frame or at once
    | Cancel(inDrain: bool)
    // the worker's own steps
    | Spurious
    | Step(inDrain: bool, drainRequested: bool)

  predicate Enabled<T>(w: Worker<T>, e: Event<T>)
  {
    !w.aborted && !w.at.Deleted? &&
    match e
    case SourceNext(_) => w.flags.hasSource
    case SourceComplete => w.flags.hasSource
    case SourceError(_) => w.flags.hasSource
    case Request(n, own) =>
      0 < n && !w.flags.die && !w.flags.cancelled && (own ==> w.at.Subscribing? || w.at.AfterImpl?)
    case OtherReturns(_) => 0 < w.others
    case Cancel(inDrain) => !w.flags.die && !w.flags.cancelled && (inDrain ==> 0 < w.others || InFrame(w.at))
    case Spurious => w.at.Asleep?
    case Step(inDrain, drainRequested) => CanStep(w.at) && (inDrain ==> 0 < w.others) && (drainRequested ==> w.asked)
  }

  /** The worker's own drain frame is on the stack. */
  predicate InFrame(p: Place)
  {
    p.DrainTest? || p.DrainImpl? || p.DeliverBatch? || p.AfterImpl? || p.DrainExit?
  }

  /** notify_one on the worker's condition variable. */
  function Notify<T>(w: Worker<T>): Worker<T>
  {
    if w.at.Asleep? then w.(at := Signalled) else w
  }

  /** The deferred death at the end of a drain frame. */
  function Die<T>(w: Worker<T>): Worker<T>
  {
    if w.flags.die then w.(flags := w.flags.(active := false)) else w
  }

  function Full<T>(w: Worker<T>): bool
  {
    w.maxQueued.Some? && |w.buffer| >= w.maxQueued.value
  }

  function Apply<T>(w: Worker<T>, e: Event<T>): Worker<T>
    requires Enabled(w, e)
  {
    match e
    case SourceNext(item) =>
      if Full(w) then w else Notify(w.(buffer := w.buffer + [item],
                                       trace := w.trace.(accepted := w.trace.accepted + [item])))
    case SourceComplete => Notify(w.(flags := w.flags.(hasSource := false, complete := true, active := false)))
    case SourceError(code) => Notify(w.(flags := w.flags.(hasSource := false, error := Some(code), active := false)))
    case Request(n, own) =>
      w.(requested := w.requested + n, asked := true, others := if own then w.others else w.others + 1)
    case OtherReturns(inDrain) => (if inDrain then Die(w) else w).(others := w.others - 1)
    case Cancel(inDrain) =>
      w.(flags := if inDrain then w.flags.(cancelled := true, die := true)
                  else w.flags.(cancelled := true, active := false))
    case Spurious => w.(at := Signalled)
    case Step(inDrain, drainRequested) => WorkerStep(w, inDrain, drainRequested)
  }

  /** Places whose step only tests flags. */
  predicate OnlyTests(p: Place)
  {
    p.Subscribing? || p.LoopTest? || p.WaitTest? || p.Signalled? || p.DrainEntry? || p.DrainTest? || p.AfterImpl?
      || p.DrainExit?
  }

  /** The worker thread is neither asleep nor gone. */
  predicate CanStep(p: Place)
  {
    OnlyTests(p) || p.DrainImpl? || p.DeliverBatch? || p.Finish?
  }

  function NextPlace<T>(w: Worker<T>, inDrain: bool, drainRequested: bool): (p: Place)
    ensures OnlyTests(w.at) ==>
              && !p.DeliverBatch? && !p.Deleted?
              && (p.DrainImpl? ==> w.requested > w.delivered)
              && (p.Asleep? ==> w.flags.active && w.buffer == [])
              && (p.Finish? ==> !w.flags.active)
  {
    match w.at
    case Subscribing => LoopTest
    case LoopTest => if w.flags.active then WaitTest else Finish
    case Signalled => WaitTest
    case WaitTest =>
      if w.flags.active && w.buffer == [] then Asleep
      else if w.buffer == [] || !(w.flags.active || w.flags.complete || w.flags.error.Some?) then Finish
      else DrainEntry
    case DrainEntry => if inDrain then LoopTest else DrainTest
    case DrainTest => if w.requested > w.delivered && !w.flags.die then DrainImpl else DrainExit
    case AfterImpl => if drainRequested then DrainTest else DrainExit
    case DrainExit => LoopTest
    case _ => w.at
  }

  function WorkerStep<T>(w: Worker<T>, inDrain: bool, drainRequested: bool): Worker<T>
    requires CanStep(w.at)
  {
    if w.at.DrainImpl? then
      if |w.buffer| == 0 then w.(at := AfterImpl) else w.(hand := w.buffer, buffer := [], at := DeliverBatch)
    else if w.at.DeliverBatch? then
      if w.flags.die then w.(delivered := w.delivered + 1, aborted := true)
      else w.(delivered := w.delivered + 1, trace := w.trace.(batches := w.trace.batches + [w.hand]), hand := [],
              at := AfterImpl)
    else if w.at.Finish? then
      if w.flags.cancelled then w.(at := Deleted)
      else if w.flags.die || !(w.flags.complete || w.flags.error.Some?) then w.(aborted := true)
      else w.(trace := w.trace.(terminal := Some(if w.flags.complete then Complete else Error(w.flags.error.value))),
              at := Deleted)
    else
      (if w.at.DrainExit? then Die(w) else w).(at := NextPlace(w, inDrain, drainRequested),
                                               asked := w.asked && !w.at.DrainTest?)
  }

  // ----- runs

  ghost predicate IsRun<T>(w: Worker<T>, events: seq<Event<T>>)
    decreases |events|
  {
    events == [] || (Enabled(w, events[0]) && IsRun(Apply(w, events[0]), events[1..]))
  }

  ghost function Exec<T>(w: Worker<T>, events: seq<Event<T>>): Worker<T>
    requires IsRun(w, events)
    decreases |events|
  {
    if events == [] then w else Exec(Apply(w, events[0]), events[1..])
  }

  function Flatten<T>(batches: seq<seq<T>>): seq<T>
  {
    if batches == [] then [] else Flatten(batches[..|batches| - 1]) + batches[|batches| - 1]
  }

  ghost predicate AllNonEmpty<T>(batches: seq<seq<T>>)
  {
    batches == [] || (0 < |batches[|batches| - 1]| && AllNonEmpty(batches[..|batches| - 1]))
  }

  lemma AppendBatch<T>(batches: seq<seq<T>>, b: seq<T>)
    ensures Flatten(batches + [b]) == Flatten(batches) + b
    ensures AllNonEmpty(batches + [b]) <==> AllNonEmpty(batches) && 0 < |b|
  {
    assert (batches + [b])[..|batches|] == batches;
  }

  // ----- the invariant

  /** Nothing accepted is lost, repeated or reordered. */
  ghost predicate Conserved<T>(w: Worker<T>)
  {
    Flatten(w.trace.batches) + w.hand + w.buffer == w.trace.accepted
  }

  /** A batch is in hand just before it is delivered, and only then. */
  ghost predicate HandInPlace<T>(w: Worker<T>)
  {
    0 < |w.hand| <==> w.at.DeliverBatch?
  }

  ghost predicate WithinLimit<T>(w: Worker<T>)
  {
    w.maxQueued.Some? ==> |w.buffer| <= w.maxQueued.value
  }

  ghost predicate Bounded<T>(w: Worker<T>)
  {
    HandInPlace(w) && WithinLimit(w) && AllNonEmpty(w.trace.batches)
  }

  /** Batches within the demand, and a terminal signal only as the very last one. */
  ghost predicate Lawful<T>(w: Worker<T>)
  {
    && (!w.aborted ==> w.delivered == |w.trace.batches|)
    && |w.trace.batches| <= w.requested
    && (w.at.DrainImpl? || w.at.DeliverBatch? ==> |w.trace.batches| < w.requested || w.aborted)
    && (w.trace.terminal.Some? ==> w.at.Deleted?)
  }

  /** The flags tell how the stream stands. */
  ghost predicate Consistent<T>(w: Worker<T>)
  {
    && (w.flags.hasSource <==> !w.flags.complete && w.flags.error.None?)
    && !(w.flags.complete && w.flags.error.Some?)
    && (!w.flags.active ==> w.flags.cancelled || w.flags.complete || w.flags.error.Some?)
    && (!w.flags.hasSource || (w.flags.cancelled && !w.flags.die) ==> !w.flags.active)
    && (w.flags.die ==> w.flags.cancelled)
    && (w.at.Asleep? ==> w.buffer == [] && w.flags.hasSource && (w.flags.active || w.flags.cancelled))
    && (w.at.Finish? || w.at.Deleted? ==> !w.flags.active)
    && (w.aborted ==> w.flags.cancelled)
    && (w.trace.terminal == Some(Complete) ==> w.flags.complete)
    && (forall c :: w.trace.terminal == Some(Error(c)) ==> w.flags.error == Some(c))
    && (w.trace.terminal.Some? ==> !w.flags.cancelled && w.at.Deleted?)
  }

  lemma WorkerStepConserves<T>(w: Worker<T>, inDrain: bool, drainRequested: bool)
    requires Conserved(w) && Bounded(w) && CanStep(w.at)
    ensures Conserved(WorkerStep(w, inDrain, drainRequested))
  {
    hide Flatten, AllNonEmpty, NextPlace, OnlyTests;
    if w.at.DeliverBatch? {
      AppendBatch(w.trace.batches, w.hand);
      assert (Flatten(w.trace.batches) + w.hand) + [] + w.buffer == w.trace.accepted;
    } else if w.at.DrainImpl? {
      assert Flatten(w.trace.batches) + w.buffer + [] == w.trace.accepted;
    }
  }

  lemma WorkerStepKeepsHand<T>(w: Worker<T>, inDrain: bool, drainRequested: bool)
    requires HandInPlace(w) && CanStep(w.at)
    ensures HandInPlace(WorkerStep(w, inDrain, drainRequested))
  {
    hide NextPlace;
  }

  lemma WorkerStepKeepsLimit<T>(w: Worker<T>, inDrain: bool, drainRequested: bool)
    requires WithinLimit(w) && CanStep(w.at)
    ensures WithinLimit(WorkerStep(w, inDrain, drainRequested))
  {
    hide NextPlace;
  }

  lemma WorkerStepIsBounded<T>(w: Worker<T>, inDrain: bool, drainRequested: bool)
    requires Bounded(w) && CanStep(w.at)
    ensures Bounded(WorkerStep(w, inDrain, drainRequested))
  {
    hide Flatten, AllNonEmpty, NextPlace, HandInPlace, WithinLimit;
    WorkerStepKeepsHand(w, inDrain, drainRequested);
    WorkerStepKeepsLimit(w, inDrain, drainRequested);
    if w.at.DeliverBatch? {
      AppendBatch(w.trace.batches, w.hand);
      HandIsABatch(w);
    }
  }

  lemma HandIsABatch<T>(w: Worker<T>)
    requires HandInPlace(w) && w.at.DeliverBatch?
    ensures 0 < |w.hand|
  {
  }

  lemma {:induction false} StepConserves<T>(w: Worker<T>, e: Event<T>)
    requires Conserved(w) && Bounded(w) && Enabled(w, e)
    ensures Conserved(Apply(w, e))
  {
    hide WorkerStep, Flatten, AllNonEmpty;
    match e {
      case SourceNext(item) =>
        var before := Flatten(w.trace.batches) + w.hand;
        assert before + (w.buffer + [item]) == (before + w.buffer) + [item];
      case Step(inDrain, drainRequested) => WorkerStepConserves(w, inDrain, drainRequested);
      case _ =>
    }
  }

  lemma {:induction false} StepIsBounded<T>(w: Worker<T>, e: Event<T>)
    requires Bounded(w) && Enabled(w, e)
    ensures Bounded(Apply(w, e))
  {
    hide WorkerStep, AllNonEmpty;
    match e {
      case Step(inDrain, drainRequested) => WorkerStepIsBounded(w, inDrain, drainRequested);
      case _ =>
    }
  }

  lemma WorkerStepIsLawful<T>(w: Worker<T>, inDrain: bool, drainRequested: bool)
    requires Lawful(w) && CanStep(w.at) && !w.aborted
    ensures Lawful(WorkerStep(w, inDrain, drainRequested))
  {
    hide NextPlace;
  }

  lemma StepIsLawful<T>(w: Worker<T>, e: Event<T>)
    requires Lawful(w) && Enabled(w, e)
    ensures Lawful(Apply(w, e))
  {
    hide WorkerStep;
    match e {
      case Step(inDrain, drainRequested) => WorkerStepIsLawful(w, inDrain, drainRequested);
      case _ =>
    }
  }

  lemma WorkerStepIsConsistent<T>(w: Worker<T>, inDrain: bool, drainRequested: bool)
    requires Consistent(w) && CanStep(w.at) && !w.aborted
    ensures Consistent(WorkerStep(w, inDrain, drainRequested))
  {
    hide NextPlace;
  }

  lemma StepIsConsistent<T>(w: Worker<T>, e: Event<T>)
    requires Consistent(w) && Enabled(w, e)
    ensures Consistent(Apply(w, e))
  {
    hide WorkerStep;
    match e {
      case Step(inDrain, drainRequested) => WorkerStepIsConsistent(w, inDrain, drainRequested);
      case _ =>
    }
  }

  ghost predicate Good<T>(w: Worker<T>)
  {
    Conserved(w) && Bounded(w) && Lawful(w) && Consistent(w)
  }

  /** Over every run, whatever the interleaving. */
  lemma {:induction false} EveryRunIsGood<T>(w: Worker<T>, events: seq<Event<T>>)
    requires Good(w) && IsRun(w, events)
    ensures Good(Exec(w, events))
    decreases |events|
  {
    if events != [] {
      StepConserves(w, events[0]);
      StepIsBounded(w, events[0]);
      StepIsLawful(w, events[0]);
      StepIsConsistent(w, events[0]);
      EveryRunIsGood(Apply(w, events[0]), events[1..]);
    }
  }

  /** Once a terminal signal is out, no event is possible: no batch follows. */
  lemma NothingAfterTheEnd<T>(maxQueued: Option<nat>, events: seq<Event<T>>, e: Event<T>)
    requires IsRun(Fresh<T>(maxQueued), events)
    requires Exec(Fresh<T>(maxQueued), events).trace.terminal.Some?
    ensures !Enabled(Exec(Fresh<T>(maxQueued), events), e)
  {
    EveryRunIsGood(Fresh<T>(maxQueued), events);
  }

  /** A CHECK fails, and the code marked unreachable is reached, only after a cancellation. */
  lemma AbortsOnlyAfterCancel<T>(maxQueued: Option<nat>, events: seq<Event<T>>)
    requires IsRun(Fresh<T>(maxQueued), events)
    ensures Exec(Fresh<T>(maxQueued), events).aborted ==> Exec(Fresh<T>(maxQueued), events).flags.cancelled
  {
    EveryRunIsGood(Fresh<T>(maxQueued), events);
  }

  /**
   The worker is left asleep only with nothing to deliver, and it is left asleep although it
   should stop only after a cancellation, and always after one outside of a drain.
   */
  lemma AsleepMeans<T>(maxQueued: Option<nat>, events: seq<Event<T>>)
    requires IsRun(Fresh<T>(maxQueued), events)
    requires Exec(Fresh<T>(maxQueued), events).at == Asleep
    ensures var end := Exec(Fresh<T>(maxQueued), events);
      && end.buffer == [] && end.flags.hasSource
      && (!end.flags.active ==> end.flags.cancelled)
      && (end.flags.cancelled && !end.flags.die ==> !end.flags.active)
  {
    EveryRunIsGood(Fresh<T>(maxQueued), events);
  }

  // ----- what the events of a run tell

  /** The items that the source has handed over. */
  function Offered<T>(events: seq<Event<T>>): seq<T>
  {
    if events == [] then []
    else (if events[0].SourceNext? then [events[0].item] else []) + Offered(events[1..])
  }

  /** Those of them that came while there was room, or with no limit set. */
  ghost function MetRoom<T>(w: Worker<T>, events: seq<Event<T>>): seq<T>
    requires IsRun(w, events)
    decreases |events|
  {
    if events == [] then []
    else
      (if events[0].SourceNext? && (w.maxQueued == None || |w.buffer| < w.maxQueued.value) then [events[0].item]
        else [])
      + MetRoom(Apply(w, events[0]), events[1..])
  }

  function TotalRequested<T>(events: seq<Event<T>>): nat
  {
    if events == [] then 0
    else (if events[0].Request? then events[0].n else 0) + TotalRequested(events[1..])
  }

  /** Calls of request() on other threads, less those that have returned. */
  function OthersInside<T>(events: seq<Event<T>>): int
  {
    if events == [] then 0
    else (if events[0].Request? && !events[0].own then 1 else if events[0].OtherReturns? then -1
      else 0) + OthersInside(events[1..])
  }

  /** The first event that `how` holds of decides, as there can be no second one. */
  predicate Happened<T>(events: seq<Event<T>>, how: Event<T> -> bool)
  {
    events != [] && (how(events[0]) || Happened(events[1..], how))
  }

  /** How the state and the events of a run go together. */
  ghost predicate Tells<T(!new)>(was: Worker<T>, events: seq<Event<T>>, now: Worker<T>)
    requires IsRun(was, events)
  {
    && now.maxQueued == was.maxQueued
    && now.trace.accepted == was.trace.accepted + MetRoom(was, events)
    && (was.maxQueued == None ==> MetRoom(was, events) == Offered(events))
    && now.requested == was.requested + TotalRequested(events)
    && now.others == was.others + OthersInside(events)
    && (now.flags.cancelled <==> was.flags.cancelled || Happened(events, (e: Event<T>) => e.Cancel?))
    && (now.flags.die <==> was.flags.die || Happened(events, (e: Event<T>) => e == Cancel(true)))
    && (now.flags.complete <==> was.flags.complete || Happened(events, (e: Event<T>) => e.SourceComplete?))
    && (forall c :: now.flags.error == Some(c)
          <==> was.flags.error == Some(c) || Happened(events, (e: Event<T>) => e == SourceError(c)))
  }

  /**
   Over every run: an item is accepted if and only if it meets room, so that without a limit all
   are, in order; and demand, cancellation and the source's end are those of the events.
   */
  lemma {:induction false} EventsTell<T(!new)>(w: Worker<T>, events: seq<Event<T>>)
    requires Consistent(w) && IsRun(w, events)
    ensures Tells(w, events, Exec(w, events))
    decreases |events|
  {
    hide WorkerStep;
    if events != [] {
      var next := Apply(w, events[0]);
      StepIsConsistent(w, events[0]);
      OneEventTells(w, events[0]);
      EventsTell(next, events[1..]);
    }
  }

  lemma OneEventTells<T>(w: Worker<T>, e: Event<T>)
    requires Consistent(w) && Enabled(w, e)
    ensures var next := Apply(w, e);
      && next.maxQueued == w.maxQueued
      && next.trace.accepted == w.trace.accepted +
           (if e.SourceNext? && (w.maxQueued == None || |w.buffer| < w.maxQueued.value) then [e.item] else [])
      && next.requested == w.requested + (if e.Request? then e.n else 0)
      && next.others == w.others + (if e.Request? && !e.own then 1 else if e.OtherReturns? then -1 else 0)
      && (next.flags.cancelled <==> w.flags.cancelled || e.Cancel?)
      && (next.flags.die <==> w.flags.die || e == Cancel(true))
      && (next.flags.complete <==> w.flags.complete || e.SourceComplete?)
      && next.flags.error == (if e.SourceError? then Some(e.code) else w.flags.error)
      && (e.SourceError? ==> w.flags.error == None)
  {
    hide NextPlace;
  }

  /**
   What can happen next, told from the events so far: the source, the sink and the worker go on
   until they have ended.
   */
  lemma WhatCanHappen<T(!new)>(maxQueued: Option<nat>, events: seq<Event<T>>, item: T, n: nat)
    requires IsRun(Fresh<T>(maxQueued), events)
    ensures var now := Exec(Fresh<T>(maxQueued), events);
      now.aborted || now.at.Deleted? ||
      (var ended := now.flags.complete || now.flags.error.Some?;
       var cancelled := Happened(events, (e: Event<T>) => e.Cancel?);
       && (Enabled(now, SourceNext(item)) <==> !ended) && (Enabled(now, SourceComplete) <==> !ended)
       && (forall code :: Enabled(now, SourceError(code)) <==> !ended)
       && (Enabled(now, Request(n, false)) <==> 0 < n && !cancelled) && (Enabled(now, Cancel(false)) <==> !cancelled)
       && (Enabled(now, Step(false, false)) <==> !now.at.Asleep?) && (Enabled(now, Spurious) <==> now.at.Asleep?)
       && (Enabled(now, OtherReturns(false)) <==> 0 < OthersInside(events)))
  {
    hide Apply, MetRoom, TotalRequested, Flatten, AllNonEmpty, Offered, Conserved, Bounded, Lawful;
    FreshIsGood<T>(maxQueued);
    EveryRunIsGood(Fresh<T>(maxQueued), events);
    EventsTell(Fresh<T>(maxQueued), events);
  }

  lemma FreshIsGood<T>(maxQueued: Option<nat>)
    ensures Good(Fresh<T>(maxQueued))
  {
  }

  /** What every run of a fresh worker promises, told from the events. */
  lemma WhatTheSinkSees<T(!new)>(maxQueued: Option<nat>, events: seq<Event<T>>)
    requires IsRun(Fresh<T>(maxQueued), events)
    ensures var end := Exec(Fresh<T>(maxQueued), events);
      && Flatten(end.trace.batches) <= end.trace.accepted == MetRoom(Fresh<T>(maxQueued), events)
      && AllNonEmpty(end.trace.batches) && |end.trace.batches| <= TotalRequested(events)
      && (end.trace.terminal.Some? ==>
            && end.at.Deleted? && !Happened(events, (e: Event<T>) => e.Cancel?)
            && (match end.trace.terminal.value
                case Complete => Happened(events, (e: Event<T>) => e.SourceComplete?)
                case Error(c) => Happened(events, (e: Event<T>) => e == SourceError(c)))
            && Flatten(end.trace.batches) + end.buffer == end.trace.accepted)
  {
    hide Apply, Enabled, MetRoom, TotalRequested, Happened, Flatten, AllNonEmpty, Offered;
    var end := Exec(Fresh<T>(maxQueued), events);
    FreshIsGood<T>(maxQueued);
    EveryRunIsGood(Fresh<T>(maxQueued), events);
    EventsTell(Fresh<T>(maxQueued), events);
    assert Flatten(end.trace.batches) + (end.hand + end.buffer) == end.trace.accepted;
  }

  /** A CHECK fails at exactly one kind of step: a batch is in hand and the sink has cancelled in a drain since. */
  lemma AbortsExactlyWhen<T>(w: Worker<T>, e: Event<T>)
    requires Good(w) && Enabled(w, e)
    ensures Apply(w, e).aborted <==> e.Step? && w.at.DeliverBatch? && w.flags.die
  {
    hide Conserved, Bounded, Flatten, AllNonEmpty;
  }

  // ----- progress

  /** The worker runs on, and nobody else does anything. */
  function Alone<T>(w: Worker<T>, steps: nat): Worker<T>
    decreases steps
  {
    if steps == 0 || !CanStep(w.at) || w.aborted then w else Alone(WorkerStep(w, false, false), steps - 1)
  }

  /** How many steps it takes from here to hand over what is buffered. */
  function StepsToDelivery(p: Place): nat
  {
    match p
    case LoopTest => 6
    case Signalled => 6
    case WaitTest => 5
    case DrainEntry => 4
    case DrainTest => 3
    case _ => 0
  }

  /** What waits is delivered as one batch, if there is demand and nobody has cancelled. */
  lemma WaitingItemsAreDelivered<T>(w: Worker<T>)
    requires Good(w) && !w.aborted && !w.flags.cancelled && w.buffer != [] && w.delivered < w.requested
    requires 0 < StepsToDelivery(w.at) && (w.at.LoopTest? ==> w.flags.active)
    ensures var later := Alone(w, StepsToDelivery(w.at));
      later.trace.batches == w.trace.batches + [w.buffer] && later.buffer == [] && later.hand == []
    decreases StepsToDelivery(w.at)
  {
    hide Conserved, Flatten, AllNonEmpty;
    var n := StepsToDelivery(w.at);
    if n > 3 {
      var next := WorkerStep(w, false, false);
      assert Alone(w, n) == Alone(next, n - 1);
      OneStepNearer(w);
      WaitingItemsAreDelivered(next);
    } else {
      var taken := WorkerStep(WorkerStep(w, false, false), false, false);
      assert Alone(w, 3) == Alone(taken, 1) == WorkerStep(taken, false, false);
    }
  }

  lemma OneStepNearer<T>(w: Worker<T>)
    requires Good(w) && !w.aborted && !w.flags.cancelled && w.buffer != [] && 3 < StepsToDelivery(w.at)
    requires w.at.LoopTest? ==> w.flags.active
    ensures var next := WorkerStep(w, false, false);
      && Good(next) && !next.aborted && next == w.(at := next.at, asked := next.asked)
      && StepsToDelivery(next.at) == StepsToDelivery(w.at) - 1 && !next.at.LoopTest?
  {
    hide Conserved, Flatten, AllNonEmpty, Bounded, Lawful;
    WorkerStepConserves(w, false, false);
    WorkerStepIsBounded(w, false, false);
    WorkerStepIsLawful(w, false, false);
    WorkerStepIsConsistent(w, false, false);
  }

  // ----- two runs that the design does not rule out

  lemma {:induction false} Then<T>(w: Worker<T>, events: seq<Event<T>>, e: Event<T>)
    requires IsRun(w, events) && Enabled(Exec(w, events), e)
    ensures IsRun(w, events + [e]) && Exec(w, events + [e]) == Apply(Exec(w, events), e)
    decreases |events|
  {
    if events == [] {
      assert events + [e] == [e] && [e][1..] == [];
    } else {
      Then(Apply(w, events[0]), events[1..], e);
      assert (events + [e])[1..] == events[1..] + [e];
    }
  }

  /** A run from a fresh worker to `now`. */
  ghost predicate Leads<T>(events: seq<Event<T>>, now: Worker<T>)
  {
    IsRun(Fresh<T>(None), events) && Exec(Fresh<T>(None), events) == now
  }

  lemma Begin<T>()
    ensures Leads<T>([], Fresh<T>(None))
  {
  }

  lemma On<T>(events: seq<Event<T>>, now: Worker<T>, e: Event<T>) returns (more: seq<Event<T>>, next: Worker<T>)
    requires Leads(events, now) && Enabled(now, e)
    ensures next == Apply(now, e) && Leads(more, next)
  {
    Then(Fresh<T>(None), events, e);
    more, next := events + [e], Apply(now, e);
  }

  /** The sink asks for two batches; the worker waits for the first item; x arrives. */
  lemma UpToTheFirstItem<T>(x: T) returns (events: seq<Event<T>>, now: Worker<T>)
    ensures Leads(events, now)
    ensures now == Worker(None, [x], [], 2, 0, 0, true, WaitTest, false,
                          Flags(false, true, false, None, false, true), Trace([x], [], None))
  {
    hide Leads;
    Begin<T>();
    events, now := On([], Fresh<T>(None), Request(2, true));
    events, now := On(events, now, Step(false, false));
    events, now := On(events, now, Step(false, false));
    events, now := On(events, now, Step(false, false));
    events, now := On(events, now, SourceNext(x));
    events, now := On(events, now, Step(false, false));
  }

  /** The worker takes x into its hand; y and the completion arrive before x is delivered. */
  lemma UpToTheHand<T>(x: T, y: T) returns (events: seq<Event<T>>, now: Worker<T>)
    ensures Leads(events, now)
    ensures now == Worker(None, [y], [x], 2, 0, 0, false, DeliverBatch, false,
                          Flags(false, false, true, None, false, false), Trace([x, y], [], None))
  {
    hide Leads;
    events, now := UpToTheFirstItem(x);
    events, now := On(events, now, Step(false, false));
    events, now := On(events, now, Step(false, false));
    events, now := On(events, now, Step(false, false));
    events, now := On(events, now, Step(false, false));
    events, now := On(events, now, SourceNext(y));
    events, now := On(events, now, SourceComplete);
  }

  /**
   Completion does not mean that everything was delivered: an item accepted while the last
   batch is on its way is lost, although the sink has asked for more.
   */
  lemma LastItemCanBeLost<T>(x: T, y: T) returns (events: seq<Event<T>>, end: Worker<T>)
    ensures Leads(events, end)
    ensures end.trace == Trace([x, y], [[x]], Some(Complete)) && |end.trace.batches| < end.requested
  {
    hide Leads;
    events, end := UpToTheHand(x, y);
    events, end := On(events, end, Step(false, false));
    events, end := On(events, end, Step(false, false));
    events, end := On(events, end, Step(false, false));
    events, end := On(events, end, Step(false, false));
    events, end := On(events, end, Step(false, false));
  }

  /** cancel() from another thread does not wake the worker. */
  lemma CancelCanLeaveTheWorkerAsleep<T>() returns (events: seq<Event<T>>, end: Worker<T>)
    ensures Leads(events, end)
    ensures end.at == Asleep && end.flags.cancelled && !end.flags.active && end.flags.hasSource
  {
    hide Leads;
    Begin<T>();
    events, end := On([], Fresh<T>(None), Step(false, false));
    events, end := On(events, end, Step(false, false));
    events, end := On(events, end, Step(false, false));
    events, end := On(events, end, Cancel(false));
  }

  // ----- exactly when that happens

  /** The source has ended and the sink has not cancelled: a terminal signal is what remains to be sent. */
  ghost predicate Ending<T>(w: Worker<T>)
  {
    !w.flags.hasSource && !w.flags.cancelled && !w.aborted && !w.at.Deleted?
  }

  /** Nothing waits in the buffer, or the worker is bound to take it. */
  predicate Bound<T>(w: Worker<T>)
  {
    w.buffer == [] || w.at.DrainImpl? || (w.at.DrainTest? && w.delivered < w.requested)
  }

  ghost predicate Ended<T>(w: Worker<T>)
  {
    w.trace.terminal.Some?
  }

  ghost predicate AllDelivered<T>(w: Worker<T>)
  {
    Flatten(w.trace.batches) == w.trace.accepted
  }

  lemma StaysBound<T>(w: Worker<T>, e: Event<T>)
    requires Good(w) && Enabled(w, e) && !w.flags.hasSource && (w.flags.cancelled || Bound(w))
    ensures var next := Apply(w, e); !next.flags.hasSource && (next.flags.cancelled || Bound(next))
  {
  }

  lemma {:induction false} BoundRunsDeliver<T>(w: Worker<T>, events: seq<Event<T>>)
    requires Good(w) && IsRun(w, events) && !w.flags.hasSource && (w.flags.cancelled || Bound(w))
    ensures var end := Exec(w, events); Ended(end) ==> AllDelivered(end)
    decreases |events|
  {
    if events != [] {
      EveryRunIsGood(w, [events[0]]);
      assert Exec(w, [events[0]]) == Apply(w, events[0]);
      StaysBound(w, events[0]);
      BoundRunsDeliver(Apply(w, events[0]), events[1..]);
    } else if Ended(w) {
      assert w.hand == [] && w.buffer == [];
      assert Flatten(w.trace.batches) + [] + [] == w.trace.accepted;
    }
  }

  /** Steps until the worker is gone. */
  function StepsToEnd(p: Place): nat
  {
    match p
    case Signalled => 8
    case WaitTest => 7
    case DrainEntry => 6
    case DeliverBatch => 6
    case AfterImpl => 5
    case DrainTest => 5
    case DrainExit => 4
    case Subscribing => 4
    case LoopTest => 3
    case Finish => 2
    case _ => 0
  }

  /** One step on: still there and nearer to the end, or the terminal signal is out. */
  ghost predicate NearerTheEnd<T>(w: Worker<T>, next: Worker<T>)
  {
    && next.buffer != []
    && if w.at.Finish? then Ended(next) && next.hand == [] else Ending(next) && StepsToEnd(next.at) < StepsToEnd(w.at)
  }

  /** The worker is about to enter a drain: another thread can make it turn back by being in one. */
  lemma OtherThreadIsInTheWay<T>(w: Worker<T>)
    requires Good(w) && Ending(w) && w.at.DrainEntry? && w.buffer != []
    ensures Enabled(w, Request(1, false))
    ensures var asked := Apply(w, Request(1, false));
      Ending(asked) && !Bound(asked) && asked.at == w.at && asked.buffer == w.buffer && 0 < asked.others
  {
  }

  lemma UnboundStep<T>(w: Worker<T>)
    requires Good(w) && Ending(w) && !Bound(w) && (w.at.DrainEntry? ==> 0 < w.others)
    ensures var e := Step(w.at.DrainEntry?, false);
      Enabled(w, e) && NearerTheEnd(w, Apply(w, e)) && (w.at.Finish? || !Bound(Apply(w, e)))
  {
    hide Conserved, Flatten, AllNonEmpty;
  }

  // ----- a cancellation from outside of a drain

  /** Told to stop, outside of its drain, while the source goes on. */
  predicate Stopped<T>(w: Worker<T>)
  {
    !w.flags.active && w.flags.hasSource && !InFrame(w.at) && !w.at.DrainEntry?
  }

  lemma StaysStopped<T>(w: Worker<T>, e: Event<T>)
    requires Good(w) && Stopped(w) && Enabled(w, e) && !e.SourceComplete? && !e.SourceError?
    ensures Stopped(Apply(w, e)) && Apply(w, e).trace.batches == w.trace.batches
    ensures Apply(w, e).trace.terminal == w.trace.terminal
  {
    hide Conserved, Bounded, Flatten, AllNonEmpty;
  }

  /** It delivers nothing more and sends no signal, whatever happens, until the source ends. */
  lemma {:induction false} StoppedIsQuiet<T>(w: Worker<T>, events: seq<Event<T>>)
    requires Good(w) && Stopped(w) && IsRun(w, events)
    requires forall i :: 0 <= i < |events| ==> !events[i].SourceComplete? && !events[i].SourceError?
    ensures var end := Exec(w, events); end.trace.batches == w.trace.batches && end.trace.terminal == w.trace.terminal
    decreases |events|
  {
    hide Good, Stopped, Apply, Enabled;
    if events != [] {
      StaysStopped(w, events[0]);
      var next := Apply(w, events[0]);
      EveryRunIsGood(w, [events[0]]);
      assert Exec(w, [events[0]]) == next;
      assert forall i :: 0 <= i < |events[1..]| ==> events[1..][i] == events[i + 1];
      StoppedIsQuiet(next, events[1..]);
    }
  }

  // ----- a cancellation from inside of a drain

  /** The worker has been told to die, and is in its drain frame or knows that it has to stop. */
  ghost predicate Dying<T>(w: Worker<T>)
  {
    Good(w) && !w.aborted && w.flags.die && (InFrame(w.at) || ((w.at.LoopTest? || w.at.Finish?) && !w.flags.active))
  }

  /** A batch is in hand, or about to be. */
  predicate Delivers<T>(w: Worker<T>)
  {
    w.at.DeliverBatch? || (w.at.DrainImpl? && w.buffer != [])
  }

  lemma DyingStep<T>(w: Worker<T>)
    requires Dying(w)
    ensures Enabled(w, Step(false, false))
    ensures var next := Apply(w, Step(false, false));
      && next.trace == w.trace
      && if w.at.DeliverBatch? then next.aborted
         else if w.at.Finish? then next.at.Deleted? && !next.aborted
         else Dying(next) && (Delivers(next) <==> Delivers(w)) && !next.at.DrainImpl?
              && (if next.at.DeliverBatch? || next.at.AfterImpl? then w.at.DrainImpl?
                  else w.at.DrainImpl? || StepsToEnd(next.at) < StepsToEnd(w.at))
  {
    hide Flatten, AllNonEmpty;
    assert (Flatten(w.trace.batches) + w.buffer) + [] == Flatten(w.trace.batches) + w.buffer + [];
  }

  lemma DyingIsGood<T>(w: Worker<T>)
    requires Dying(w)
    ensures Good(w) && !w.at.Deleted? && (w.at.DeliverBatch? ==> Delivers(w)) && (w.at.Finish? ==> !Delivers(w))
  {
  }

  /**
   Without other calls it runs out of the drain and is gone, with no further signal; with a batch to
   deliver, a CHECK fails.
   */
  lemma {:induction false} DyingEnds<T>(w: Worker<T>) returns (events: seq<Event<T>>)
    requires Dying(w)
    ensures IsRun(w, events) && forall i :: 0 <= i < |events| ==> events[i] == Step(false, false)
    ensures var end := Exec(w, events);
      end.trace == w.trace && if Delivers(w) then end.aborted else end.at.Deleted? && !end.aborted
    decreases if w.at.DrainImpl? then 9 else StepsToEnd(w.at)
  {
    hide Apply, Enabled, Dying, Delivers;
    var e: Event<T> := Step(false, false);
    DyingStep(w);
    var next := Apply(w, e);
    events := [];
    DyingIsGood(w);
    if !w.at.DeliverBatch? && !w.at.Finish? {
      events := DyingEnds(next);
    }
    OneStepIsGood(w, e, events);
    events := [e] + events;
  }

  lemma SomethingIsMissing<T>(w: Worker<T>)
    requires Conserved(w) && w.buffer != []
    ensures !AllDelivered(w)
  {
    assert |Flatten(w.trace.batches) + w.hand + w.buffer| > |Flatten(w.trace.batches)|;
  }

  lemma OneStepIsGood<T>(w: Worker<T>, e: Event<T>, rest: seq<Event<T>>)
    requires Good(w) && Enabled(w, e) && IsRun(Apply(w, e), rest)
    ensures Good(Apply(w, e)) && IsRun(w, [e] + rest) && Exec(w, [e] + rest) == Exec(Apply(w, e), rest)
  {
    StepConserves(w, e);
    StepIsBounded(w, e);
    StepIsLawful(w, e);
    StepIsConsistent(w, e);
    assert ([e] + rest)[1..] == rest;
  }

  /** A run that loses something, with one more event in front. */
  lemma LosesLater<T>(w: Worker<T>, e: Event<T>, rest: seq<Event<T>>)
    requires Good(w) && Enabled(w, e) && IsRun(Apply(w, e), rest)
    requires var end := Exec(Apply(w, e), rest); Ended(end) && !AllDelivered(end)
    ensures IsRun(w, [e] + rest)
    ensures var end := Exec(w, [e] + rest); Ended(end) && !AllDelivered(end)
  {
    OneStepIsGood(w, e, rest);
  }

  /** From anywhere else the terminal signal can overtake what is buffered. */
  lemma {:induction false} UnboundRunLoses<T>(w: Worker<T>) returns (events: seq<Event<T>>)
    requires Good(w) && Ending(w) && !Bound(w)
    ensures IsRun(w, events)
    ensures var end := Exec(w, events); Ended(end) && !AllDelivered(end)
    decreases StepsToEnd(w.at), if w.others == 0 then 1 else 0
  {
    hide Apply, Enabled, Ending, Conserved, Bounded, Lawful, Consistent, AllDelivered;
    var e: Event<T> := if w.at.DrainEntry? && w.others == 0 then Request(1, false) else Step(w.at.DrainEntry?, false);
    if w.at.DrainEntry? && w.others == 0 {
      OtherThreadIsInTheWay(w);
    } else {
      UnboundStep(w);
    }
    events := [];
    assert IsRun(Apply(w, e), events) && Exec(Apply(w, e), events) == Apply(w, e);
    OneStepIsGood(w, e, events);
    if w.at.Finish? {
      SomethingIsMissing(Apply(w, e));
    } else {
      events := UnboundRunLoses(Apply(w, e));
    }
    LosesLater(w, e, events);
    events := [e] + events;
  }

  /**
   Once the source has ended, every way on to the terminal signal delivers all accepted items
   if and only if nothing is buffered or the worker is about to take the buffer.
   */
  lemma EndDeliversAllExactlyWhenBound<T>(w: Worker<T>)
    requires Good(w) && Ending(w)
    ensures Bound(w) <==> forall events :: IsRun(w, events) && Ended(Exec(w, events)) ==> AllDelivered(Exec(w, events))
  {
    if Bound(w) {
      forall events | IsRun(w, events) && Ended(Exec(w, events)) ensures AllDelivered(Exec(w, events)) {
        BoundRunsDeliver(w, events);
      }
    } else {
      var events := UnboundRunLoses(w);
    }
  }

  /** Request() is called on the worker's own thread only: from on_subscribe and on_next. */
  ghost predicate OwnRequests<T>(events: seq<Event<T>>)
  {
    forall i :: 0 <= i < |events| && events[i].Request? ==> events[i].own
  }

  /** Nothing waits in the buffer, or there is demand and the worker is on its way to take it. */
  predicate BoundAlone<T>(w: Worker<T>)
  {
    || w.buffer == [] || w.at.DrainImpl?
    || (w.delivered < w.requested && (w.at.Signalled? || w.at.WaitTest? || w.at.DrainEntry? || w.at.DrainTest?))
  }

  lemma StaysBoundAlone<T>(w: Worker<T>, e: Event<T>)
    requires Good(w) && Enabled(w, e) && !w.flags.hasSource && w.others == 0 && (e.Request? ==> e.own)
    requires w.flags.cancelled || BoundAlone(w)
    ensures var next := Apply(w, e);
      !next.flags.hasSource && next.others == 0 && (next.flags.cancelled || BoundAlone(next))
  {
    hide Conserved, Flatten, AllNonEmpty;
  }

  lemma {:induction false} BoundAloneRunsDeliver<T>(w: Worker<T>, events: seq<Event<T>>)
    requires Good(w) && IsRun(w, events) && OwnRequests(events) && !w.flags.hasSource && w.others == 0
    requires w.flags.cancelled || BoundAlone(w)
    ensures var end := Exec(w, events); Ended(end) ==> AllDelivered(end)
    decreases |events|
  {
    if events != [] {
      EveryRunIsGood(w, [events[0]]);
      assert Exec(w, [events[0]]) == Apply(w, events[0]);
      StaysBoundAlone(w, events[0]);
      assert forall i :: 0 <= i < |events[1..]| ==> events[1..][i] == events[i + 1];
      BoundAloneRunsDeliver(Apply(w, events[0]), events[1..]);
    } else if Ended(w) {
      assert w.hand == [] && w.buffer == [];
      assert Flatten(w.trace.batches) + [] + [] == w.trace.accepted;
    }
  }

  lemma UnboundStepAlone<T>(w: Worker<T>)
    requires Good(w) && Ending(w) && !BoundAlone(w)
    ensures var e := Step(false, false);
      Enabled(w, e) && NearerTheEnd(w, Apply(w, e)) && (w.at.Finish? || !BoundAlone(Apply(w, e)))
  {
    hide Conserved, Flatten, AllNonEmpty;
  }

  lemma {:induction false} UnboundAloneRunLoses<T>(w: Worker<T>) returns (events: seq<Event<T>>)
    requires Good(w) && Ending(w) && !BoundAlone(w)
    ensures IsRun(w, events) && OwnRequests(events)
    ensures var end := Exec(w, events); Ended(end) && !AllDelivered(end)
    decreases StepsToEnd(w.at)
  {
    hide Apply, Enabled, BoundAlone, Ending, Conserved, Bounded, Lawful, Consistent, AllDelivered;
    var e: Event<T> := Step(false, false);
    UnboundStepAlone(w);
    events := [];
    assert IsRun(Apply(w, e), events) && Exec(Apply(w, e), events) == Apply(w, e);
    OneStepIsGood(w, e, events);
    if w.at.Finish? {
      SomethingIsMissing(Apply(w, e));
    } else {
      events := UnboundAloneRunLoses(Apply(w, e));
    }
    LosesLater(w, e, events);
    events := [e] + events;
  }

  /**
   The same for a sink that asks only from on_subscribe and on_next: with demand, a worker on
   its way to a drain is as good as one in it.
   */
  lemma EndDeliversAllExactlyWhenBoundAlone<T>(w: Worker<T>)
    requires Good(w) && Ending(w) && w.others == 0
    ensures BoundAlone(w)
      <==> forall events :: IsRun(w, events) && OwnRequests(events) && Ended(Exec(w, events)) ==>
             AllDelivered(Exec(w, events))
  {
    if BoundAlone(w) {
      forall events | IsRun(w, events) && OwnRequests(events) && Ended(Exec(w, events))
        ensures AllDelivered(Exec(w, events)) {
        BoundAloneRunsDeliver(w, events);
      }
    } else {
      var events := UnboundAloneRunLoses(w);
    }
  }

  /** In particular: a source that ends while nothing is buffered loses nothing, whatever is in hand. */
  lemma EndOnAnEmptyBufferLosesNothing<T>(maxQueued: Option<nat>, before: seq<Event<T>>, e: Event<T>,
                                          after: seq<Event<T>>)
    requires IsRun(Fresh<T>(maxQueued), before)
    requires var w := Exec(Fresh<T>(maxQueued), before);
      w.buffer == [] && (e.SourceComplete? || e.SourceError?) && Enabled(w, e) && IsRun(Apply(w, e), after)
    ensures var end := Exec(Apply(Exec(Fresh<T>(maxQueued), before), e), after); Ended(end) ==> AllDelivered(end)
  {
    var w := Exec(Fresh<T>(maxQueued), before);
    EveryRunIsGood(Fresh<T>(maxQueued), before);
    EveryRunIsGood(w, [e]);
    assert Exec(w, [e]) == Apply(w, e);
    BoundRunsDeliver(Apply(w, e), after);
  }

  /** The events that wake a sleeping worker; a queue of length zero accepts no item. */
  predicate Wakes<T>(e: Event<T>, maxQueued: Option<nat>)
  {
    match e
    case Spurious => true
    case SourceNext(_) => maxQueued != Some(0)
    case SourceComplete => true
    case SourceError(_) => true
    case _ => false
  }

  /** Asleep at every moment of the run. */
  ghost predicate Sleeps<T>(w: Worker<T>, events: seq<Event<T>>)
    requires IsRun(w, events)
    decreases |events|
  {
    w.at.Asleep? && (events != [] ==> Sleeps(Apply(w, events[0]), events[1..]))
  }

  /** A sleeping worker, cancelled or not, sleeps on exactly while none of those occurs; cancel() is none of them. */
  lemma {:induction false} SleepsUntilWoken<T>(w: Worker<T>, events: seq<Event<T>>)
    requires Good(w) && w.at.Asleep? && IsRun(w, events)
    ensures Sleeps(w, events) <==> forall i :: 0 <= i < |events| ==> !Wakes(events[i], w.maxQueued)
    decreases |events|
  {
    if events != [] {
      var e := events[0];
      var next := Apply(w, e);
      EveryRunIsGood(w, [e]);
      assert Exec(w, [e]) == next;
      assert next.at.Asleep? <==> !Wakes(e, w.maxQueued);
      if next.at.Asleep? {
        SleepsUntilWoken(next, events[1..]);
        assert forall i :: 0 < i < |events| ==> events[i] == events[1..][i - 1];
        assert forall i :: 0 <= i < |events[1..]| ==> events[1..][i] == events[i + 1];
      }
    }
  }
}
