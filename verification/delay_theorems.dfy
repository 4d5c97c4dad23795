/** What the delay operator promises over every run, and when it fails. */
module DelayTheorems {
  import opened Histories
  import opened Demand
  import opened DelayReference
  import opened DelayInvariants

  ghost predicate Standing<T>(w: World<T>, s: Delaying<T>, outside: bool)
  {
    Settled(w, s, outside) && (s.fate == Fine ==> !s.flags.delivering)
  }

  lemma OccurrenceKeepsStanding<T(!new)>(w: World<T>, s: Delaying<T>, o: Occurrence, outside: bool)
    requires Resting(w, s, outside)
    ensures var t := Occurred(w, s, o);
      && Standing(w, t, outside || o.SinkCancels?)
      && (Ample(w, s) ==> Ample(w, t))
      && (o.SinkRequests? && !Closed(s.log) && s.flags.active && Total(w, s) <= s.needs + o.n ==> Ample(w, t))
      && (NeverAsks(w.react) && !o.SinkRequests? ==> Asked(t.log) == Asked(s.log))
      && (t.flags.timer.Failed? ==> s.flags.timer.Failed? || o.TimerFails?)
  {
    hide Inv;
    RestingIsCallable(w, s, outside);
    match o
    case SinkRequests(n) =>
      if !Closed(s.log) {
        RequestKeepsSettled(w, s, n, outside);
      }
    case SinkCancels =>
      if !Closed(s.log) {
        Outside(w, s, outside);
        CancellingKeepsInv(w, s, true);
      }
    case SourceSignals =>
      if CanSignal(w, s) {
        SignalKeepsSettled(w, s, outside);
      }
    case TimerFires =>
      if s.flags.timer.Running? && s.buffer != [] && !s.flags.delivering {
        var r := s.(flags := s.flags.(timer := Off));
        TimerOff(w, s, outside);
        FireKeepsSettled(w, r, outside);
      }
    case TimerFails =>
      if s.flags.timer.Running? {
        TimerGone(w, s, outside);
      }
  }

  lemma TimerGone<T(!new)>(w: World<T>, s: Delaying<T>, outside: bool)
    requires Resting(w, s, outside) && s.flags.timer.Running?
    ensures var r := s.(flags := s.flags.(timer := Failed));
      Resting(w, r, outside) && (Ample(w, s) ==> Ample(w, r))
  {
  }

  lemma RestingIsCallable<T>(w: World<T>, s: Delaying<T>, outside: bool)
    requires Resting(w, s, outside)
    ensures Callable(w, s, outside) && Settled(w, s, outside) && Settled(w, s, true)
  {
  }

  lemma Outside<T>(w: World<T>, s: Delaying<T>, outside: bool)
    requires Callable(w, s, outside)
    ensures Callable(w, s, true)
  {
  }

  lemma TimerOff<T(!new)>(w: World<T>, s: Delaying<T>, outside: bool)
    requires Resting(w, s, outside) && s.flags.timer.Running?
    ensures var r := s.(flags := s.flags.(timer := Off));
      Ripe(w, r, outside) && (Ample(w, s) ==> Ample(w, r)) && Total(w, r) == Total(w, s)
  {
  }

  ghost predicate SinkEverCancels(occurrences: seq<Occurrence>)
  {
    exists i :: 0 <= i < |occurrences| && occurrences[i].SinkCancels?
  }

  ghost predicate SinkEverRequests(occurrences: seq<Occurrence>)
  {
    exists i :: 0 <= i < |occurrences| && occurrences[i].SinkRequests?
  }

  ghost predicate TimerEverFails(occurrences: seq<Occurrence>)
  {
    exists i :: 0 <= i < |occurrences| && occurrences[i].TimerFails?
  }

  lemma {:induction false} RunKeepsStanding<T(!new)>(w: World<T>, s: Delaying<T>, occurrences: seq<Occurrence>,
                                                     outside: bool)
    requires Standing(w, s, outside)
    ensures var t := AllOccurred(w, s, occurrences);
      && Standing(w, t, outside || SinkEverCancels(occurrences))
      && (Ample(w, s) ==> Ample(w, t))
      && (NeverAsks(w.react) && !SinkEverRequests(occurrences) ==> Asked(t.log) == Asked(s.log))
      && (t.flags.timer.Failed? ==> s.flags.timer.Failed? || TimerEverFails(occurrences))
    decreases |occurrences|
  {
    hide Settled, Ample;
    if occurrences == [] || s.fate != Fine || s.flags.deleted {
      MayBeOutside(w, s, outside, outside || SinkEverCancels(occurrences));
    } else {
      var o, rest := occurrences[0], occurrences[1..];
      StandingRests(w, s, outside);
      OccurrenceKeepsStanding(w, s, o, outside);
      RunKeepsStanding(w, Occurred(w, s, o), rest, outside || o.SinkCancels?);
      assert occurrences == [o] + rest;
      assert o.SinkCancels? ==> occurrences[0].SinkCancels?;
      assert forall i :: 0 <= i < |rest| ==> rest[i] == occurrences[i + 1];
      MayBeOutside(w, AllOccurred(w, Occurred(w, s, o), rest),
                   outside || o.SinkCancels? || SinkEverCancels(rest), outside || SinkEverCancels(occurrences));
      assert !SinkEverRequests(occurrences) ==> !o.SinkRequests? && !SinkEverRequests(rest);
      assert !TimerEverFails(occurrences) ==> !o.TimerFails? && !TimerEverFails(rest);
    }
  }

  lemma MayBeOutside<T>(w: World<T>, s: Delaying<T>, outside: bool, more: bool)
    requires Standing(w, s, outside) && (outside ==> more)
    ensures Standing(w, s, more)
  {
  }

  lemma StandingRests<T>(w: World<T>, s: Delaying<T>, outside: bool)
    requires Standing(w, s, outside) && s.fate == Fine && !s.flags.deleted
    ensures Resting(w, s, outside)
  {
  }

  lemma FreshStands<T>(w: World<T>)
    ensures Resting(w, FreshDelay<T>(), false) && Standing(w, FreshDelay<T>(), false)
  {
    assert w.script.items[..0] == [];
  }

  /**
   Every run, with any source, any timers and any sink: at most the watermark is buffered or on
   its way; what has come is delivered or buffered, in order; a CHECK fails only for a request
   that takes the outstanding demand beyond an int, and exactly then, or after a rash request;
   the sink alone cancels; and the end comes after all items.
   */
  lemma EveryRun<T(!new)>(w: World<T>, occurrences: seq<Occurrence>)
    ensures var t := AllOccurred(w, FreshDelay(), occurrences);
      && Lawful(t.log) && |t.buffer| + t.waiting <= 20 && t.waiting == t.granted - t.sent
      && t.sent <= |w.script.items| && Received(t.log) + Undelivered(t) == w.script.items[..t.sent]
      && (t.fate == Overflow <==> t.flags.active && Needs(t.log) > 2_147_483_647)
      && (t.fate == Overdrawn ==> t.rash && 2 <= Asked(t.log))
      && (t.fate == Fine && !t.flags.deleted ==>
            (!t.flags.timer.Off? <==> t.buffer != [])
              && (t.flags.active && 0 < t.needs && t.buffer == [] ==> 0 < t.waiting))
      && (t.flags.timer.Failed? ==> TimerEverFails(occurrences))
      && (IsCancelled(t.log) ==> SinkEverCancels(occurrences) || Cancels(t.log, w.react))
      && (HasEnded(t.log) ==> Received(t.log) == w.script.items && t.log.event.ending == w.script.ending)
  {
    hide Total;
    FreshStands(w);
    RunKeepsStanding(w, FreshDelay(), occurrences, false);
  }

  /** Nothing can happen any more by itself. */
  predicate Idle<T>(w: World<T>, s: Delaying<T>)
  {
    s.flags.deleted || (!CanSignal(w, s) && !s.flags.timer.Running?)
  }

  /**
   A sink whose first request covers the whole list never gets more than it asked for, whatever
   it does later. If it asks no more, no CHECK fails; and unless it cancels or a timer fails,
   when nothing can happen any more it has all items and the end.
   */
  lemma OneRequestForAll<T(!new)>(w: World<T>, n: pos, rest: seq<Occurrence>)
    requires |w.script.items| <= n <= INT_MAX
    ensures var t := AllOccurred(w, FreshDelay(), [SinkRequests(n)] + rest);
      && t.fate != Overdrawn
      && (NeverAsks(w.react) && !SinkEverRequests(rest) ==> t.fate == Fine)
      && (t.fate == Fine && Idle(w, t) && !IsCancelled(t.log) && !TimerEverFails(rest) ==>
            HasEnded(t.log) && Received(t.log) == w.script.items && t.log.event.ending == w.script.ending)
  {
    var f := FreshDelay<T>();
    var occurrences := [SinkRequests(n)] + rest;
    FreshStands(w);
    var s := Occurred(w, f, SinkRequests(n));
    assert occurrences[0] == SinkRequests(n) && occurrences[1..] == rest;
    FirstRequest(w, n);
    RunKeepsStanding(w, s, rest, false);
    var t := AllOccurred(w, s, rest);
    assert AllOccurred(w, f, occurrences) == t;
    IdleMeansEnded(w, t, false || SinkEverCancels(rest));
    StandingOverflow(w, t, false || SinkEverCancels(rest));
    if NeverAsks(w.react) && !SinkEverRequests(rest) {
      assert Asked(t.log) == n;
    }
  }

  lemma FirstRequest<T(!new)>(w: World<T>, n: pos)
    ensures var s := Occurred(w, FreshDelay(), SinkRequests(n));
      && Standing(w, s, false)
      && (|w.script.items| <= n <= INT_MAX ==> Ample(w, s))
      && (NeverAsks(w.react) ==> Asked(s.log) == n) && !s.flags.timer.Failed?
  {
    FreshStands(w);
    OccurrenceKeepsStanding(w, FreshDelay(), SinkRequests(n), false);
    RestingIsCallable(w, FreshDelay(), false);
    RequestKeepsSettled(w, FreshDelay(), n, false);
  }

  lemma StandingOverflow<T>(w: World<T>, t: Delaying<T>, outside: bool)
    requires Standing(w, t, outside)
    ensures t.fate == Overflow ==> Asked(t.log) > INT_MAX
    ensures t.fate == Overdrawn ==> 2 <= Asked(t.log)
  {
  }

  lemma IdleMeansEnded<T(!new)>(w: World<T>, t: Delaying<T>, outside: bool)
    requires Standing(w, t, outside) && Ample(w, t)
    ensures t.fate == Fine && Idle(w, t) && !IsCancelled(t.log) && !t.flags.timer.Failed? ==>
      HasEnded(t.log) && Received(t.log) == w.script.items && t.log.event.ending == w.script.ending
  {
  }

  // ----- a timer that reports an error

  /** Nothing will be handed over any more. */
  ghost predicate Stalled<T>(s: Delaying<T>)
  {
    s.flags.timer.Failed? && s.buffer != [] && !s.flags.delivering && !s.flags.deleted
  }

  /** The sink hears no more than it did. */
  ghost predicate HearsNoMore<T>(s: Delaying<T>, t: Delaying<T>)
  {
    Stalled(t) && Received(t.log) == Received(s.log) && (t.fate == Overdrawn ==> s.fate == Overdrawn)
      && !HasEnded(t.log)
  }

  lemma SourceOfStalled<T>(w: World<T>, s: Delaying<T>)
    requires Stalled(s) && !HasEnded(s.log)
    ensures HearsNoMore(s, SourceSignalled(w, s))
    decreases Unsent(w, s), if s.flags.active then 1 else 0
  {
    if s.fate == Fine && CanSignal(w, s) && w.goesOn(s.log, s.sent) {
      SourceOfStalled(w, Signalled(w, s));
    }
  }

  lemma StalledStep<T>(w: World<T>, s: Delaying<T>, o: Occurrence)
    requires Stalled(s) && !HasEnded(s.log)
    ensures HearsNoMore(s, Occurred(w, s, o))
  {
    hide SourceSignalled, Signalled;
    match o
    case SinkRequests(n) =>
      if !Closed(s.log) && s.flags.active && n <= INT_MAX - s.needs {
        CountingIsRequesting(w, s, n);
        assert HearsNoMore(s, Counted(s, n));
        SourceOfStalled(w, Counted(s, n));
      }
    case SourceSignals =>
      if CanSignal(w, s) {
        SignalOfStalled(w, s);
      }
    case _ =>
  }

  lemma SignalOfStalled<T>(w: World<T>, s: Delaying<T>)
    requires Stalled(s) && !HasEnded(s.log) && CanSignal(w, s)
    ensures HearsNoMore(s, Signalled(w, s))
  {
  }

  lemma {:induction false} StalledForGood<T>(w: World<T>, s: Delaying<T>, occurrences: seq<Occurrence>)
    requires Stalled(s) && !HasEnded(s.log)
    ensures HearsNoMore(s, AllOccurred(w, s, occurrences))
    decreases |occurrences|
  {
    hide Occurred;
    if occurrences != [] && s.fate == Fine {
      StalledStep(w, s, occurrences[0]);
      StalledForGood(w, Occurred(w, s, occurrences[0]), occurrences[1..]);
    }
  }

  /**
   A timer that reports an error stalls the operator for good: whatever happens afterwards, the
   sink gets no item and no end, and the operator is not deleted, not even after a cancellation.
   */
  lemma FailedTimerStalls<T(!new)>(w: World<T>, before: seq<Occurrence>, after: seq<Occurrence>)
    requires AllOccurred(w, FreshDelay(), before).flags.timer.Failed?
    requires AllOccurred(w, FreshDelay(), before).fate == Fine && !AllOccurred(w, FreshDelay(), before).flags.deleted
    ensures var s := AllOccurred(w, FreshDelay(), before); var t := AllOccurred(w, s, after);
      Received(t.log) == Received(s.log) && !HasEnded(t.log) && !t.flags.deleted
  {
    var s := AllOccurred(w, FreshDelay(), before);
    FreshStands(w);
    RunKeepsStanding(w, FreshDelay(), before, false);
    StandingRests(w, s, false || SinkEverCancels(before));
    StalledForGood(w, s, after);
  }

  // ----- a single request that does not cover the list

  /** A single request for one item, or for all of them, never fails the CHECK on the demand. */
  lemma SingleRequestFailsOnlyBetween<T(!new)>(w: World<T>, n: pos, rest: seq<Occurrence>)
    requires n <= INT_MAX && NeverAsks(w.react) && !SinkEverRequests(rest)
    ensures AllOccurred(w, FreshDelay(), [SinkRequests(n)] + rest).fate != Fine ==> 2 <= n < |w.script.items|
  {
    var occurrences := [SinkRequests(n)] + rest;
    if |w.script.items| <= n {
      OneRequestForAll(w, n, rest);
    } else {
      FreshStands(w);
      assert occurrences[0] == SinkRequests(n) && occurrences[1..] == rest;
      FirstRequest(w, n);
      var s := Occurred(w, FreshDelay(), SinkRequests(n));
      RunKeepsStanding(w, s, rest, false);
      StandingOverflow(w, AllOccurred(w, s, rest), false || SinkEverCancels(rest));
      assert AllOccurred(w, FreshDelay(), occurrences) == AllOccurred(w, s, rest);
    }
  }

  /** A source that sends one item at a time, later; timers that fire at once; a sink that never calls back. */
  function OneByOne<T>(script: Script<T>): World<T>
  {
    World(script, (l: Log<T>, k: nat) => false, (l: Log<T>, t: T) => true, (l: Log<T>) => Reaction([], false))
  }

  /** Waiting for the next of `k` items more that the sink wants. */
  ghost predicate Waits<T>(w: World<T>, s: Delaying<T>, k: nat, waiting: nat)
  {
    && s.fate == Fine && s.buffer == [] && s.needs == k && s.waiting == waiting
    && s.flags == Flags(true, false, false, Off, false, false)
  }

  lemma NextItem<T>(script: Script<T>, s: Delaying<T>, k: nat, waiting: nat)
    requires Waits(OneByOne(script), s, k, waiting) && 0 < waiting <= WATERMARK && s.sent < |script.items|
    ensures var w := OneByOne(script); var t := Occurred(w, s, SourceSignals);
      if k == 0 then t.fate == Overdrawn
      else Waits(w, t, k - 1, waiting - 1 + Requesting(k - 1, 0, waiting - 1)) && t.sent == s.sent + 1
  {
    var w := OneByOne(script);
    var p := Pushed(w, s);
    assert p.buffer == [script.items[s.sent]];
    assert Occurred(w, s, SourceSignals) == Signalled(w, s) == Scheduled(w, p) == Fired(w, p);
    if k > 0 {
      var h := Handed(p);
      assert w.react(h.log) == Reaction([], false);
      assert Asking(w, h, []) == h && SinkRan(w, h) == h;
      var d := Delivered(w, p);
      assert d == h.(flags := h.flags.(delivering := false), buffer := []);
      assert AfterDelivery(w, d) == ToppedUp(w, d);
      NobodySignals(w, d);
    }
  }

  lemma NobodySignals<T>(w: World<T>, d: Delaying<T>)
    requires forall l, k: nat :: !w.goesOn(l, k)
    ensures var m := Requesting(d.needs, |d.buffer|, d.waiting); var t := ToppedUp(w, d);
      && t.log == d.log && t.buffer == d.buffer && t.needs == d.needs && t.waiting == d.waiting + m
      && t.sent == d.sent && t.flags == d.flags && t.fate == d.fate
  {
  }

  /** `n` signals of the source. */
  function Signals(n: nat): seq<Occurrence>
  {
    seq(n, _ => SourceSignals)
  }

  /** As long as the sink still wants something, more than that is on its way. */
  lemma {:induction false} TheSurplusArrives<T>(script: Script<T>, s: Delaying<T>, k: nat, waiting: nat)
    requires Waits(OneByOne(script), s, k, waiting) && s.sent + k < |script.items|
    requires (if k == 0 then 1 else 2) <= waiting <= WATERMARK
    ensures AllOccurred(OneByOne(script), s, Signals(k + 1)).fate == Overdrawn
    decreases k
  {
    var w := OneByOne(script);
    var t := Occurred(w, s, SourceSignals);
    NextItem(script, s, k, waiting);
    assert Signals(k + 1)[0] == SourceSignals && Signals(k + 1)[1..] == Signals(k);
    if k > 0 {
      TheSurplusArrives(script, t, k - 1, t.waiting);
    } else {
      assert AllOccurred(w, t, Signals(0)) == t;
    }
  }

  /** A single request for two items or more, and not for all of them, fails it with some source and some timers. */
  lemma SingleRequestCanFail<T>(script: Script<T>, n: pos)
    requires 2 <= n < |script.items| && n <= INT_MAX
    ensures AllOccurred(OneByOne(script), FreshDelay(), [SinkRequests(n)] + Signals(n + 1)).fate == Overdrawn
  {
    var w := OneByOne(script);
    var f := FreshDelay<T>();
    var occurrences := [SinkRequests(n)] + Signals(n + 1);
    assert occurrences[0] == SinkRequests(n) && occurrences[1..] == Signals(n + 1);
    var asked := f.(log := After(Start, Requested(n)), needs := n);
    NobodySignals(w, asked);
    var s := Occurred(w, f, SinkRequests(n));
    assert s == ToppedUp(w, asked);
    TheSurplusArrives(script, s, n, s.waiting);
  }

  /** Can some source, some timers and some order of events make a CHECK fail? */
  ghost predicate CanFail<T(!new)>(script: Script<T>, n: pos)
  {
    exists w: World<T>, rest ::
      && w.script == script && NeverAsks(w.react) && !SinkEverRequests(rest)
      && AllOccurred(w, FreshDelay(), [SinkRequests(n)] + rest).fate != Fine
  }

  /** The exact condition for a sink that asks once, for n items, and never again. */
  lemma SingleRequestFailsExactlyWhen<T(!new)>(script: Script<T>, n: pos)
    requires n <= INT_MAX
    ensures CanFail(script, n) <==> 2 <= n < |script.items|
  {
    if 2 <= n < |script.items| {
      SingleRequestCanFail(script, n);
      var w := OneByOne(script);
      assert NeverAsks(w.react) && !SinkEverRequests(Signals(n + 1));
    }
    if CanFail(script, n) {
      var w: World<T>, rest :| w.script == script && NeverAsks(w.react) && !SinkEverRequests(rest)
        && AllOccurred(w, FreshDelay(), [SinkRequests(n)] + rest).fate != Fine;
      SingleRequestFailsOnlyBetween(w, n, rest);
    }
  }
}
