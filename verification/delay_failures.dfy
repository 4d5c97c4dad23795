/** The failing runs of the delay operator, and for which sinks there are any. */
module DelayFailures {
  import opened Histories
  import opened Demand
  import opened DelayReference
  import opened DelayInvariants
  import opened DelayTheorems
  import opened DelaySinks

  /** A source that signals later, and timers that take time. */
  function Slow<T>(script: Script<T>, react: Subscriber<T>): World<T>
  {
    World(script, (l: Log<T>, k: nat) => false, (l: Log<T>, t: T) => false, react)
  }

  /** These events end with a failing CHECK, without a request from outside. */
  ghost predicate Breaks<T>(w: World<T>, s: Delaying<T>, occurrences: seq<Occurrence>)
  {
    !SinkEverRequests(occurrences) && AllOccurred(w, s, occurrences).fate != Fine
  }

  lemma BreaksLater<T>(w: World<T>, s: Delaying<T>, o: Occurrence, rest: seq<Occurrence>)
    requires s.fate == Fine && !s.flags.deleted && !o.SinkRequests? && Breaks(w, Occurred(w, s, o), rest)
    ensures Breaks(w, s, [o] + rest)
  {
    var occurrences := [o] + rest;
    assert occurrences[0] == o && occurrences[1..] == rest;
    forall i | 0 <= i < |occurrences| ensures !occurrences[i].SinkRequests? {
      assert i > 0 ==> occurrences[i] == rest[i - 1];
    }
  }

  // ----- the sink starves

  lemma {:induction false} IgnoredAsking<T>(w: World<T>, s: Delaying<T>, requests: seq<pos>)
    requires !s.flags.active && s.fate == Fine
    ensures Asking(w, s, requests) == s.(log := Ask(s.log, requests))
    decreases |requests|
  {
    if requests != [] {
      IgnoredAsking(w, RequestMade(w, s, requests[0]), requests[1..]);
    }
  }

  /** The source has ended, and the timer is running. */
  ghost predicate Draining<T>(s: Delaying<T>)
  {
    s.fate == Fine && s.buffer != [] && s.flags == Flags(false, false, s.flags.error, Running, false, false)
  }

  lemma DrainingStep<T>(script: Script<T>, react: Subscriber<T>, s: Delaying<T>)
    requires Draining(s) && Starves(react, s.buffer, s.log, s.needs)
    ensures var t := Occurred(Slow(script, react), s, TimerFires);
      if s.needs == 0 then t.fate == Overdrawn
      else Draining(t) && t.buffer == s.buffer[1..] && Starves(react, t.buffer, t.log, t.needs)
  {
    hide Starves;
    var w := Slow(script, react);
    var f := s.(flags := s.flags.(timer := Off));
    assert Occurred(w, s, TimerFires) == Fired(w, f);
    if s.needs > 0 {
      var h := Handed(f);
      var r := react(h.log);
      StarvingGoesOn(react, s.buffer, s.log, s.needs);
      IgnoredAsking(w, h, r.requests);
      assert SinkRan(w, h) == h.(log := Ask(h.log, r.requests));
      var d := Delivered(w, f);
      assert d == h.(log := Ask(h.log, r.requests), flags := f.flags, buffer := s.buffer[1..]);
      assert Fired(w, f) == AfterDelivery(w, d) == Scheduled(w, d);
    }
  }

  lemma StarvingGoesOn<T>(react: Subscriber<T>, left: seq<T>, log: Log<T>, needs: nat)
    requires Starves(react, left, log, needs) && 0 < needs
    ensures left != [] && left[1..] != []
    ensures var handed := After(log, Next(left[0])); var r := react(handed);
      !r.cancels && Starves(react, left[1..], Ask(handed, r.requests), needs - 1)
  {
  }

  lemma {:induction false} DrainingBreaks<T>(script: Script<T>, react: Subscriber<T>, s: Delaying<T>)
      returns (occurrences: seq<Occurrence>)
    requires Draining(s) && Starves(react, s.buffer, s.log, s.needs)
    ensures Breaks(Slow(script, react), s, occurrences)
    decreases |s.buffer|
  {
    hide Starves, Occurred;
    var w := Slow(script, react);
    var t := Occurred(w, s, TimerFires);
    DrainingStep(script, react, s);
    occurrences := [];
    if s.needs > 0 {
      occurrences := DrainingBreaks(script, react, t);
    }
    BreaksLater(w, s, TimerFires, occurrences);
    occurrences := [TimerFires] + occurrences;
  }

  /** The source sends all that is left, and ends; no timer fires meanwhile. */
  lemma {:induction false} SendingAllBreaks<T>(script: Script<T>, react: Subscriber<T>, s: Delaying<T>)
      returns (occurrences: seq<Occurrence>)
    requires s.fate == Fine && s.sent <= |script.items| && |script.items| - s.sent <= s.waiting
    requires s.flags == Flags(true, false, false, if s.buffer != [] then Running else Off, false, false)
    requires Starves(react, s.buffer + script.items[s.sent..], s.log, s.needs)
    ensures Breaks(Slow(script, react), s, occurrences)
    decreases |script.items| - s.sent
  {
    var w := Slow(script, react);
    var t := Occurred(w, s, SourceSignals);
    if s.sent < |script.items| {
      var p := Pushed(w, s);
      assert t == if |p.buffer| == 1 then Scheduled(w, p) else p;
      assert t == p.(flags := p.flags.(timer := Running));
      assert s.buffer + script.items[s.sent..] == t.buffer + script.items[t.sent..];
      occurrences := SendingAllBreaks(script, react, t);
    } else {
      assert s.buffer + script.items[s.sent..] == s.buffer;
      occurrences := DrainingBreaks(script, react, t);
    }
    BreaksLater(w, s, SourceSignals, occurrences);
    occurrences := [SourceSignals] + occurrences;
  }

  // ----- one item at a time

  /** Nothing is buffered, and no timer runs. */
  ghost predicate Bare<T>(script: Script<T>, s: Delaying<T>)
  {
    && s.fate == Fine && s.buffer == [] && s.sent <= |script.items| && s.waiting <= WATERMARK
    && s.flags == Flags(true, false, false, Off, false, false)
  }

  /** The next item has come and its timer has fired. */
  function OneHanded<T>(script: Script<T>, s: Delaying<T>): Delaying<T>
    requires Bare(script, s) && s.sent < |script.items| && 0 < s.waiting && 0 < s.needs
  {
    Handed(s.(waiting := s.waiting - 1, sent := s.sent + 1, buffer := [script.items[s.sent]]))
  }

  lemma OneItemComes<T>(script: Script<T>, react: Subscriber<T>, s: Delaying<T>)
    requires Bare(script, s) && s.sent < |script.items| && 0 < s.waiting
    ensures var w := Slow(script, react); var p := Occurred(w, s, SourceSignals); var t := Occurred(w, p, TimerFires);
      && p.fate == Fine && !p.flags.deleted
      && if s.needs == 0 then t.fate == Overdrawn
         else var d := Delivered(w, s.(waiting := s.waiting - 1, sent := s.sent + 1, buffer := [script.items[s.sent]]));
           t == if d.fate != Fine then d else AfterDelivery(w, d)
  {
    hide Delivered, AfterDelivery;
    var w := Slow(script, react);
    var p := Occurred(w, s, SourceSignals);
    assert p == Scheduled(w, Pushed(w, s)) && Pushed(w, s).buffer == [script.items[s.sent]];
    assert p.(flags := p.flags.(timer := Off)) == Pushed(w, s);
  }

  /** Asks at most once from each on_next. */
  ghost predicate AsksOnce<T(!new)>(react: Subscriber<T>)
  {
    forall l: Log<T> :: |react(l).requests| <= 1
  }


  /** What is ahead after the requests of one on_next. */
  function ToppedOnce(requests: seq<pos>, needs: nat, ahead: nat): nat
  {
    if requests == [] then ahead else Topped(needs + requests[0], ahead)
  }

  /** At most one request: either it goes beyond an int, or what matters is the rest after it. */
  lemma ExposedAfterOneRequest<T>(react: Subscriber<T>, requests: seq<pos>, cancels: bool, left: seq<T>, log: Log<T>,
                                  needs: nat, ahead: nat)
    requires 0 < ahead <= WATERMARK && |requests| <= 1
      && ExposedAsking(react, requests, cancels, left, log, needs, ahead)
    ensures needs + Sum(requests) > INT_MAX
      || (!cancels && Exposed(react, left, Ask(log, requests), needs + Sum(requests),
                              Topped(needs + Sum(requests), ToppedOnce(requests, needs, ahead) - 1)))
  {
    if requests != [] {
      var wanted := needs + requests[0];
      var asked := After(log, Requested(requests[0]));
      assert requests[1..] == [] && Sum(requests) == requests[0] && Ask(log, requests) == asked;
      assert Ask(asked, requests[1..]) == asked;
    }
  }

  /** The same in the operator: the sink reacts, and the operator asks for more. */
  lemma ReactsAndTopsUp<T>(script: Script<T>, react: Subscriber<T>, h: Delaying<T>, requests: seq<pos>)
    requires h.fate == Fine && |h.buffer| == 1 && h.waiting < WATERMARK && |requests| <= 1
    requires h.flags == Flags(true, false, false, Off, true, false)
    ensures var t := Asking(Slow(script, react), h, requests);
      if requests != [] && h.needs + Sum(requests) > INT_MAX then t.fate == Overflow
      else
        && t.log == Ask(h.log, requests) && t.needs == h.needs + Sum(requests) && t.buffer == h.buffer
        && t.waiting == ToppedOnce(requests, h.needs, 1 + h.waiting) - 1
        && t.sent == h.sent && t.fate == Fine && t.flags == h.flags
  {
    if requests != [] {
      var w := Slow(script, react);
      assert requests[1..] == [] && Sum(requests) == requests[0];
      assert Ask(h.log, requests) == After(h.log, Requested(requests[0]));
      var t := RequestMade(w, h, requests[0]);
      assert Asking(w, h, requests) == Asking(w, t, []) == t;
      if h.needs + requests[0] <= INT_MAX {
        var a := h.(log := After(h.log, Requested(requests[0])), needs := h.needs + requests[0]);
        NobodySignals(w, a);
        ToppingUpAdds(a.needs, 1, a.waiting);
      }
    }
  }

  lemma RestsBare<T>(script: Script<T>, react: Subscriber<T>, d: Delaying<T>)
    requires Bare(script, d)
    ensures var t := AfterDelivery(Slow(script, react), d);
      && Bare(script, t) && t.log == d.log && t.needs == d.needs && t.sent == d.sent
      && t.waiting == Topped(d.needs, d.waiting)
  {
    NobodySignals(Slow(script, react), d);
    ToppingUpAdds(d.needs, 0, d.waiting);
  }

  /** An exposed course can be run. */
  lemma {:induction false} ExposedBreaks<T(!new)>(script: Script<T>, react: Subscriber<T>, s: Delaying<T>)
      returns (occurrences: seq<Occurrence>)
    requires AsksOnce(react) && Bare(script, s) && s.needs <= INT_MAX
    requires Exposed(react, script.items[s.sent..], s.log, s.needs, s.waiting)
    ensures Breaks(Slow(script, react), s, occurrences)
    decreases |script.items| - s.sent
  {
    hide Starves, ExposedAsking, Breaks, Asking, Occurred;
    var w := Slow(script, react);
    var left := script.items[s.sent..];
    if |left| <= s.waiting && Starves(react, left, s.log, s.needs) {
      assert s.buffer + left == left;
      occurrences := SendingAllBreaks(script, react, s);
    } else {
      var p := Occurred(w, s, SourceSignals);
      var t := Occurred(w, p, TimerFires);
      OneItemComes(script, react, s);
      occurrences := [];
      if s.needs > 0 {
        OneItemIsHanded(script, react, s);
        if t.fate == Fine {
          occurrences := ExposedBreaks(script, react, t);
        }
      }
      FailedBreaks(w, t, occurrences);
      BreaksLater(w, p, TimerFires, occurrences);
      occurrences := [TimerFires] + occurrences;
      BreaksLater(w, s, SourceSignals, occurrences);
      occurrences := [SourceSignals] + occurrences;
    }
  }

  lemma FailedBreaks<T>(w: World<T>, s: Delaying<T>, occurrences: seq<Occurrence>)
    requires (s.fate != Fine && occurrences == []) || Breaks(w, s, occurrences)
    ensures Breaks(w, s, occurrences)
  {
  }

  /** The course goes on, still exposed. */
  lemma OneItemIsHanded<T(!new)>(script: Script<T>, react: Subscriber<T>, s: Delaying<T>)
    requires AsksOnce(react) && Bare(script, s) && s.needs <= INT_MAX && 0 < s.needs && 0 < s.waiting
      && s.sent < |script.items|
    requires var left := script.items[s.sent..]; var handed := After(s.log, Next(left[0]));
      ExposedAsking(react, react(handed).requests, react(handed).cancels, left[1..], handed, s.needs - 1, s.waiting)
    ensures var w := Slow(script, react); var t := Occurred(w, Occurred(w, s, SourceSignals), TimerFires);
      t.fate == Fine ==>
        && Bare(script, t) && t.needs <= INT_MAX && t.sent == s.sent + 1
        && Exposed(react, script.items[t.sent..], t.log, t.needs, t.waiting)
  {
    hide Starves, Exposed, ExposedAsking, Asking, Occurred;
    var w := Slow(script, react);
    var h := OneHanded(script, s);
    var r := react(h.log);
    assert |r.requests| <= 1;
    assert script.items[s.sent..][1..] == script.items[h.sent..];
    OneItemComes(script, react, s);
    ExposedAfterOneRequest(react, r.requests, r.cancels, script.items[h.sent..], h.log, h.needs, 1 + h.waiting);
    ReactsAndTopsUp(script, react, h, r.requests);
    var asked := Asking(w, h, r.requests);
    if asked.fate == Fine {
      var d := asked.(flags := asked.flags.(delivering := false), buffer := []);
      RestsBare(script, react, d);
    }
  }

  // ----- the exact condition

  /** Can some source, some timers and some order of events make a CHECK fail? */
  ghost predicate SomeRunFails<T(!new)>(script: Script<T>, react: Subscriber<T>, n: pos)
  {
    exists w: World<T>, rest ::
      && w.script == script && w.react == react && !SinkEverRequests(rest)
      && AllOccurred(w, FreshDelay(), [SinkRequests(n)] + rest).fate != Fine
  }

  lemma FirstRequestOverflows<T>(script: Script<T>, react: Subscriber<T>, n: pos)
    requires n > INT_MAX
    ensures Breaks(Slow(script, react), Occurred(Slow(script, react), FreshDelay(), SinkRequests(n)), [])
  {
  }

  lemma FirstRequestIsBare<T>(script: Script<T>, react: Subscriber<T>, n: pos)
    requires n <= INT_MAX
    ensures var s := Occurred(Slow(script, react), FreshDelay(), SinkRequests(n));
      && Bare(script, s) && s.log == After(Start, Requested(n)) && s.needs == n && s.sent == 0
        && s.waiting == Topped(n, 0)
  {
    var w := Slow(script, react);
    var a := FreshDelay<T>().(log := After(Start, Requested(n)), needs := n);
    NobodySignals(w, a);
    ToppingUpAdds(n, 0, 0);
    assert Occurred(w, FreshDelay(), SinkRequests(n)) == ToppedUp(w, a);
  }

  /**
   A sink that asks for n items at first and, at most once, from each on_next: some run fails a
   CHECK if and only if its course of single items is exposed. That the course is not exposed is
   enough for sinks that ask more often, too (NotExposedIsSafe).
   */
  lemma FailsExactlyWhenExposed<T(!new)>(script: Script<T>, react: Subscriber<T>, n: pos)
    requires AsksOnce(react)
    ensures SomeRunFails(script, react, n)
       <==> n > INT_MAX || Exposed(react, script.items, After(Start, Requested(n)), n, Topped(n, 0))
  {
    hide Exposed, AllOccurred, Occurred;
    if n > INT_MAX || Exposed(react, script.items, After(Start, Requested(n)), n, Topped(n, 0)) {
      var w := Slow(script, react);
      var s := Occurred(w, FreshDelay(), SinkRequests(n));
      var rest: seq<Occurrence> := [];
      if n > INT_MAX {
        FirstRequestOverflows(script, react, n);
      } else {
        FirstRequestIsBare(script, react, n);
        assert script.items[0..] == script.items;
        rest := ExposedBreaks(script, react, s);
      }
      RequestsThenBreaks(w, n, rest);
    }
    if SomeRunFails(script, react, n) && n <= INT_MAX {
      var w: World<T>, rest :| w.script == script && w.react == react && !SinkEverRequests(rest)
        && AllOccurred(w, FreshDelay(), [SinkRequests(n)] + rest).fate != Fine;
      if !Exposed(react, script.items, After(Start, Requested(n)), n, Topped(n, 0)) {
        NotExposedIsSafe(w, n, rest);
      }
    }
  }

  lemma RequestsThenBreaks<T>(w: World<T>, n: pos, rest: seq<Occurrence>)
    requires Breaks(w, Occurred(w, FreshDelay(), SinkRequests(n)), rest)
    ensures AllOccurred(w, FreshDelay(), [SinkRequests(n)] + rest).fate != Fine
  {
    var occurrences := [SinkRequests(n)] + rest;
    assert occurrences[0] == SinkRequests(n) && occurrences[1..] == rest;
  }

  // ----- the sinks that ask for one more item from every on_next

  ghost predicate AsksForOneMore<T(!new)>(react: Subscriber<T>)
  {
    forall l: Log<T> :: react(l) == Reaction([1], false)
  }

  lemma {:induction false} StarvesExactlyWhen<T(!new)>(react: Subscriber<T>, left: seq<T>, log: Log<T>, needs: nat)
    requires forall l: Log<T> :: !react(l).cancels
    ensures Starves(react, left, log, needs) <==> needs < |left|
    decreases |left|
  {
    if left != [] && needs != 0 {
      assert !react(After(log, Next(left[0]))).cancels;
      StarvesExactlyWhen(react, left[1..], Deliver(log, left[0], react), needs - 1);
    }
  }

  lemma OneMoreStep<T(!new)>(react: Subscriber<T>, left: seq<T>, log: Log<T>, n: pos, ahead: nat)
    requires AsksForOneMore(react) && n <= INT_MAX && 0 < ahead <= WATERMARK && left != []
    ensures var next := After(After(log, Next(left[0])), Requested(1));
      Exposed(react, left, log, n, ahead)
      <==> n < |left| <= ahead || n < |left| - 1 < Topped(n, ahead)
           || Exposed(react, left[1..], next, n, Topped(n, Topped(n, ahead) - 1))
  {
    var handed := After(log, Next(left[0]));
    var asked := After(handed, Requested(1));
    assert react(handed) == Reaction([1], false);
    StarvesExactlyWhen(react, left, log, n);
    var one: seq<pos> := [1];
    assert one[1..] == [] && Ask(asked, []) == asked;
    StarvesExactlyWhen(react, left[1..], asked, n);
    assert ExposedAsking(react, one, false, left[1..], handed, n - 1, ahead)
      <==> n < |left| - 1 < Topped(n, ahead) || ExposedAsking(react, [], false, left[1..], asked, n, Topped(n, ahead));
  }

  lemma {:induction false} OneMoreIsExposedExactlyWhen<T(!new)>(react: Subscriber<T>, left: seq<T>, log: Log<T>, n: pos,
                                                                ahead: nat)
    requires AsksForOneMore(react) && n <= INT_MAX && Topped(n, 0) <= ahead <= WATERMARK
    ensures Exposed(react, left, log, n, ahead) <==> n < WATERMARK && n + (if n < ahead then 1 else 2) <= |left|
    decreases |left|
  {
    if left != [] {
      OneMoreStep(react, left, log, n, ahead);
      var next := After(After(log, Next(left[0])), Requested(1));
      OneMoreIsExposedExactlyWhen(react, left[1..], next, n, Topped(n, Topped(n, ahead) - 1));
    }
  }

  /**
   A sink that asks for n items at first and for one more from every on_next, so that n are
   outstanding at every rest: some run fails a CHECK if and only if n is smaller than the
   watermark and the list longer than n + 1, or n is no int.
   */
  lemma OneMoreFailsExactlyWhen<T(!new)>(script: Script<T>, react: Subscriber<T>, n: pos)
    requires AsksForOneMore(react)
    ensures SomeRunFails(script, react, n) <==> n > 2_147_483_647 || (n < 20 && n + 2 <= |script.items|)
  {
    hide Exposed, SomeRunFails;
    FailsExactlyWhenExposed(script, react, n);
    if n <= INT_MAX {
      OneMoreIsExposedExactlyWhen(react, script.items, After(Start, Requested(n)), n, Topped(n, 0));
    }
  }

  // ----- a source that answers at once

  /** It sends all it is asked for, and ends, from inside of the request. */
  ghost predicate AnswersAtOnce<T(!new)>(w: World<T>)
  {
    forall l: Log<T>, k: nat :: w.goesOn(l, k)
  }

  /** At a rest one item is wanted, and it is buffered or on its way. */
  ghost predicate InStep<T>(w: World<T>, s: Delaying<T>)
  {
    && s.fate == Fine && !s.flags.delivering && s.sent <= |w.script.items|
    && (s.flags.cancelled ==> !s.flags.active)
    && (s.flags.cancelled || s.flags.deleted
        || if s.flags.active then s.needs == 1 && |s.buffer| + s.waiting == 1 else |s.buffer| <= s.needs)
  }

  /** One item is in the sink's hands, one is wanted and on its way: it comes at once, or the end does. */
  lemma AnswerComes<T(!new)>(w: World<T>, s: Delaying<T>)
    requires AnswersAtOnce(w) && s.fate == Fine && s.sent <= |w.script.items| && |s.buffer| == 1 && s.waiting == 1
    requires s.flags.active && s.flags.delivering && !s.flags.cancelled && !s.flags.deleted
    ensures var t := SourceSignalled(w, s);
      && t.fate == Fine && t.sent <= |w.script.items| && t.needs == s.needs
      && t.flags == s.flags.(active := t.flags.active, error := t.flags.error)
      && 1 <= |t.buffer| <= 2 && (t.flags.active ==> |t.buffer| == 2 && t.waiting == 0)
  {
    var t := Signalled(w, s);
    assert SourceSignalled(w, s) == SourceSignalled(w, t);
    if t.flags.active && t.sent == |w.script.items| {
      assert SourceSignalled(w, t) == SourceSignalled(w, SourceEnded(w, t)) == SourceEnded(w, t);
    }
  }

  lemma DeliveryInStep<T(!new)>(w: World<T>, s: Delaying<T>)
    requires AnswersAtOnce(w) && AsksForOneMore(w.react) && InStep(w, s) && s.buffer != []
    requires !s.flags.cancelled && !s.flags.deleted && 0 < s.needs
    ensures var d := Delivered(w, s);
      InStep(w, d) && !d.flags.deleted && (d.buffer == [] ==> !d.flags.active)
  {
    var h := Handed(s);
    var one: seq<pos> := [1];
    assert w.react(h.log) == Reaction(one, false) && one[1..] == [];
    var t := RequestMade(w, h, 1);
    assert SinkRan(w, h) == Asking(w, h, one);
    if s.flags.active {
      var c := Counted(h, 1);
      CountingIsRequesting(w, h, 1);
      AnswerComes(w, c);
    }
    assert Asking(w, t, []) == t;
    assert Asking(w, h, one) == t;
  }

  lemma SignalInStep<T(!new)>(w: World<T>, s: Delaying<T>)
    requires AnswersAtOnce(w) && AsksForOneMore(w.react) && InStep(w, s) && !s.flags.deleted && CanSignal(w, s)
    ensures InStep(w, Signalled(w, s))
    decreases Total(w, s), 4, 0, 0
  {
    if s.sent < |w.script.items| {
      ScheduleInStep(w, Pushed(w, s));
    }
  }

  lemma SourceInStep<T(!new)>(w: World<T>, s: Delaying<T>)
    requires AnswersAtOnce(w) && AsksForOneMore(w.react) && InStep(w, s)
    ensures InStep(w, SourceSignalled(w, s))
    decreases Total(w, s), 5, Unsent(w, s), if s.flags.active && !s.flags.deleted then 1 else 0
  {
    if !s.flags.deleted && CanSignal(w, s) && w.goesOn(s.log, s.sent) {
      SignalInStep(w, s);
      SourceInStep(w, Signalled(w, s));
    }
  }

  lemma ScheduleInStep<T(!new)>(w: World<T>, s: Delaying<T>)
    requires AnswersAtOnce(w) && AsksForOneMore(w.react) && InStep(w, s) && s.buffer != [] && !s.flags.deleted
    ensures InStep(w, Scheduled(w, s))
    decreases Total(w, s), 3, 0, 0
  {
    if w.immediate(s.log, s.buffer[0]) {
      FireInStep(w, s);
    }
  }

  lemma FireInStep<T(!new)>(w: World<T>, s: Delaying<T>)
    requires AnswersAtOnce(w) && AsksForOneMore(w.react) && InStep(w, s) && s.buffer != [] && !s.flags.deleted
    ensures InStep(w, Fired(w, s))
    decreases Total(w, s), 2, 0, 0
  {
    if !s.flags.cancelled {
      var d := Delivered(w, s);
      DeliveryInStep(w, s);
      if d.buffer != [] {
        ScheduleInStep(w, d);
      }
    }
  }

  lemma {:induction false} RunInStep<T(!new)>(w: World<T>, s: Delaying<T>, occurrences: seq<Occurrence>)
    requires AnswersAtOnce(w) && AsksForOneMore(w.react) && InStep(w, s) && !SinkEverRequests(occurrences)
    ensures InStep(w, AllOccurred(w, s, occurrences))
    decreases |occurrences|
  {
    if occurrences != [] && !s.flags.deleted {
      var o := occurrences[0];
      assert !o.SinkRequests?;
      if o.SourceSignals? && CanSignal(w, s) {
        SignalInStep(w, s);
      } else if o.TimerFires? && s.flags.timer.Running? && s.buffer != [] {
        FireInStep(w, s.(flags := s.flags.(timer := Off)));
      }
      assert forall i :: 0 <= i < |occurrences[1..]| ==> occurrences[1..][i] == occurrences[i + 1];
      RunInStep(w, Occurred(w, s, o), occurrences[1..]);
    }
  }

  /** With a source that answers at once, asking for one item at a time is safe, whatever the timers do. */
  lemma OneMoreIsSafeWithAnswersAtOnce<T(!new)>(w: World<T>, rest: seq<Occurrence>)
    requires AnswersAtOnce(w) && AsksForOneMore(w.react) && !SinkEverRequests(rest)
    ensures AllOccurred(w, FreshDelay(), [SinkRequests(1)] + rest).fate == Fine
  {
    var f := FreshDelay<T>();
    var s := Occurred(w, f, SinkRequests(1));
    CountingIsRequesting(w, f, 1);
    SourceInStep(w, Counted(f, 1));
    RunInStep(w, s, rest);
    var occurrences := [SinkRequests(1)] + rest;
    assert occurrences[0] == SinkRequests(1) && occurrences[1..] == rest;
  }
}
