/**
 Which sinks the delay operator serves without a failing CHECK, whatever its source and its
 timers do. The sink makes its first request from on_subscribe and the others from on_next.
 */
module DelaySinks {
  import opened Histories
  import opened Demand
  import opened DelayReference
  import opened DelayInvariants
  import opened DelayTheorems

  /** What is buffered or on its way after maybe_request. */
  function Topped(needs: nat, ahead: nat): nat
  {
    if needs + ahead < WATERMARK then needs + ahead else WATERMARK
  }

  /**
   The source has ended, all that is left is buffered, and requests are ignored: an item comes
   up that the sink has not asked for.
   */
  predicate Starves<T>(react: Subscriber<T>, left: seq<T>, log: Log<T>, needs: nat)
    decreases |left|
  {
    left != [] &&
    (needs == 0
     || (!react(After(log, Next(left[0]))).cancels
       && Starves(react, left[1..], Deliver(log, left[0], react), needs - 1)))
  }

  /**
   Items come one at a time, each after the one before was handed over, so that the operator
   asks its source as often as it can; `ahead` is what is buffered or on its way. Such a course
   is exposed at a rest if the source can send all that is left and end, so that the sink starves;
   or if the sink wants nothing although something is on its way; or later on.
   */
  predicate Exposed<T>(react: Subscriber<T>, left: seq<T>, log: Log<T>, needs: nat, ahead: nat)
    decreases |left|, 0
  {
    || (|left| <= ahead && Starves(react, left, log, needs))
    || (left != [] && 0 < ahead &&
        (needs == 0
         || var handed := After(log, Next(left[0]));
            ExposedAsking(react, react(handed).requests, react(handed).cancels, left[1..], handed, needs - 1, ahead)))
  }

  /**
   The same from inside on_next, where `requests` are still to be made. The demand can go beyond
   an int; and while a request makes the operator ask, the source can send all that is left and
   end, so that the requests after that one are ignored.
   */
  predicate ExposedAsking<T>(react: Subscriber<T>, requests: seq<pos>, cancels: bool,
                             left: seq<T>, log: Log<T>, needs: nat, ahead: nat)
    requires 0 < ahead
    decreases |left|, 1 + |requests|
  {
    if requests == [] then !cancels && Exposed(react, left, log, needs, Topped(needs, ahead - 1))
    else
      var wanted := needs + requests[0];
      var asked := After(log, Requested(requests[0]));
      || wanted > INT_MAX
      || (!cancels && |left| < Topped(wanted, ahead) && Starves(react, left, Ask(asked, requests[1..]), wanted))
      || ExposedAsking(react, requests[1..], cancels, left, asked, wanted, Topped(wanted, ahead))
  }

  /** The more is on its way, the worse. */
  lemma {:induction false} MoreAheadIsWorse<T>(react: Subscriber<T>, left: seq<T>, log: Log<T>, needs: nat, ahead: nat,
                                               more: nat)
    requires ahead <= more && Exposed(react, left, log, needs, ahead)
    ensures Exposed(react, left, log, needs, more)
    decreases |left|, 0
  {
    if left != [] && 0 < ahead && needs != 0 {
      var handed := After(log, Next(left[0]));
      var r := react(handed);
      if ExposedAsking(react, r.requests, r.cancels, left[1..], handed, needs - 1, ahead) {
        MoreAheadIsWorseAsking(react, r.requests, r.cancels, left[1..], handed, needs - 1, ahead, more);
      }
    }
  }

  lemma {:induction false} MoreAheadIsWorseAsking<T>(react: Subscriber<T>, requests: seq<pos>, cancels: bool,
                                                     left: seq<T>, log: Log<T>, needs: nat, ahead: nat, more: nat)
    requires 0 < ahead <= more && ExposedAsking(react, requests, cancels, left, log, needs, ahead)
    ensures ExposedAsking(react, requests, cancels, left, log, needs, more)
    decreases |left|, 1 + |requests|
  {
    if requests == [] {
      MoreAheadIsWorse(react, left, log, needs, Topped(needs, ahead - 1), Topped(needs, more - 1));
    } else {
      var wanted := needs + requests[0];
      var asked := After(log, Requested(requests[0]));
      if ExposedAsking(react, requests[1..], cancels, left, asked, wanted, Topped(wanted, ahead)) {
        MoreAheadIsWorseAsking(react, requests[1..], cancels, left, asked, wanted, Topped(wanted, ahead),
                               Topped(wanted, more));
      }
    }
  }

  // ----- a course that is not exposed is safe

  /** All items that the sink has not been handed. */
  function Left<T>(w: World<T>, s: Delaying<T>): seq<T>
  {
    Undelivered(s) + if s.sent <= |w.script.items| then w.script.items[s.sent..] else []
  }

  ghost predicate InBounds<T>(w: World<T>, s: Delaying<T>)
  {
    && s.fate == Fine && s.sent <= |w.script.items| && |s.buffer| + s.waiting <= WATERMARK
    && (!s.flags.active && !s.flags.cancelled ==> s.sent == |w.script.items|)
    && (s.flags.cancelled ==> !s.flags.active)
  }

  /** At a rest, where `ahead` is what is buffered or on its way: nothing can go wrong. */
  ghost predicate SafeWith<T>(w: World<T>, s: Delaying<T>, ahead: nat)
  {
    && InBounds(w, s) && !s.flags.delivering
    && (s.flags.cancelled || s.flags.deleted
        || if s.flags.active then !Exposed(w.react, Left(w, s), s.log, s.needs, ahead)
           else !Starves(w.react, Left(w, s), s.log, s.needs))
  }

  ghost predicate Safe<T>(w: World<T>, s: Delaying<T>)
  {
    SafeWith(w, s, |s.buffer| + s.waiting)
  }

  /** The same inside on_next, where `requests` are still to be made. */
  ghost predicate SafeAsking<T>(w: World<T>, s: Delaying<T>, requests: seq<pos>, cancels: bool)
  {
    && InBounds(w, s) && s.flags.delivering && s.buffer != [] && !s.flags.cancelled && !s.flags.deleted
    && if s.flags.active then !ExposedAsking(w.react, requests, cancels, Left(w, s), s.log, s.needs,
                                             |s.buffer| + s.waiting)
       else cancels || !Starves(w.react, Left(w, s), Ask(s.log, requests), s.needs)
  }

  /** What a source that signals inside on_next leaves as it is. */
  ghost predicate SameForTheSink<T>(w: World<T>, s: Delaying<T>, t: Delaying<T>)
  {
    && t.log == s.log && t.needs == s.needs && t.fate == s.fate && s.buffer <= t.buffer
    && |t.buffer| + t.waiting == |s.buffer| + s.waiting && Left(w, t) == Left(w, s)
    && t.sent <= |w.script.items| && (t.flags.active || t.sent == |w.script.items|)
    && t.flags == s.flags.(active := t.flags.active, error := t.flags.error)
  }

  lemma SignalWhileDelivering<T>(w: World<T>, s: Delaying<T>)
    requires InBounds(w, s) && s.flags.delivering && s.buffer != [] && CanSignal(w, s)
    ensures SameForTheSink(w, s, Signalled(w, s))
  {
    if s.sent < |w.script.items| {
      NothingIsLostByPushing(w, s);
    }
  }

  lemma SourceWhileDelivering<T>(w: World<T>, s: Delaying<T>)
    requires InBounds(w, s) && s.flags.delivering && s.buffer != [] && s.flags.active
    ensures SameForTheSink(w, s, SourceSignalled(w, s))
    decreases Unsent(w, s), if s.flags.active && !s.flags.deleted then 1 else 0
  {
    if !s.flags.deleted && CanSignal(w, s) && w.goesOn(s.log, s.sent) {
      var t := Signalled(w, s);
      SignalWhileDelivering(w, s);
      if t.flags.active {
        SourceWhileDelivering(w, t);
      } else {
        assert SourceSignalled(w, t) == t;
      }
    }
  }

  lemma ToppingUpAdds(needs: nat, buffered: nat, waiting: nat)
    requires buffered + waiting <= WATERMARK
    ensures buffered + waiting + Requesting(needs, buffered, waiting) == Topped(needs, buffered + waiting)
  {
  }

  lemma CountingIsSafe<T>(w: World<T>, s: Delaying<T>, requests: seq<pos>, cancels: bool)
    requires SafeAsking(w, s, requests, cancels) && requests != [] && s.flags.active
    ensures requests[0] <= INT_MAX - s.needs
    ensures var c := Counted(s, requests[0]);
      && SafeAsking(w, c, requests[1..], cancels) && c.flags.active
      && |c.buffer| + c.waiting == Topped(c.needs, |s.buffer| + s.waiting)
      && (cancels || |Left(w, c)| >= |c.buffer| + c.waiting
        || !Starves(w.react, Left(w, c), Ask(c.log, requests[1..]), c.needs))
  {
    hide Starves, Rash, Ask;
    ToppingUpAdds(s.needs + requests[0], |s.buffer|, s.waiting);
    assert Left(w, Counted(s, requests[0])) == Left(w, s);
  }

  lemma RequestKeepsSafe<T>(w: World<T>, s: Delaying<T>, requests: seq<pos>, cancels: bool)
    requires SafeAsking(w, s, requests, cancels) && requests != []
    ensures SafeAsking(w, RequestMade(w, s, requests[0]), requests[1..], cancels)
  {
    hide ExposedAsking, Starves, SourceSignalled, Counted;
    if s.flags.active {
      var c := Counted(s, requests[0]);
      CountingIsSafe(w, s, requests, cancels);
      CountingIsRequesting(w, s, requests[0]);
      if c.waiting != s.waiting {
        SourceWhileDelivering(w, c);
      }
    }
  }

  lemma {:induction false} AskingKeepsSafe<T>(w: World<T>, s: Delaying<T>, requests: seq<pos>, cancels: bool)
    requires SafeAsking(w, s, requests, cancels)
    ensures SafeAsking(w, Asking(w, s, requests), [], cancels)
    decreases |requests|
  {
    hide Exposed, ExposedAsking, Starves, RequestMade;
    if requests != [] {
      RequestKeepsSafe(w, s, requests, cancels);
      AskingKeepsSafe(w, RequestMade(w, s, requests[0]), requests[1..], cancels);
    }
  }

  /** Before the operator has asked for what it then can. */
  ghost predicate SafeWhenTopped<T>(w: World<T>, s: Delaying<T>)
  {
    SafeWith(w, s, Topped(s.needs, |s.buffer| + s.waiting))
  }

  lemma HandingOverKeepsSafe<T>(w: World<T>, s: Delaying<T>)
    requires Safe(w, s) && s.buffer != [] && 0 < s.needs && !s.flags.cancelled && !s.flags.deleted
    ensures var h := Handed(s); var r := w.react(h.log);
      SafeAsking(w, h, r.requests, r.cancels)
  {
    hide ExposedAsking;
    var h := Handed(s);
    var left := Left(w, s);
    assert left == [s.buffer[0]] + Left(w, h) && left[1..] == Left(w, h);
  }

  lemma DeliveryKeepsSafe<T>(w: World<T>, s: Delaying<T>)
    requires Safe(w, s) && s.buffer != [] && 0 < s.needs && !s.flags.cancelled && !s.flags.deleted
    ensures var d := Delivered(w, s); SafeWhenTopped(w, d) && !d.flags.deleted
  {
    hide Starves, Exposed, Asking;
    var h := Handed(s);
    var r := w.react(h.log);
    var asked := Asking(w, h, r.requests);
    HandingOverKeepsSafe(w, s);
    AskingKeepsSafe(w, h, r.requests, r.cancels);
    var c := if r.cancels then Cancelling(asked) else asked;
    assert SinkRan(w, h) == c;
    var d := Delivered(w, s);
    assert d == c.(flags := c.flags.(delivering := false), buffer := c.buffer[1..]);
    assert Undelivered(d) == Undelivered(asked);
  }

  lemma TopsUpToSafe<T>(w: World<T>, s: Delaying<T>)
    requires SafeWhenTopped(w, s)
    ensures Safe(w, s)
  {
    if !s.flags.cancelled && !s.flags.deleted && s.flags.active
      && Exposed(w.react, Left(w, s), s.log, s.needs, |s.buffer| + s.waiting) {
      MoreAheadIsWorse(w.react, Left(w, s), s.log, s.needs, |s.buffer| + s.waiting,
                       Topped(s.needs, |s.buffer| + s.waiting));
    }
  }

  // ----- the calls of a rest, inside each other

  lemma SignalKeepsSafe<T>(w: World<T>, s: Delaying<T>)
    requires Safe(w, s) && !s.flags.deleted && CanSignal(w, s)
    ensures Safe(w, Signalled(w, s))
    decreases Total(w, s), 4, 0, 0
  {
    hide Starves;
    if s.sent < |w.script.items| {
      var p := Pushed(w, s);
      PushKeepsSafe(w, s);
      if |p.buffer| == 1 {
        ScheduleKeepsSafe(w, p);
      }
    }
  }

  lemma NothingIsLostByPushing<T>(w: World<T>, s: Delaying<T>)
    requires s.sent < |w.script.items| && 0 < s.waiting && (s.flags.delivering ==> s.buffer != [])
    ensures Left(w, Pushed(w, s)) == Left(w, s)
  {
    assert Undelivered(Pushed(w, s)) == Undelivered(s) + [w.script.items[s.sent]];
    assert w.script.items[s.sent..] == [w.script.items[s.sent]] + w.script.items[s.sent + 1..];
  }

  lemma PushKeepsSafe<T>(w: World<T>, s: Delaying<T>)
    requires Safe(w, s) && s.flags.active && !s.flags.deleted && s.sent < |w.script.items| && 0 < s.waiting
    ensures var p := Pushed(w, s); Safe(w, p) && Total(w, p) == Total(w, s)
  {
    hide Exposed, Starves, Left;
    NothingIsLostByPushing(w, s);
  }

  lemma SourceKeepsSafe<T>(w: World<T>, s: Delaying<T>)
    requires Safe(w, s)
    ensures Safe(w, SourceSignalled(w, s))
    decreases Total(w, s), 5, Unsent(w, s), if s.flags.active && !s.flags.deleted then 1 else 0
  {
    hide Exposed, Starves;
    if !s.flags.deleted && s.fate == Fine && CanSignal(w, s) && w.goesOn(s.log, s.sent) {
      SignalKeepsSafe(w, s);
      SourceKeepsSafe(w, Signalled(w, s));
    }
  }

  lemma ScheduleKeepsSafe<T>(w: World<T>, s: Delaying<T>)
    requires Safe(w, s) && s.buffer != [] && !s.flags.deleted
    ensures Safe(w, Scheduled(w, s))
    decreases Total(w, s), 3, 0, 0
  {
    hide Exposed, Starves;
    if w.immediate(s.log, s.buffer[0]) {
      FireKeepsSafe(w, s);
    }
  }

  lemma FireKeepsSafe<T>(w: World<T>, s: Delaying<T>)
    requires Safe(w, s) && s.buffer != [] && !s.flags.deleted
    ensures Safe(w, Fired(w, s))
    decreases Total(w, s), 2, 0, 0
  {
    if !s.flags.cancelled {
      assert s.needs != 0;
      DeliveryKeepsSafe(w, s);
      AfterDeliveryKeepsSafe(w, Delivered(w, s));
    }
  }

  lemma AfterDeliveryKeepsSafe<T>(w: World<T>, s: Delaying<T>)
    requires SafeWhenTopped(w, s) && !s.flags.deleted
    ensures Safe(w, AfterDelivery(w, s))
    decreases Total(w, s), 8, 0, 0
  {
    hide Exposed, Starves;
    if !s.flags.cancelled {
      if s.buffer != [] {
        TopsUpToSafe(w, s);
        ScheduleKeepsSafe(w, s);
      } else if s.flags.active {
        ToppingUpKeepsSafe(w, s);
      }
    }
  }

  lemma ToppingUpKeepsSafe<T>(w: World<T>, s: Delaying<T>)
    requires SafeWhenTopped(w, s)
    ensures Safe(w, ToppedUp(w, s))
    decreases Total(w, s), 6, 0, 0
  {
    hide Exposed, Starves, Rash, Requesting, SourceSignalled;
    var m := Requesting(s.needs, |s.buffer|, s.waiting);
    ToppingUpAdds(s.needs, |s.buffer|, s.waiting);
    var t := s.(rash := s.rash || Rash(s.needs, |s.buffer|, s.waiting, s.flags.delivering), waiting := s.waiting + m,
                granted := s.granted + m);
    assert Left(w, t) == Left(w, s);
    if m != 0 {
      SourceKeepsSafe(w, t);
    }
  }

  // ----- whole runs

  /** A request from outside that does no harm: a course that starts with it is not exposed. */
  ghost predicate Harmless<T>(w: World<T>, s: Delaying<T>, n: pos)
  {
    && s.flags.active && n <= INT_MAX - s.needs
    && !Exposed(w.react, Left(w, s), After(s.log, Requested(n)), s.needs + n,
                Topped(s.needs + n, |s.buffer| + s.waiting))
  }

  lemma OccurrenceKeepsSafe<T>(w: World<T>, s: Delaying<T>, o: Occurrence)
    requires Safe(w, s) && !s.flags.deleted
    requires o.SinkRequests? && !Closed(s.log) ==> Harmless(w, s, o.n)
    ensures Safe(w, Occurred(w, s, o))
  {
    hide Exposed, Starves;
    match o
    case SinkRequests(n) =>
      if !Closed(s.log) {
        var a := s.(log := After(s.log, Requested(n)), needs := s.needs + n);
        assert Left(w, a) == Left(w, s);
        ToppingUpKeepsSafe(w, a);
      }
    case SinkCancels =>
    case SourceSignals =>
      if CanSignal(w, s) {
        SignalKeepsSafe(w, s);
      }
    case TimerFires =>
      if s.flags.timer.Running? && s.buffer != [] {
        var r := s.(flags := s.flags.(timer := Off));
        assert Left(w, r) == Left(w, s);
        FireKeepsSafe(w, r);
      }
    case TimerFails =>
      assert Left(w, Occurred(w, s, o)) == Left(w, s);
  }

  lemma {:induction false} RunKeepsSafe<T>(w: World<T>, s: Delaying<T>, occurrences: seq<Occurrence>)
    requires Safe(w, s) && !SinkEverRequests(occurrences)
    ensures Safe(w, AllOccurred(w, s, occurrences))
    decreases |occurrences|
  {
    hide Safe;
    if occurrences != [] && s.fate == Fine && !s.flags.deleted {
      assert !occurrences[0].SinkRequests?;
      OccurrenceKeepsSafe(w, s, occurrences[0]);
      assert forall i :: 0 <= i < |occurrences[1..]| ==> occurrences[1..][i] == occurrences[i + 1];
      RunKeepsSafe(w, Occurred(w, s, occurrences[0]), occurrences[1..]);
    }
  }

  /** With no source, no timers and no order of events. */
  lemma NotExposedIsSafe<T>(w: World<T>, n: pos, rest: seq<Occurrence>)
    requires n <= INT_MAX && !Exposed(w.react, w.script.items, After(Start, Requested(n)), n, Topped(n, 0))
    requires !SinkEverRequests(rest)
    ensures AllOccurred(w, FreshDelay(), [SinkRequests(n)] + rest).fate == Fine
  {
    hide Exposed;
    var f := FreshDelay<T>();
    assert Left(w, f) == w.script.items;
    FreshIsSafe(w);
    OccurrenceKeepsSafe(w, f, SinkRequests(n));
    RunKeepsSafe(w, Occurred(w, f, SinkRequests(n)), rest);
    var occurrences := [SinkRequests(n)] + rest;
    assert occurrences[0] == SinkRequests(n) && occurrences[1..] == rest;
  }

  lemma FreshIsSafe<T>(w: World<T>)
    ensures Safe(w, FreshDelay<T>())
  {
  }

  // ----- a sink that asks for one item at a time, from outside of on_next

  /** Every request from outside is for one item, made when nothing is outstanding. */
  ghost predicate InTurn<T>(w: World<T>, s: Delaying<T>, occurrences: seq<Occurrence>)
    decreases |occurrences|
  {
    occurrences == [] || s.fate != Fine || s.flags.deleted
    || ((occurrences[0].SinkRequests? && !Closed(s.log) ==> occurrences[0].n == 1 && Needs(s.log) == 0)
        && InTurn(w, Occurred(w, s, occurrences[0]), occurrences[1..]))
  }

  /** One item wanted, one on its way, and then nothing. */
  lemma OneIsNotExposed<T(!new)>(react: Subscriber<T>, left: seq<T>, log: Log<T>)
    requires NeverAsks(react)
    ensures !Exposed(react, left, log, 1, 1)
  {
    if left != [] {
      var handed := After(log, Next(left[0]));
      assert react(handed).requests == [];
      assert !Exposed(react, left[1..], handed, 0, 0);
    }
  }

  lemma InTurnIsHarmless<T(!new)>(w: World<T>, s: Delaying<T>, outside: bool)
    requires Resting(w, s, outside) && Safe(w, s) && NeverAsks(w.react) && !Closed(s.log) && Needs(s.log) == 0
    ensures Harmless(w, s, 1)
  {
    assert s.needs == 0;
    assert s.buffer != [] ==> Left(w, s) != [];
    if Left(w, s) != [] {
      OneIsNotExposed(w.react, Left(w, s), After(s.log, Requested(1)));
    }
  }

  lemma {:induction false} InTurnRunIsSafe<T(!new)>(w: World<T>, s: Delaying<T>, occurrences: seq<Occurrence>,
                                                    outside: bool)
    requires Standing(w, s, outside) && Safe(w, s) && NeverAsks(w.react) && InTurn(w, s, occurrences)
    ensures AllOccurred(w, s, occurrences).fate == Fine
    decreases |occurrences|
  {
    hide Safe, Standing, Resting, Harmless;
    if occurrences != [] && s.fate == Fine && !s.flags.deleted {
      var o := occurrences[0];
      StandingRests(w, s, outside);
      if o.SinkRequests? && !Closed(s.log) {
        InTurnIsHarmless(w, s, outside);
      }
      OccurrenceKeepsStanding(w, s, o, outside);
      OccurrenceKeepsSafe(w, s, o);
      InTurnRunIsSafe(w, Occurred(w, s, o), occurrences[1..], outside || o.SinkCancels?);
    } else {
      SafeIsFine(w, s);
    }
  }

  lemma SafeIsFine<T>(w: World<T>, s: Delaying<T>)
    requires Safe(w, s)
    ensures s.fate == Fine
  {
  }

  /**
   A sink that never asks from on_next, and asks for one item only when it has all it asked for,
   meets no failing CHECK, with any source, any timers and any order of events.
   */
  lemma OneAtATimeIsSafe<T(!new)>(w: World<T>, occurrences: seq<Occurrence>)
    requires NeverAsks(w.react) && InTurn(w, FreshDelay(), occurrences)
    ensures AllOccurred(w, FreshDelay(), occurrences).fate == Fine
  {
    FreshStands(w);
    FreshIsSafe(w);
    InTurnRunIsSafe(w, FreshDelay(), occurrences, false);
  }
}
