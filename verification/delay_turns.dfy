/** Which item waits for which timer, and what the sink does about it. */
module DelayTurns {
  import opened Histories
  import opened Demand
  import opened DelayReference
  import opened DelayInvariants
  import opened DelayTheorems

  /**
   At some moment when all items before the k-th had been handed over, and no more, its delay was
   zero, or was not.
   */
  ghost predicate Judged<T(!new)>(w: World<T>, k: nat, log: Log<T>, zero: bool)
  {
    && k < |w.script.items|
    && exists l :: Continues(l, log) && |Received(l)| == k && w.immediate(l, w.script.items[k]) == zero
  }

  lemma JudgedLater<T(!new)>(w: World<T>, k: nat, log: Log<T>, later: Log<T>, zero: bool)
    requires Judged(w, k, log, zero) && Continues(log, later)
    ensures Judged(w, k, later, zero)
  {
    var l :| Continues(l, log) && |Received(l)| == k && w.immediate(l, w.script.items[k]) == zero;
    ContinuesTransitive(l, log, later);
  }

  /** From the given one on, all items handed over so far had no delay. */
  ghost predicate AtOnce<T(!new)>(w: World<T>, from: nat, log: Log<T>)
  {
    forall k :: from <= k < |Received(log)| ==> Judged(w, k, log, true)
  }

  /** A timer runs for the next item, and because of its delay. */
  ghost predicate WaitsForNext<T(!new)>(w: World<T>, s: Delaying<T>)
  {
    s.fate == Fine && !s.flags.deleted && !s.flags.timer.Off? ==> Judged(w, |Received(s.log)|, s.log, false)
  }

  /** What nested calls do to the turns of the items. */
  ghost predicate InTurn<T(!new)>(w: World<T>, s: Delaying<T>, from: nat, t: Delaying<T>)
  {
    && WaitsForNext(w, t) && AtOnce(w, from, t.log)
    && (Obeyed(s.log, w.react) && t.fate == Fine ==> Obeyed(t.log, w.react))
  }

  /** The front item is the next one of the list. */
  lemma FrontIsNext<T(!new)>(w: World<T>, s: Delaying<T>, outside: bool)
    requires Inv(w, s, outside) && !s.flags.delivering && s.buffer != []
    ensures |Received(s.log)| < |w.script.items| && s.buffer[0] == w.script.items[|Received(s.log)|]
  {
    assert (Received(s.log) + s.buffer)[|Received(s.log)|] == s.buffer[0];
  }

  lemma SignalInTurn<T(!new)>(w: World<T>, s: Delaying<T>, outside: bool)
    requires Callable(w, s, outside) && !s.flags.delivering && CanSignal(w, s) && WaitsForNext(w, s)
    ensures InTurn(w, s, |Received(s.log)|, Signalled(w, s))
    decreases Total(w, s), 4, 0, 0
  {
    hide Inv, Obeyed, Judged;
    if s.sent == |w.script.items| {
      if Obeyed(s.log, w.react) {
        ObeyedAfter(s.log, Ended(w.script.ending), w.react);
      }
    } else {
      PushKeepsInv(w, s, outside);
      if |Pushed(w, s).buffer| == 1 {
        ScheduleInTurn(w, Pushed(w, s), outside);
      }
    }
  }

  lemma SourceInTurn<T(!new)>(w: World<T>, s: Delaying<T>, outside: bool)
    requires Settled(w, s, outside) && !s.flags.delivering && WaitsForNext(w, s)
    ensures InTurn(w, s, |Received(s.log)|, SourceSignalled(w, s))
    decreases Total(w, s), 5, Unsent(w, s), if s.flags.active && !s.flags.deleted then 1 else 0
  {
    hide Inv, Obeyed, Judged, Resting;
    if !s.flags.deleted && s.fate == Fine && CanSignal(w, s) && w.goesOn(s.log, s.sent) {
      SettledIsCallable(w, s, outside);
      var t := Signalled(w, s);
      SignalInTurn(w, s, outside);
      SignalKeepsSettled(w, s, outside);
      if t.fate == Fine {
        SourceInTurn(w, t, outside);
        SourceKeepsSettled(w, t, outside);
        InTurnTwice(w, s, |Received(s.log)|, t, SourceSignalled(w, t));
      } else {
        assert SourceSignalled(w, t) == t;
      }
    }
  }

  lemma InTurnTwice<T(!new)>(w: World<T>, a: Delaying<T>, from: nat, b: Delaying<T>, c: Delaying<T>)
    requires InTurn(w, a, from, b) && b.fate == Fine && InTurn(w, b, |Received(b.log)|, c) && Continues(b.log, c.log)
    ensures InTurn(w, a, from, c)
  {
    hide Obeyed, Judged;
    forall k | from <= k < |Received(c.log)| ensures Judged(w, k, c.log, true) {
      if k < |Received(b.log)| {
        JudgedLater(w, k, b.log, c.log, true);
      }
    }
  }

  lemma ScheduleInTurn<T(!new)>(w: World<T>, s: Delaying<T>, outside: bool)
    requires Ripe(w, s, outside)
    ensures InTurn(w, s, |Received(s.log)|, Scheduled(w, s))
    decreases Total(w, s), 3, 0, 0
  {
    hide Inv, Obeyed;
    FrontIsNext(w, s, outside);
    assert Continues(s.log, s.log);
    var k := |Received(s.log)|;
    if w.immediate(s.log, s.buffer[0]) {
      assert Judged(w, k, s.log, true);
      FireInTurn(w, s, outside);
      FireKeepsSettled(w, s, outside);
      var t := Fired(w, s);
      JudgedLater(w, k, s.log, t.log, true);
    } else {
      assert Judged(w, k, s.log, false);
    }
  }

  /** The item that is due, and after it only what has no delay. */
  lemma FireInTurn<T(!new)>(w: World<T>, s: Delaying<T>, outside: bool)
    requires Ripe(w, s, outside)
    ensures InTurn(w, s, |Received(s.log)| + 1, Fired(w, s))
    ensures !s.flags.cancelled && 0 < s.needs ==> Continues(After(s.log, Next(s.buffer[0])), Fired(w, s).log)
    decreases Total(w, s), 2, 0, 0
  {
    hide Inv, Obeyed, Judged;
    if !s.flags.cancelled && s.needs != 0 {
      var d := Delivered(w, s);
      DeliveryKeepsInv(w, s, outside);
      if d.fate == Fine {
        if Obeyed(s.log, w.react) {
          RipeIsOpen(w, s, outside);
          ObeyedDelivery(s.log, s.buffer[0], w.react);
        }
        AfterDeliveryInTurn(w, d, outside);
        AfterDeliveryKeepsSettled(w, d, outside);
        InTurnTwice(w, s, |Received(s.log)| + 1, d, AfterDelivery(w, d));
        ContinuesTransitive(After(s.log, Next(s.buffer[0])), d.log, AfterDelivery(w, d).log);
      }
    }
  }

  lemma RipeIsOpen<T(!new)>(w: World<T>, s: Delaying<T>, outside: bool)
    requires Ripe(w, s, outside) && !s.flags.cancelled
    ensures !Closed(s.log)
  {
  }

  lemma AfterDeliveryInTurn<T(!new)>(w: World<T>, s: Delaying<T>, outside: bool)
    requires Inv(w, s, outside) && !s.flags.deleted && s.fate == Fine && !s.flags.delivering && s.flags.timer.Off?
    requires 0 < |Received(s.log)|
    ensures InTurn(w, s, |Received(s.log)|, AfterDelivery(w, s))
    decreases Total(w, s), 8, 0, 0
  {
    hide Obeyed, Judged, Conserved, Careful;
    if !s.flags.cancelled {
      if s.buffer != [] {
        ScheduleInTurn(w, s, outside);
      } else if s.flags.active {
        ToppingUpInTurn(w, s, outside);
      } else if Obeyed(s.log, w.react) {
        ObeyedAfter(s.log, Ended(if s.flags.error then w.script.ending else Complete), w.react);
      }
    }
  }

  lemma ToppingUpInTurn<T(!new)>(w: World<T>, s: Delaying<T>, outside: bool)
    requires Callable(w, s, outside) && !s.flags.delivering && s.flags.active && !Closed(s.log) && WaitsForNext(w, s)
    requires Asked(s.log) <= 1 ==> !Rash(s.needs, |s.buffer|, s.waiting, s.flags.delivering)
    ensures InTurn(w, s, |Received(s.log)|, ToppedUp(w, s))
    decreases Total(w, s), 6, 0, 0
  {
    hide Inv, Obeyed, Judged, Rash, Requesting, Callable;
    var m := Requesting(s.needs, |s.buffer|, s.waiting);
    var r := s.(rash := s.rash || Rash(s.needs, |s.buffer|, s.waiting, s.flags.delivering));
    var t := if m == 0 then r else r.(waiting := s.waiting + m, granted := s.granted + m);
    MoreOnItsWayIsSettled(w, s, outside);
    if m != 0 {
      SourceInTurn(w, t, outside);
    }
  }

  // ----- whole runs

  /**
   One event: the sink's call is heard; a firing timer hands over the item it was started for; all
   else that is handed over had no delay.
   */
  ghost predicate EventInTurn<T(!new)>(w: World<T>, s: Delaying<T>, o: Occurrence, t: Delaying<T>)
  {
    var next := |Received(s.log)|;
    && (o.SinkRequests? && !Closed(s.log) ==> Continues(After(s.log, Requested(o.n)), t.log))
    && (o.SinkCancels? && !Closed(s.log) ==> t.log == After(s.log, Cancelled))
    && (o.SourceSignals? && s.flags.active && (s.sent == |w.script.items| || s.sent < s.granted) ==>
          s.sent < t.sent || (s.sent == t.sent == |w.script.items| && (!t.flags.active || t.flags.deleted)))
    && if o.TimerFires? && s.flags.timer.Running? && !s.flags.cancelled && 0 < s.needs then
         && next < |w.script.items| && Continues(After(s.log, Next(w.script.items[next])), t.log)
         && InTurn(w, s, next + 1, t)
       else InTurn(w, s, next, t)
  }

  lemma WhenItMaySignal<T(!new)>(w: World<T>, s: Delaying<T>, outside: bool)
    requires Resting(w, s, outside)
    ensures CanSignal(w, s) <==> s.flags.active && (s.sent == |w.script.items| || s.sent < s.granted)
  {
  }

  lemma InBounds<T(!new)>(w: World<T>, s: Delaying<T>, t: Delaying<T>, outside: bool)
    requires Callable(w, s, outside) && Settled(w, t, outside)
    ensures s.sent <= |w.script.items| && t.sent <= |w.script.items|
  {
  }

  lemma OccurrenceInTurn<T(!new)>(w: World<T>, s: Delaying<T>, o: Occurrence, outside: bool)
    requires Resting(w, s, outside) && WaitsForNext(w, s)
    ensures EventInTurn(w, s, o, Occurred(w, s, o))
  {
    hide Inv, Obeyed, Judged;
    RestingIsCallable(w, s, outside);
    match o
    case SinkRequests(n) =>
      if !Closed(s.log) {
        RequestInTurn(w, s, n, outside);
        RequestKeepsSettled(w, s, n, outside);
      }
    case SinkCancels =>
      if !Closed(s.log) {
        CancelInTurn(w, s);
      }
    case SourceSignals =>
      WhenItMaySignal(w, s, outside);
      if CanSignal(w, s) {
        SignalInTurn(w, s, outside);
        SignalKeepsSettled(w, s, outside);
        InBounds(w, s, Signalled(w, s), outside);
      }
    case TimerFires =>
      if s.flags.timer.Running? && s.buffer != [] {
        var r := s.(flags := s.flags.(timer := Off));
        TimerOff(w, s, outside);
        FireInTurn(w, r, outside);
        FrontIsNext(w, s, outside);
      }
    case TimerFails =>
  }

  lemma RequestInTurn<T(!new)>(w: World<T>, s: Delaying<T>, n: pos, outside: bool)
    requires Resting(w, s, outside) && !Closed(s.log) && WaitsForNext(w, s)
    ensures InTurn(w, s, |Received(s.log)|, RequestMade(w, s, n))
  {
    hide Inv, Obeyed, ToppedUp;
    var log := After(s.log, Requested(n));
    var k := |Received(s.log)|;
    assert Received(log) == Received(s.log) && Continues(s.log, log);
    if !s.flags.timer.Off? {
      JudgedLater(w, k, s.log, log, false);
    }
    if Obeyed(s.log, w.react) {
      ObeyedAfter(s.log, Requested(n), w.react);
    }
    if s.flags.active && n <= INT_MAX - s.needs {
      var a := s.(log := log, needs := s.needs + n);
      RestingIsCallable(w, s, outside);
      AcceptingKeepsCallable(w, s, n, outside);
      ToppingUpInTurn(w, a, outside);
    }
  }

  lemma CancelInTurn<T(!new)>(w: World<T>, s: Delaying<T>)
    requires WaitsForNext(w, s) && s.fate == Fine && !s.flags.deleted
    ensures InTurn(w, s, |Received(s.log)|, Cancelling(s))
  {
    hide Obeyed;
    var log := After(s.log, Cancelled);
    assert Received(log) == Received(s.log) && Continues(s.log, log);
    if !s.flags.timer.Off? {
      JudgedLater(w, |Received(s.log)|, s.log, log, false);
    }
    if Obeyed(s.log, w.react) {
      ObeyedAfter(s.log, Cancelled, w.react);
    }
  }

  /** Event by event. */
  ghost predicate AllInTurn<T(!new)>(w: World<T>, s: Delaying<T>, occurrences: seq<Occurrence>)
    decreases |occurrences|
  {
    occurrences == [] || s.fate != Fine || s.flags.deleted
    || (var t := Occurred(w, s, occurrences[0]);
        EventInTurn(w, s, occurrences[0], t) && AllInTurn(w, t, occurrences[1..]))
  }

  lemma {:induction false} RunInTurn<T(!new)>(w: World<T>, s: Delaying<T>, occurrences: seq<Occurrence>, outside: bool)
    requires Standing(w, s, outside) && WaitsForNext(w, s)
    ensures AllInTurn(w, s, occurrences)
    ensures var t := AllOccurred(w, s, occurrences);
      WaitsForNext(w, t) && (Obeyed(s.log, w.react) && t.fate == Fine ==> Obeyed(t.log, w.react))
    decreases |occurrences|
  {
    hide Standing, Resting, Obeyed, Judged, Occurred;
    if occurrences != [] && s.fate == Fine && !s.flags.deleted {
      var o := occurrences[0];
      var t := Occurred(w, s, o);
      StandingRests(w, s, outside);
      OccurrenceKeepsStanding(w, s, o, outside);
      OccurrenceInTurn(w, s, o, outside);
      RunInTurn(w, t, occurrences[1..], outside || o.SinkCancels?);
      if t.fate != Fine {
        assert AllOccurred(w, t, occurrences[1..]) == t;
      }
    }
  }

  /** A run is its events, one after the other, until a CHECK fails or the operator is deleted. */
  lemma {:induction false} RunsAreTheirEvents<T>(w: World<T>, s: Delaying<T>, occurrences: seq<Occurrence>,
                                                 o: Occurrence)
    ensures AllOccurred(w, s, []) == s
    ensures var t := AllOccurred(w, s, occurrences);
      AllOccurred(w, s, occurrences + [o]) == if t.fate == Fine && !t.flags.deleted then Occurred(w, t, o) else t
    decreases |occurrences|
  {
    hide Occurred;
    if occurrences == [] {
      assert [o][1..] == [];
      assert occurrences + [o] == [o];
    } else if s.fate == Fine && !s.flags.deleted {
      RunsAreTheirEvents(w, Occurred(w, s, occurrences[0]), occurrences[1..], o);
      assert (occurrences + [o])[1..] == occurrences[1..] + [o];
    }
  }

  /**
   Over every run: a timer that fires hands over the item whose delay it was started with, and an
   item that is handed over without one had no delay; and the sink's reactions to all items are done.
   */
  lemma EveryRunIsInTurn<T(!new)>(w: World<T>, occurrences: seq<Occurrence>)
    ensures AllInTurn(w, FreshDelay(), occurrences)
    ensures var t := AllOccurred(w, FreshDelay(), occurrences);
      && (t.fate == Fine ==> Obeyed(t.log, w.react))
      && (t.fate == Fine && !t.flags.deleted && t.buffer != [] ==> Judged(w, |Received(t.log)|, t.log, false))
  {
    FreshStands(w);
    RunInTurn(w, FreshDelay(), occurrences, false);
    EveryRun(w, occurrences);
  }
}
