/** What every call, signal and timer of the delay operator keeps. */
module DelayInvariants {
  import opened Histories
  import opened Demand
  import opened DelayReference

  /** The sink wants all that is buffered or on its way. */
  predicate Wanted(needs: nat, buffered: nat, waiting: nat, delivering: bool)
  {
    buffered + waiting <= needs + if delivering then 1 else 0
  }

  /** Exactly a rash request breaks that. */
  lemma OverasksExactlyWhenRash(needs: nat, buffered: nat, waiting: nat, delivering: bool)
    requires Wanted(needs, buffered, waiting, delivering) && (delivering ==> 0 < buffered)
    ensures Wanted(needs, buffered, waiting + Requesting(needs, buffered, waiting), delivering)
       <==> !Rash(needs, buffered, waiting, delivering)
  {
  }

  ghost predicate Counters<T>(w: World<T>, s: Delaying<T>)
  {
    && s.waiting == s.granted - s.sent && s.sent <= |w.script.items|
    && |s.buffer| + s.waiting <= WATERMARK
    && (s.flags.delivering ==> s.buffer != [])
  }

  /** Delivered and undelivered items together are what the source has sent. */
  ghost predicate Conserved<T>(w: World<T>, s: Delaying<T>)
  {
    s.sent <= |w.script.items| && Split(w, Received(s.log), Undelivered(s), s.sent)
  }

  ghost predicate Split<T>(w: World<T>, delivered: seq<T>, undelivered: seq<T>, sent: nat)
    requires sent <= |w.script.items|
  {
    delivered + undelivered == w.script.items[..sent]
  }

  /** `needs` is the demand still unmet, of requests made while the source was there; it is an int. */
  ghost predicate Accounts<T>(s: Delaying<T>)
  {
    && Lawful(s.log)
    && (s.fate == Overflow ==> s.flags.active && Needs(s.log) > INT_MAX)
    && (s.fate != Overflow ==>
          && s.needs <= INT_MAX && s.needs <= Needs(s.log)
          && (s.flags.active ==> s.needs == Needs(s.log)))
  }

  /** More than wanted is asked for only after a rash request, for which the sink must have asked for two items. */
  ghost predicate Careful<T>(s: Delaying<T>)
  {
    && (!s.rash && s.fate != Overflow ==> Wanted(s.needs, |s.buffer|, s.waiting, s.flags.delivering))
    && (s.fate == Overdrawn ==> s.rash)
    && (Asked(s.log) <= 1 ==> !s.rash)
  }

  /**
   A source leaves by ending, after its last item, or by being cancelled, which only the sink
   does: from inside on_next, or `outside`.
   */
  ghost predicate Rightly<T>(w: World<T>, s: Delaying<T>, outside: bool)
  {
    && (s.flags.cancelled <==> IsCancelled(s.log))
    && (s.flags.cancelled ==> !s.flags.active && (outside || Cancels(s.log, w.react)))
    && (s.flags.active && !s.flags.deleted ==> !Closed(s.log))
    && (HasEnded(s.log) ==> s.flags.deleted)
    && (!s.flags.active && !s.flags.cancelled
      ==> s.sent == |w.script.items| && s.flags.error == w.script.ending.Failure?)
    && (HasEnded(s.log) ==> Received(s.log) == w.script.items && s.log.event.ending == w.script.ending)
  }

  ghost predicate Inv<T>(w: World<T>, s: Delaying<T>, outside: bool)
  {
    Counters(w, s) && Conserved(w, s) && Accounts(s) && Careful(s) && Rightly(w, s, outside)
  }

  /**
   A timer is running, or has failed, exactly while something is buffered; the source is asked while
   the sink waits.
   */
  ghost predicate Resting<T>(w: World<T>, s: Delaying<T>, outside: bool)
  {
    && Inv(w, s, outside) && !s.flags.deleted && !s.flags.delivering && s.fate == Fine
    && (!s.flags.timer.Off? <==> s.buffer != [])
    && (!s.flags.active ==> s.buffer != [])
    && (s.flags.active && 0 < s.needs ==> 0 < |s.buffer| + s.waiting)
  }

  /** May be called: from inside the sink's on_next, or with the timer running as it should. */
  ghost predicate Callable<T>(w: World<T>, s: Delaying<T>, outside: bool)
  {
    && Inv(w, s, outside) && !s.flags.deleted && s.fate == Fine
    && (if s.flags.delivering then s.flags.timer.Off? else !s.flags.timer.Off? <==> s.buffer != [])
  }

  /** After a call. */
  ghost predicate Settled<T>(w: World<T>, s: Delaying<T>, outside: bool)
  {
    && Inv(w, s, outside)
    && (s.flags.delivering ==> !s.flags.deleted && s.flags.timer.Off?)
    && (!s.flags.delivering && s.fate == Fine ==> if s.flags.deleted then Closed(s.log) else Resting(w, s, outside))
  }

  /** An item is due. */
  ghost predicate Ripe<T>(w: World<T>, s: Delaying<T>, outside: bool)
  {
    Inv(w, s, outside) && !s.flags.deleted && s.fate == Fine && !s.flags.delivering && s.flags.timer.Off?
      && s.buffer != []
  }

  /** The sink has asked for all there is. */
  ghost predicate Ample<T>(w: World<T>, s: Delaying<T>)
  {
    s.fate == Overflow || (Total(w, s) <= s.needs && s.fate == Fine)
  }

  ghost predicate NeverAsks<T(!new)>(react: Subscriber<T>)
  {
    forall l: Log<T> :: react(l).requests == []
  }

  /** What calls from inside calls may change, and in which direction only. */
  ghost predicate Later<T(!new)>(w: World<T>, s: Delaying<T>, t: Delaying<T>)
  {
    && Continues(s.log, t.log)
    && (Ample(w, s) ==> Ample(w, t))
    && (NeverAsks(w.react) ==> Asked(t.log) == Asked(s.log))
    && (s.flags.delivering ==> t.flags.delivering && t.flags.cancelled == s.flags.cancelled)
    && (!s.flags.delivering && t.fate == Fine ==> !t.flags.delivering)
    && (t.flags.timer.Failed? ==> s.flags.timer.Failed?)
    && (s.flags.delivering ==> t.log == s.log)
  }

  lemma LaterTwice<T(!new)>(w: World<T>, a: Delaying<T>, b: Delaying<T>, c: Delaying<T>)
    requires Later(w, a, b) && Later(w, b, c) && b.fate == Fine
    ensures Later(w, a, c)
  {
    ContinuesTransitive(a.log, b.log, c.log);
  }

  lemma LaterAtOnce<T(!new)>(w: World<T>, s: Delaying<T>, t: Delaying<T>)
    requires t.log == s.log || (t.log.After? && t.log.before == s.log && !t.log.event.Requested?)
    requires Ample(w, s) ==> Ample(w, t)
    requires t.flags.delivering == s.flags.delivering && (s.flags.delivering ==> t.flags.cancelled == s.flags.cancelled)
    requires t.flags.timer.Failed? ==> s.flags.timer.Failed?
    requires s.flags.delivering ==> t.log == s.log
    ensures Later(w, s, t)
  {
    assert Continues(s.log, s.log);
  }

  // ----- the source's side

  lemma PushKeepsInv<T(!new)>(w: World<T>, s: Delaying<T>, outside: bool)
    requires Callable(w, s, outside) && s.flags.active && s.sent < |w.script.items| && 0 < s.waiting
    ensures var p := Pushed(w, s); Inv(w, p, outside) && Later(w, s, p)
  {
    hide Lawful, Received, Asked;
    var p := Pushed(w, s);
    assert w.script.items[..p.sent] == w.script.items[..s.sent] + [w.script.items[s.sent]];
    assert Undelivered(p) == Undelivered(s) + [w.script.items[s.sent]];
    LaterAtOnce(w, s, p);
  }

  lemma SignalKeepsSettled<T(!new)>(w: World<T>, s: Delaying<T>, outside: bool)
    requires Callable(w, s, outside) && CanSignal(w, s)
    ensures var t := Signalled(w, s); Settled(w, t, outside) && Later(w, s, t)
    decreases Total(w, s), 4, 0, 0
  {
    if s.sent == |w.script.items| {
      EndKeepsSettled(w, s, outside);
    } else {
      var p := Pushed(w, s);
      PushKeepsInv(w, s, outside);
      if |p.buffer| == 1 && !p.flags.delivering {
        ScheduleKeepsSettled(w, p, outside);
        LaterTwice(w, s, p, Scheduled(w, p));
      }
    }
  }

  lemma EndKeepsSettled<T(!new)>(w: World<T>, s: Delaying<T>, outside: bool)
    requires Callable(w, s, outside) && s.flags.active && s.sent == |w.script.items|
    ensures var t := SourceEnded(w, s); Settled(w, t, outside) && Later(w, s, t)
  {
    LaterAtOnce(w, s, SourceEnded(w, s));
  }

  lemma SourceKeepsSettled<T(!new)>(w: World<T>, s: Delaying<T>, outside: bool)
    requires Settled(w, s, outside)
    ensures var t := SourceSignalled(w, s); Settled(w, t, outside) && Later(w, s, t)
    decreases Total(w, s), 5, Unsent(w, s), if s.flags.active && !s.flags.deleted then 1 else 0
  {
    hide Inv, Resting;
    LaterAtOnce(w, s, s);
    if !s.flags.deleted && s.fate == Fine && CanSignal(w, s) && w.goesOn(s.log, s.sent) {
      SettledIsCallable(w, s, outside);
      SignalKeepsSettled(w, s, outside);
      var t := Signalled(w, s);
      if t.fate == Fine {
        SourceKeepsSettled(w, t, outside);
        LaterTwice(w, s, t, SourceSignalled(w, t));
      } else {
        assert SourceSignalled(w, t) == t;
      }
    }
  }

  lemma SettledIsCallable<T>(w: World<T>, s: Delaying<T>, outside: bool)
    requires Settled(w, s, outside) && !s.flags.deleted && s.fate == Fine
    ensures Callable(w, s, outside)
  {
  }

  // ----- the timer

  lemma ScheduleKeepsSettled<T(!new)>(w: World<T>, s: Delaying<T>, outside: bool)
    requires Ripe(w, s, outside)
    ensures var t := Scheduled(w, s); Settled(w, t, outside) && Later(w, s, t)
    decreases Total(w, s), 3, 0, 0
  {
    if w.immediate(s.log, s.buffer[0]) {
      FireKeepsSettled(w, s, outside);
    } else {
      LaterAtOnce(w, s, Scheduled(w, s));
    }
  }

  lemma FireKeepsSettled<T(!new)>(w: World<T>, s: Delaying<T>, outside: bool)
    requires Ripe(w, s, outside)
    ensures var t := Fired(w, s); Settled(w, t, outside) && Later(w, s, t)
    decreases Total(w, s), 2, 0, 0
  {
    if s.flags.cancelled || s.needs == 0 {
      LaterAtOnce(w, s, Fired(w, s));
    } else {
      var d := Delivered(w, s);
      DeliveryKeepsInv(w, s, outside);
      if d.fate == Fine {
        AfterDeliveryKeepsSettled(w, d, outside);
        LaterTwice(w, s, d, AfterDelivery(w, d));
      }
    }
  }

  lemma HandingOverKeepsCallable<T(!new)>(w: World<T>, s: Delaying<T>, outside: bool)
    requires Ripe(w, s, outside) && !s.flags.cancelled && 0 < s.needs
    ensures var h := Handed(s);
      && Callable(w, h, outside) && h.flags.delivering && !Closed(h.log) && 0 < |Received(h.log)|
      && (Ample(w, s) ==> Ample(w, h)) && Asked(h.log) == Asked(s.log)
  {
    hide Split;
    var h := Handed(s);
    assert s.buffer == [s.buffer[0]] + s.buffer[1..];
    SplitMoves(w, Received(s.log), s.buffer, s.sent);
    assert Received(h.log) == Received(s.log) + [s.buffer[0]];
  }

  lemma SplitMoves<T>(w: World<T>, delivered: seq<T>, undelivered: seq<T>, sent: nat)
    requires sent <= |w.script.items| && Split(w, delivered, undelivered, sent) && undelivered != []
    ensures Split(w, delivered + [undelivered[0]], undelivered[1..], sent)
  {
    assert delivered + [undelivered[0]] + undelivered[1..] == delivered + undelivered;
  }

  lemma PoppingKeepsInv<T(!new)>(w: World<T>, s: Delaying<T>, outside: bool)
    requires Inv(w, s, outside) && s.flags.delivering && s.fate == Fine
    ensures s.buffer != []
    ensures var p := s.(flags := s.flags.(delivering := false), buffer := s.buffer[1..]);
      Inv(w, p, outside) && (Ample(w, s) ==> Ample(w, p))
  {
    hide Lawful, Received;
    var p := s.(flags := s.flags.(delivering := false), buffer := s.buffer[1..]);
    assert Undelivered(p) == Undelivered(s);
  }

  lemma DeliveryKeepsInv<T(!new)>(w: World<T>, s: Delaying<T>, outside: bool)
    requires Ripe(w, s, outside) && !s.flags.cancelled && 0 < s.needs
    ensures var d := Delivered(w, s);
      && Inv(w, d, outside) && !d.flags.deleted && d.flags.timer.Off? && Later(w, s, d)
      && Continues(After(s.log, Next(s.buffer[0])), d.log)
      && (d.fate == Fine ==> !d.flags.delivering && 0 < |Received(d.log)|)
      && Received(d.log) == Received(s.log) + [s.buffer[0]]
      && (d.fate == Fine ==> d.log == Deliver(s.log, s.buffer[0], w.react))
    decreases Total(w, s), 1, 0, 0
  {
    hide Inv;
    var h := Handed(s);
    HandingOverKeepsCallable(w, s, outside);
    var r := w.react(h.log);
    var asked := Asking(w, h, r.requests);
    AskingKeepsInv(w, h, r.requests, outside);
    if r.cancels && asked.fate == Fine {
      CancelsLater(h.log, asked.log, w.react);
      CancellingKeepsInv(w, asked, outside);
      assert Continues(asked.log, Cancelling(asked).log);
      ContinuesTransitive(h.log, asked.log, Cancelling(asked).log);
    }
    var c := if r.cancels && asked.fate == Fine then Cancelling(asked) else asked;
    if c.fate == Fine {
      PoppingKeepsInv(w, c, outside);
      ReceivedGrows(h.log, c.log);
    }
    assert Continues(s.log, h.log);
    ContinuesTransitive(s.log, h.log, c.log);
  }

  lemma {:induction false} ReceivedGrows<T>(log: Log<T>, later: Log<T>)
    requires Continues(log, later)
    ensures |Received(log)| <= |Received(later)| && Asked(log) <= Asked(later)
    decreases later
  {
    if later != log {
      ReceivedGrows(log, later.before);
    }
  }

  lemma AfterDeliveryKeepsSettled<T(!new)>(w: World<T>, s: Delaying<T>, outside: bool)
    requires Inv(w, s, outside) && !s.flags.deleted && s.fate == Fine && !s.flags.delivering && s.flags.timer.Off?
    requires 0 < |Received(s.log)|
    ensures var t := AfterDelivery(w, s); Settled(w, t, outside) && Later(w, s, t)
    decreases Total(w, s), 8, 0, 0
  {
    if s.flags.cancelled {
      LaterAtOnce(w, s, AfterDelivery(w, s));
    } else if s.buffer != [] {
      ScheduleKeepsSettled(w, s, outside);
    } else if s.flags.active {
      ToppingUpKeepsSettled(w, s, outside);
    } else {
      assert Received(s.log) == w.script.items;
      LaterAtOnce(w, s, AfterDelivery(w, s));
    }
  }

  // ----- the sink's side

  lemma AskingKeepsInv<T(!new)>(w: World<T>, s: Delaying<T>, requests: seq<pos>, outside: bool)
    requires Inv(w, s, outside) && s.flags.delivering && s.flags.timer.Off? && !s.flags.deleted && !Closed(s.log)
    ensures var t := Asking(w, s, requests);
      && Inv(w, t, outside) && t.flags.delivering && t.flags.timer.Off? && !t.flags.deleted && !Closed(t.log)
      && Continues(s.log, t.log) && (Ample(w, s) ==> Ample(w, t)) && (requests == [] ==> t == s)
      && Received(t.log) == Received(s.log) && (t.fate == Fine ==> t.log == Ask(s.log, requests))
    decreases Total(w, s), 9, |requests|, 0
  {
    hide Inv;
    LaterAtOnce(w, s, s);
    if requests != [] && s.fate == Fine {
      var t := RequestMade(w, s, requests[0]);
      DeliveringIsCallable(w, s, outside);
      RequestKeepsSettled(w, s, requests[0], outside);
      StaysOpen(w, t, outside);
      assert Continues(s.log, After(s.log, Requested(requests[0])));
      ContinuesTransitive(s.log, After(s.log, Requested(requests[0])), t.log);
      AskingKeepsInv(w, t, requests[1..], outside);
      ContinuesTransitive(s.log, t.log, Asking(w, t, requests[1..]).log);
    }
  }

  lemma DeliveringIsCallable<T>(w: World<T>, s: Delaying<T>, outside: bool)
    requires Inv(w, s, outside) && s.flags.delivering && s.flags.timer.Off? && !s.flags.deleted && s.fate == Fine
      && !Closed(s.log)
    ensures Callable(w, s, outside) && !s.flags.cancelled
  {
  }

  lemma StaysOpen<T>(w: World<T>, s: Delaying<T>, outside: bool)
    requires Inv(w, s, outside) && !s.flags.deleted && !s.flags.cancelled
    ensures !Closed(s.log)
  {
  }

  lemma RequestKeepsSettled<T(!new)>(w: World<T>, s: Delaying<T>, n: pos, outside: bool)
    requires Callable(w, s, outside) && !Closed(s.log) && (!s.flags.delivering ==> Resting(w, s, outside))
    ensures var t := RequestMade(w, s, n);
      && Settled(w, t, outside) && Continues(After(s.log, Requested(n)), t.log)
      && (Ample(w, s) || (s.flags.active && Total(w, s) <= s.needs + n) ==> Ample(w, t))
      && (NeverAsks(w.react) ==> Asked(t.log) == Asked(s.log) + n)
      && (s.flags.delivering ==> t.flags.delivering && t.flags.cancelled == s.flags.cancelled)
      && (!s.flags.delivering && t.fate == Fine ==> !t.flags.delivering)
      && (t.fate == Overflow <== s.flags.active && n > INT_MAX - s.needs)
      && (t.flags.timer.Failed? ==> s.flags.timer.Failed?)
      && (s.flags.delivering ==> t.log == After(s.log, Requested(n)))
    decreases Total(w, s), 7, 0, 0
  {
    hide Inv, Resting, Rash;
    var log := After(s.log, Requested(n));
    if s.flags.active && n <= INT_MAX - s.needs {
      AcceptingKeepsCallable(w, s, n, outside);
      ToppingUpKeepsSettled(w, s.(log := log, needs := s.needs + n), outside);
    } else {
      NotAcceptingKeepsSettled(w, s, n, outside);
      assert Continues(log, log);
    }
  }

  /** After a request is counted, and before the source can answer it. */
  function Counted<T>(s: Delaying<T>, n: pos): Delaying<T>
  {
    var needs := s.needs + n;
    var m := Requesting(needs, |s.buffer|, s.waiting);
    s.(log := After(s.log, Requested(n)), needs := needs, waiting := s.waiting + m, granted := s.granted + m,
       rash := s.rash || Rash(needs, |s.buffer|, s.waiting, s.flags.delivering))
  }

  lemma CountingIsRequesting<T>(w: World<T>, s: Delaying<T>, n: pos)
    requires s.flags.active && n <= INT_MAX - s.needs
    ensures var c := Counted(s, n);
      RequestMade(w, s, n) == if c.waiting == s.waiting then c else SourceSignalled(w, c)
  {
    hide SourceSignalled, Rash, Requesting;
  }

  lemma AcceptingKeepsCallable<T(!new)>(w: World<T>, s: Delaying<T>, n: pos, outside: bool)
    requires Callable(w, s, outside) && !Closed(s.log) && s.flags.active && n <= INT_MAX - s.needs
    ensures var a := s.(log := After(s.log, Requested(n)), needs := s.needs + n);
      && Callable(w, a, outside) && Asked(a.log) == Asked(s.log) + n
      && (Asked(a.log) <= 1 ==> !Rash(a.needs, |a.buffer|, a.waiting, a.flags.delivering))
      && (Ample(w, s) || Total(w, s) <= s.needs + n ==> Ample(w, a))
  {
    hide Split;
    assert Received(After(s.log, Requested(n))) == Received(s.log);
  }

  lemma NotAcceptingKeepsSettled<T(!new)>(w: World<T>, s: Delaying<T>, n: pos, outside: bool)
    requires Callable(w, s, outside) && !Closed(s.log) && (!s.flags.delivering ==> Resting(w, s, outside))
    requires !(s.flags.active && n <= INT_MAX - s.needs)
    ensures var t := RequestMade(w, s, n);
      && Settled(w, t, outside) && t.log == After(s.log, Requested(n))
        && (Ample(w, s) || s.flags.active ==> Ample(w, t))
      && Asked(t.log) == Asked(s.log) + n && t.flags == s.flags && (t.fate == Overflow <==> s.flags.active)
  {
    hide Split;
    assert Received(After(s.log, Requested(n))) == Received(s.log);
  }

  lemma ToppingUpKeepsSettled<T(!new)>(w: World<T>, s: Delaying<T>, outside: bool)
    requires Callable(w, s, outside) && s.flags.active && !Closed(s.log)
    requires Asked(s.log) <= 1 ==> !Rash(s.needs, |s.buffer|, s.waiting, s.flags.delivering)
    ensures var t := ToppedUp(w, s); Settled(w, t, outside) && Later(w, s, t)
    decreases Total(w, s), 6, 0, 0
  {
    hide Inv, Later, Rash, Requesting, Callable;
    var m := Requesting(s.needs, |s.buffer|, s.waiting);
    var r := s.(rash := s.rash || Rash(s.needs, |s.buffer|, s.waiting, s.flags.delivering));
    var t := if m == 0 then r else r.(waiting := s.waiting + m, granted := s.granted + m);
    MoreOnItsWayIsSettled(w, s, outside);
    if m != 0 {
      SourceKeepsSettled(w, t, outside);
      LaterTwice(w, s, t, SourceSignalled(w, t));
    }
  }

  lemma MoreOnItsWayIsSettled<T(!new)>(w: World<T>, s: Delaying<T>, outside: bool)
    requires Callable(w, s, outside) && s.flags.active && !Closed(s.log)
    requires Asked(s.log) <= 1 ==> !Rash(s.needs, |s.buffer|, s.waiting, s.flags.delivering)
    ensures s.fate == Fine
    ensures var m := Requesting(s.needs, |s.buffer|, s.waiting);
      var t := s.(rash := s.rash || Rash(s.needs, |s.buffer|, s.waiting, s.flags.delivering),
                  waiting := s.waiting + m, granted := s.granted + m);
      Settled(w, t, outside) && Later(w, s, t)
  {
    hide Split, Lawful, Received, Asked;
    var m := Requesting(s.needs, |s.buffer|, s.waiting);
    if !s.rash {
      OverasksExactlyWhenRash(s.needs, |s.buffer|, s.waiting, s.flags.delivering);
    }
    var t := s.(rash := s.rash || Rash(s.needs, |s.buffer|, s.waiting, s.flags.delivering), waiting := s.waiting + m,
                granted := s.granted + m);
    LaterAtOnce(w, s, t);
  }

  lemma CancellingKeepsInv<T(!new)>(w: World<T>, s: Delaying<T>, outside: bool)
    requires Callable(w, s, outside) && !Closed(s.log) && (outside || Cancels(s.log, w.react))
    ensures var t := Cancelling(s);
      && Settled(w, t, outside) && t.log == After(s.log, Cancelled)
      && (Ample(w, s) ==> Ample(w, t)) && Asked(t.log) == Asked(s.log)
  {
    hide Split;
    assert Received(After(s.log, Cancelled)) == Received(s.log);
  }
}
