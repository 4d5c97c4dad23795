/** When flat_map fails a CHECK, told from the conversation with its subscriber and the inner lists alone. */
module FlatMapFailures {
  import opened Wrappers
  import opened Histories
  import opened Demand
  import opened FlatMaps

  /** Of an item: it is the first of its inner stream; a normal end of that stream is all that follows it there. */
  datatype Mark = Mark(opens: bool, closes: bool)

  /** The marks of what is left of an inner stream, all of it if it has just `begun`. */
  function MarksOf<T>(script: Script<T>, begun: bool): (marks: seq<Mark>)
    ensures |marks| == |script.items|
  {
    seq(|script.items|, i => Mark(begun && i == 0, i == |script.items| - 1 && script.ending.Complete?))
  }

  function Marks<S, T>(outer: seq<S>, fn: S -> Inner<T>): seq<Mark>
  {
    if outer == [] then [] else MarksOf(Content(fn(outer[0])), true) + Marks(outer[1..], fn)
  }

  function MarksAhead<S, T>(current: Option<Script<T>>, begun: bool, outer: seq<S>, fn: S -> Inner<T>): seq<Mark>
  {
    (if current.Some? then MarksOf(current.value, begun) else []) + Marks(outer, fn)
  }

  /**
   What the inner stream in hand owes after `log`: whenever it has given all it was asked for,
   and at the start of a new one, all the outstanding demand is passed on.
   */
  function Owed<T>(log: Log<T>, marks: seq<Mark>): int
  {
    if log.Start? then 0
    else if log.event.Next? then
      var k := |Received(log.before)|;
      var owed := Owed(log.before, marks);
      (if owed == 0 || (k < |marks| && marks[k].opens) then Needs(log.before) else owed) - 1
    else Owed(log.before, marks)
  }

  lemma {:induction false} OwedIsNeeded<T>(log: Log<T>, marks: seq<Mark>)
    ensures Owed(log, marks) <= Needs(log)
  {
    if log.After? {
      OwedIsNeeded(log.before, marks);
    }
  }

  /**
   The subscriber has cancelled while the inner stream owed it something, and on an item that does
   not close that stream.
   */
  predicate CancelledInside<T>(log: Log<T>, marks: seq<Mark>)
  {
    && IsCancelled(log) && 0 < Owed(log, marks)
    && 0 < |Received(log)| <= |marks| && !marks[|Received(log)| - 1].closes
  }

  lemma {:induction false} OwedAfterAsking<T>(log: Log<T>, requests: seq<pos>, marks: seq<Mark>)
    ensures Owed(Ask(log, requests), marks) == Owed(log, marks)
    decreases |requests|
  {
    if requests != [] {
      OwedAfterAsking(After(log, Requested(requests[0])), requests[1..], marks);
    }
  }

  lemma OwedAfterDelivery<T>(log: Log<T>, item: T, react: Subscriber<T>, marks: seq<Mark>)
    requires |Received(log)| < |marks|
    ensures Owed(Deliver(log, item, react), marks)
         == (if Owed(log, marks) == 0 || marks[|Received(log)|].opens then Needs(log) else Owed(log, marks)) - 1
  {
    var handed := After(log, Next(item));
    OwedAfterAsking(handed, react(handed).requests, marks);
  }

  /** Where a run stands in the list of marks. */
  ghost predicate Located<S, T>(log: Log<T>, current: Option<Script<T>>, begun: bool, outer: seq<S>, fn: S -> Inner<T>,
                                marks: seq<Mark>)
  {
    |Received(log)| <= |marks| && marks[|Received(log)|..] == MarksAhead(current, begun, outer, fn)
  }

  lemma LocatedAfterDelivery<S, T>(log: Log<T>, next: Log<T>, items: seq<T>, end: Ending, begun: bool, outer: seq<S>,
                                   fn: S -> Inner<T>, marks: seq<Mark>)
    requires items != [] && Located(log, Some(Script(items, end)), begun, outer, fn, marks)
    requires Received(next) == Received(log) + [items[0]]
    ensures Located(next, Some(Script(items[1..], end)), false, outer, fn, marks)
    ensures |Received(log)| < |marks| && marks[|Received(log)|] == Mark(begun, |items| == 1 && end.Complete?)
  {
    hide Received, Marks;
    var k := |Received(log)|;
    var now := MarksOf(Script(items, end), begun);
    assert marks[k..] == now + Marks(outer, fn);
    assert marks[k] == marks[k..][0] == now[0];
    assert marks[k + 1..] == marks[k..][1..] == now[1..] + Marks(outer, fn);
    assert now[1..] == MarksOf(Script(items[1..], end), false);
  }

  lemma NextStream<S, T>(log: Log<T>, begun: bool, outer: seq<S>, fn: S -> Inner<T>, marks: seq<Mark>)
    requires outer != [] && Located(log, None, begun, outer, fn, marks)
    ensures Located(log, Some(Content(fn(outer[0]))), true, outer[1..], fn, marks)
  {
    var none: seq<Mark> := [];
    assert none + Marks(outer, fn) == Marks(outer, fn);
  }

  lemma NoItemLeft<S, T>(log: Log<T>, end: Ending, begun: bool, outer: seq<S>, fn: S -> Inner<T>, marks: seq<Mark>)
    requires Located(log, Some(Script([], end)), begun, outer, fn, marks)
    ensures Located(log, None, false, outer, fn, marks)
  {
    var none: Script<T> := Script([], end);
    assert MarksOf(none, begun) == [];
  }

  /** One delivery; if the subscriber then cancels, what it leaves behind. */
  lemma DeliveryStays<S, T>(log: Log<T>, items: seq<T>, end: Ending, begun: bool, outer: seq<S>, fn: S -> Inner<T>,
                            react: Subscriber<T>, marks: seq<Mark>)
    requires !Closed(log) && items != [] && Located(log, Some(Script(items, end)), begun, outer, fn, marks)
    ensures var next := Deliver(log, items[0], react);
      var left := Script(items[1..], end);
      && !HasEnded(next) && Located(next, Some(left), false, outer, fn, marks)
      && Owed(next, marks) == (if Owed(log, marks) == 0 || begun then Needs(log) else Owed(log, marks)) - 1
      && (Closed(next) ==> (CancelledInside(next, marks) <==> 0 < Owed(next, marks) && left != Script([], Complete)))
  {
    hide Owed, Marks, MarksOf;
    var next := Deliver(log, items[0], react);
    DeliverEffect(log, items[0], react);
    LocatedAfterDelivery(log, next, items, end, begun, outer, fn, marks);
    OwedAfterDelivery(log, items[0], react, marks);
  }

  /** One run from rest to rest. */
  lemma {:induction false} ServeFailsExactlyWhen<S, T>(log: Log<T>, waiting: nat, current: Option<Script<T>>,
                                                       begun: bool, outer: seq<S>,
                                                       ending: Ending, fn: S -> Inner<T>, react: Subscriber<T>,
                                                       marks: seq<Mark>)
    requires !Closed(log) && Located(log, current, begun, outer, fn, marks) && 0 <= Owed(log, marks)
    requires begun ==> 0 < Needs(log)
    requires current.Some? ==> waiting == if begun then Needs(log) else Owed(log, marks)
    ensures var out := FlatServe(log, waiting, current, outer, ending, fn, react);
      && (out.aborted <==> CancelledInside(out.log, marks))
      && (!Closed(out.log) ==>
            Located(out.log, out.current, false, out.outer, fn, marks) && 0 <= Owed(out.log, marks)
              && Needs(out.log) <= 0)
    decreases |outer|, if current.Some? then 1 + |current.value.items| else 0
  {
    hide Owed, Received, Asked, Deliver, MarksOf, Marks;
    if 0 < Needs(log) {
      match current
      case None =>
        if outer != [] {
          NextStream(log, begun, outer, fn, marks);
          ServeFailsExactlyWhen(log, Needs(log), Some(Content(fn(outer[0]))), true, outer[1..], ending, fn, react,
                                marks);
        }
      case Some(Script(items, end)) =>
        var owed := if waiting == 0 then Needs(log) else waiting;
        if items != [] {
          var next := Deliver(log, items[0], react);
          var left := Script(items[1..], end);
          DeliveryStays(log, items, end, begun, outer, fn, react, marks);
          if !Closed(next) {
            ServeFailsExactlyWhen(next, owed - 1, Some(left), false, outer, ending, fn, react, marks);
          }
        } else if end.Complete? {
          NoItemLeft(log, end, begun, outer, fn, marks);
          ServeFailsExactlyWhen(log, 0, None, false, outer, ending, fn, react, marks);
        }
    }
  }

  lemma {:induction false} SessionFailsExactlyWhen<S, T>(f: Flat<S, T>, calls: seq<Call>, ending: Ending,
                                                         fn: S -> Inner<T>,
                                                         react: Subscriber<T>, marks: seq<Mark>)
    requires !Closed(f.log) && !f.aborted && Located(f.log, f.current, false, f.outer, fn, marks)
    requires Owed(f.log, marks) == 0
    ensures var out := FlatSession(f, calls, ending, fn, react); out.aborted <==> CancelledInside(out.log, marks)
    decreases |calls|
  {
    hide Located;
    if calls != [] {
      var next := FlatCall(f, calls[0], ending, fn, react);
      if calls[0].CallRequest? {
        var asked := After(f.log, Requested(calls[0].n));
        AskingStaysLocated(f, calls[0].n, fn, marks);
        ServeFailsExactlyWhen(asked, 0, f.current, false, f.outer, ending, fn, react, marks);
        OwedIsNeeded(next.log, marks);
      }
      if !Closed(next.log) {
        SessionFailsExactlyWhen(next, calls[1..], ending, fn, react, marks);
      }
    }
  }

  lemma AskingStaysLocated<S, T>(f: Flat<S, T>, n: pos, fn: S -> Inner<T>, marks: seq<Mark>)
    requires Located(f.log, f.current, false, f.outer, fn, marks)
    ensures Located(After(f.log, Requested(n)), f.current, false, f.outer, fn, marks)
  {
    assert Received(After(f.log, Requested(n))) == Received(f.log);
  }

  /**
   Over every session, for every subscriber: a CHECK fails if and only if the subscriber cancels
   while the inner stream owes it something, on an item that does not close that stream. Both can
   be told from what the subscriber has seen and done and from the lengths of the inner lists.
   */
  lemma FailsExactlyWhenCancelledInside<S, T>(calls: seq<Call>, outer: seq<S>, ending: Ending, fn: S -> Inner<T>,
                                              react: Subscriber<T>)
    ensures var out := FlatSession(Flat(Start, false, None, outer), calls, ending, fn, react);
      && (out.aborted <==> CancelledInside(out.log, Marks(outer, fn)))
      && (out.aborted ==> IsCancelled(out.log) && 0 < Needs(out.log))
  {
    var begin: Flat<S, T> := Flat(Start, false, None, outer);
    var out := FlatSession(begin, calls, ending, fn, react);
    assert Marks(outer, fn)[0..] == MarksAhead(begin.current, false, outer, fn);
    SessionFailsExactlyWhen(begin, calls, ending, fn, react, Marks(outer, fn));
    OwedIsNeeded(out.log, Marks(outer, fn));
  }

  /** In particular, a subscriber that cancels only when it has all it asked for never makes flat_map fail. */
  lemma ServedCancelIsSafe<S, T>(calls: seq<Call>, outer: seq<S>, ending: Ending, fn: S -> Inner<T>,
                                 react: Subscriber<T>)
    requires var log := Session(Start, calls, ConcatMap(outer, ending, fn), react);
      IsCancelled(log) ==> Needs(log) <= 0
    ensures !FlatSession(Flat(Start, false, None, outer), calls, ending, fn, react).aborted
  {
    FailsExactlyWhenCancelledInside(calls, outer, ending, fn, react);
    var whole: Script<T> := ConcatMap(outer, ending, fn);
    FlatSessionIsSession(Flat(Start, false, None, outer), calls, ending, fn, react, whole);
  }

  /** A session of flat_map shows the subscriber what one of the concatenated list would. */
  lemma {:induction false} FlatSessionIsSession<S, T>(f: Flat<S, T>, calls: seq<Call>, ending: Ending,
                                                      fn: S -> Inner<T>,
                                                      react: Subscriber<T>, whole: Script<T>)
    requires !Closed(f.log) ==> Splits(f.log, Ahead(f.current, f.outer, ending, fn), whole)
    ensures FlatSession(f, calls, ending, fn, react).log == Session(f.log, calls, whole, react)
    decreases |calls|
  {
    hide Splits, FlatServe, Serve;
    if calls != [] && !Closed(f.log) {
      SplitsIsPrefix(f.log, Ahead(f.current, f.outer, ending, fn), whole);
      if calls[0].CallRequest? {
        FlatRequestIsServe(f.log, calls[0].n, f.current, f.outer, ending, fn, react, whole);
      }
      FlatSessionIsSession(FlatCall(f, calls[0], ending, fn, react), calls[1..], ending, fn, react, whole);
    }
  }

  lemma SplitsIsPrefix<T>(log: Log<T>, ahead: Script<T>, whole: Script<T>)
    requires Splits(log, ahead, whole)
    ensures |Received(log)| <= |whole.items|
  {
  }
}
