/**
 The conversation between a demand-driven source and its subscriber, as a log of
 what the subscriber saw and did, and the reference meaning of such a source:
 a list cut at the demand given.
 */
module Demand {
  import opened Histories

  const INT_MAX: int := 0x7FFF_FFFF

  type pos = n: int | 0 < n witness 1

  /** How a stream ends. */
  datatype Ending = Complete | Failure(code: int)

  /** One event at the border between a source and its subscriber. */
  datatype Event<T> = Requested(n: pos) | Next(item: T) | Cancelled | Ended(ending: Ending)

  type Log<T> = History<Event<T>>

  /** What a subscriber does from inside on_next: any number of requests, then possibly a cancel. */
  datatype Reaction = Reaction(requests: seq<pos>, cancels: bool)

  /** A subscriber: its reaction to an item may depend on everything that happened before. */
  type Subscriber<!T> = Log<T> -> Reaction

  /** A finite stream: its items and how it ends. */
  datatype Script<T> = Script(items: seq<T>, ending: Ending)

  // ----- reading a log

  function Asked<T>(log: Log<T>): nat
  {
    if log.Start? then 0 else Asked(log.before) + (if log.event.Requested? then log.event.n else 0)
  }

  function Received<T>(log: Log<T>): seq<T>
  {
    if log.Start? then []
    else Received(log.before) + (if log.event.Next? then [log.event.item] else [])
  }

  /** Demand still to be served; negative only for a log that breaks rule 1.1. */
  function Needs<T>(log: Log<T>): int
  {
    Asked(log) - |Received(log)|
  }

  predicate IsCancelled<T>(log: Log<T>)
  {
    log.After? && log.event.Cancelled?
  }

  predicate HasEnded<T>(log: Log<T>)
  {
    log.After? && log.event.Ended?
  }

  predicate Closed<T>(log: Log<T>)
  {
    IsCancelled(log) || HasEnded(log)
  }

  /**
   Rules 1.1 and 1.7 of the Reactive Streams specification over the whole log: no item
   beyond the demand given up to that moment, and nothing at all after a terminal signal
   or a cancellation.
   */
  ghost predicate Lawful<T>(log: Log<T>)
  {
    log.Start? ||
    (Lawful(log.before) && !Closed(log.before) && (log.event.Next? ==> 0 < Needs(log.before)))
  }

  lemma {:induction false} LawfulNeeds<T>(log: Log<T>)
    requires Lawful(log)
    ensures 0 <= Needs(log)
    decreases log
  {
    if log.After? {
      LawfulNeeds(log.before);
    }
  }

  // ----- the subscriber

  /** At some item of the conversation the subscriber cancels. */
  predicate Cancels<T>(log: Log<T>, react: Subscriber<T>)
  {
    log.After? && ((log.event.Next? && react(log).cancels) || Cancels(log.before, react))
  }

  lemma {:induction false} CancelsLater<T>(log: Log<T>, later: Log<T>, react: Subscriber<T>)
    requires Continues(log, later) && Cancels(log, react)
    ensures Cancels(later, react)
    decreases later
  {
    if later != log {
      CancelsLater(log, later.before, react);
    }
  }

  function Ask<T>(log: Log<T>, requests: seq<pos>): Log<T>
    decreases |requests|
  {
    if requests == [] then log else Ask(After(log, Requested(requests[0])), requests[1..])
  }

  function React<T>(log: Log<T>, react: Subscriber<T>): Log<T>
  {
    var r := react(log);
    if r.cancels then After(Ask(log, r.requests), Cancelled) else Ask(log, r.requests)
  }

  /** The log after one item was handed over and the subscriber reacted to it. */
  function Deliver<T>(log: Log<T>, item: T, react: Subscriber<T>): Log<T>
  {
    React(After(log, Next(item)), react)
  }

  function Sum(requests: seq<pos>): nat
  {
    if requests == [] then 0 else requests[0] + Sum(requests[1..])
  }

  /** Every request is made, in order. */
  lemma {:induction false} AskIsInOrder<T>(log: Log<T>, requests: seq<pos>, n: pos)
    ensures Ask(log, requests + [n]) == After(Ask(log, requests), Requested(n))
    ensures Asked(Ask(log, requests)) == Asked(log) + Sum(requests)
    decreases |requests|
  {
    if requests == [] {
      assert Ask(After(log, Requested(n)), []) == After(log, Requested(n));
    } else {
      var next := After(log, Requested(requests[0]));
      AskIsInOrder(next, requests[1..], n);
      assert (requests + [n])[1..] == requests[1..] + [n];
    }
  }

  /** After every item comes what the subscriber does when it gets it. */
  ghost predicate Obeyed<T(!new)>(log: Log<T>, react: Subscriber<T>)
  {
    forall p :: Continues(p, log) && p.After? && p.event.Next? ==> Continues(React(p, react), log)
  }

  lemma ObeyedAfter<T(!new)>(log: Log<T>, e: Event<T>, react: Subscriber<T>)
    requires Obeyed(log, react) && !e.Next?
    ensures Obeyed(After(log, e), react)
  {
    var next := After(log, e);
    forall p | Continues(p, next) && p.After? && p.event.Next? ensures Continues(React(p, react), next) {
      assert Continues(p, log);
      ContinuesTransitive(React(p, react), log, next);
    }
  }

  lemma {:induction false} ReactionsHaveNoItems<T>(p: Log<T>, log: Log<T>, requests: seq<pos>)
    requires Continues(p, Ask(log, requests)) && p.After? && p.event.Next?
    ensures Continues(p, log)
    decreases |requests|
  {
    if requests != [] {
      ReactionsHaveNoItems(p, After(log, Requested(requests[0])), requests[1..]);
    }
  }

  lemma ObeyedDelivery<T(!new)>(log: Log<T>, item: T, react: Subscriber<T>)
    requires Obeyed(log, react) && !Closed(log)
    ensures Obeyed(Deliver(log, item, react), react)
  {
    var handed, next := After(log, Next(item)), Deliver(log, item, react);
    DeliverEffect(log, item, react);
    ReactEffect(handed, react);
    forall p | Continues(p, next) && p.After? && p.event.Next? ensures Continues(React(p, react), next) {
      ReactionsHaveNoItems(p, handed, react(handed).requests);
      if p != handed {
        ContinuesTransitive(React(p, react), log, next);
      }
    }
  }

  lemma {:induction false} AskEffect<T>(log: Log<T>, requests: seq<pos>)
    requires !Closed(log)
    ensures var out := Ask(log, requests);
      !Closed(out) && Received(out) == Received(log) && Asked(log) <= Asked(out)
      && Continues(log, out) && (Lawful(log) ==> Lawful(out))
    decreases |requests|
  {
    if requests != [] {
      var next := After(log, Requested(requests[0]));
      AskEffect(next, requests[1..]);
      ContinuesTransitive(log, next, Ask(log, requests));
    }
  }

  lemma ReactEffect<T>(log: Log<T>, react: Subscriber<T>)
    requires !Closed(log)
    ensures var out := React(log, react);
      && Received(out) == Received(log) && Asked(log) <= Asked(out)
      && Needs(out) == Needs(Ask(log, react(log).requests))
      && Continues(log, out) && (Lawful(log) ==> Lawful(out))
      && !HasEnded(out) && (Closed(out) <==> react(log).cancels)
  {
    AskEffect(log, react(log).requests);
  }

  lemma DeliverEffect<T>(log: Log<T>, item: T, react: Subscriber<T>)
    requires !Closed(log)
    ensures var out := Deliver(log, item, react);
      && Received(out) == Received(log) + [item] && Asked(log) <= Asked(out)
      && Continues(log, out) && (Lawful(log) && 0 < Needs(log) ==> Lawful(out))
      && !HasEnded(out) && (Closed(out) <==> react(After(log, Next(item))).cancels)
  {
    var next := After(log, Next(item));
    ReactEffect(next, react);
    ContinuesTransitive(log, next, Deliver(log, item, react));
  }

  // ----- the reference source

  /**
   The reference: while there is demand, hand over the next item and let the subscriber
   react; when there is demand but no item left, end.
   */
  function Serve<T>(log: Log<T>, rest: Script<T>, react: Subscriber<T>): Log<T>
    decreases |rest.items|
  {
    if Closed(log) || Needs(log) <= 0 then log
    else if rest.items == [] then After(log, Ended(rest.ending))
    else Serve(Deliver(log, rest.items[0], react), Script(rest.items[1..], rest.ending), react)
  }

  function Min(a: int, b: int): int { if a < b then a else b }

  /** The log is a run over `script` so far: a prefix of it, ended only after all of it. */
  ghost predicate Follows<T>(log: Log<T>, script: Script<T>)
  {
    && Lawful(log)
    && Received(log) <= script.items
    && (HasEnded(log) ==>
          log.event == Ended(script.ending) && Received(log) == script.items && |script.items| < Asked(log))
  }

  /**
   At rest: nothing is owed to the subscriber, or the conversation is over. A subscriber that
   did not cancel has exactly the first min(R, length) items of the list, where R is everything
   it asked for up to now, and was told of the end if and only if it asked for more than there
   was.
   */
  ghost predicate AtRest<T>(log: Log<T>, script: Script<T>)
  {
    && Follows(log, script)
    && (Closed(log) || Needs(log) == 0)
    && (!IsCancelled(log) ==>
          |Received(log)| == Min(Asked(log), |script.items|)
          && (HasEnded(log) <==> |script.items| < Asked(log)))
  }

  function Rest<T>(log: Log<T>, script: Script<T>): Script<T>
    requires |Received(log)| <= |script.items|
  {
    Script(script.items[|Received(log)|..], script.ending)
  }

  lemma ServeStep<T>(log: Log<T>, script: Script<T>, react: Subscriber<T>)
    requires Follows(log, script) && !Closed(log) && 0 < Needs(log)
    requires |Received(log)| < |script.items|
    ensures var next := Deliver(log, script.items[|Received(log)|], react);
      && Follows(next, script) && |Received(next)| == |Received(log)| + 1
      && Continues(log, next) && !HasEnded(next)
      && Serve(log, Rest(log, script), react) == Serve(next, Rest(next, script), react)
  {
    hide Asked, Deliver, Lawful;
    var k := |Received(log)|;
    DeliverEffect(log, script.items[k], react);
    assert Received(Deliver(log, script.items[k], react)) == script.items[..k + 1];
    assert script.items[k..][1..] == script.items[k + 1..];
  }

  /** What the reference means, for every subscriber. */
  lemma {:induction false} ServeCutsListAtDemand<T>(log: Log<T>, script: Script<T>, react: Subscriber<T>)
    requires Follows(log, script) && !Closed(log)
    ensures var out := Serve(log, Rest(log, script), react);
      AtRest(out, script) && Continues(log, out)
    decreases |script.items| - |Received(log)|
  {
    LawfulNeeds(log);
    if Needs(log) > 0 && |Received(log)| < |script.items| {
      ServeStep(log, script, react);
      var next := Deliver(log, script.items[|Received(log)|], react);
      LawfulNeeds(next);
      if !Closed(next) {
        ServeCutsListAtDemand(next, script, react);
        ContinuesTransitive(log, next, Serve(log, Rest(log, script), react));
      }
    }
  }

  // ----- calls from outside of on_next

  /** What the owner of a subscription does between deliveries. */
  datatype Call = CallRequest(n: pos) | CallCancel

  /** One call made at rest, served to the next rest. */
  function ServeCall<T>(log: Log<T>, call: Call, script: Script<T>, react: Subscriber<T>): Log<T>
    requires |Received(log)| <= |script.items|
  {
    match call
    case CallCancel => After(log, Cancelled)
    case CallRequest(n) => Serve(After(log, Requested(n)), Rest(log, script), react)
  }

  /** A whole session: each call is served to rest before the next one; calls stop at the end. */
  function Session<T>(log: Log<T>, calls: seq<Call>, script: Script<T>, react: Subscriber<T>): Log<T>
    decreases |calls|
  {
    if calls == [] || Closed(log) || |Received(log)| > |script.items| then log
    else Session(ServeCall(log, calls[0], script, react), calls[1..], script, react)
  }

  /** The same over a whole session of calls and re-entrant reactions, from the first call on. */
  lemma {:induction false} SessionCutsListAtDemand<T>(log: Log<T>, calls: seq<Call>, script: Script<T>,
                                                      react: Subscriber<T>)
    requires AtRest(log, script)
    ensures AtRest(Session(log, calls, script, react), script)
    ensures Continues(log, Session(log, calls, script, react))
    decreases |calls|
  {
    hide Serve;
    if calls != [] && !Closed(log) {
      match calls[0]
      case CallCancel =>
      case CallRequest(n) =>
        var asked := After(log, Requested(n));
        var served := Serve(asked, Rest(asked, script), react);
        ServeCutsListAtDemand(asked, script, react);
        SessionCutsListAtDemand(served, calls[1..], script, react);
        ContinuesTransitive(log, asked, served);
        ContinuesTransitive(log, served, Session(log, calls, script, react));
    }
  }

  // ----- what the subscriber asks for is what counts

  /** All that the subscriber has asked for from on_next. */
  function AskedInside<T>(log: Log<T>, react: Subscriber<T>): nat
  {
    if log.Start? then 0
    else AskedInside(log.before, react) + (if log.event.Next? then Sum(react(log).requests) else 0)
  }

  lemma {:induction false} AskingCounts<T>(log: Log<T>, requests: seq<pos>, react: Subscriber<T>)
    ensures Asked(Ask(log, requests)) == Asked(log) + Sum(requests)
    ensures AskedInside(Ask(log, requests), react) == AskedInside(log, react)
    decreases |requests|
  {
    if requests != [] {
      AskingCounts(After(log, Requested(requests[0])), requests[1..], react);
    }
  }

  lemma {:induction false} ServeObeys<T(!new)>(log: Log<T>, rest: Script<T>, react: Subscriber<T>)
    requires Obeyed(log, react)
    ensures var out := Serve(log, rest, react);
      && Obeyed(out, react)
      && Asked(out) - AskedInside(out, react) == Asked(log) - AskedInside(log, react)
    decreases |rest.items|
  {
    if !Closed(log) && Needs(log) > 0 {
      if rest.items == [] {
        ObeyedAfter(log, Ended(rest.ending), react);
      } else {
        var handed := After(log, Next(rest.items[0]));
        ObeyedDelivery(log, rest.items[0], react);
        AskingCounts(handed, react(handed).requests, react);
        ServeObeys(Deliver(log, rest.items[0], react), Script(rest.items[1..], rest.ending), react);
      }
    }
  }

  /** All that is asked for from outside. */
  function AskedOutside(calls: seq<Call>): nat
  {
    if calls == [] then 0 else (if calls[0].CallRequest? then calls[0].n else 0) + AskedOutside(calls[1..])
  }

  /** Over a session every reaction is done; and while the conversation is open every call has been made. */
  lemma {:induction false} SessionObeys<T(!new)>(log: Log<T>, calls: seq<Call>, script: Script<T>, react: Subscriber<T>)
    requires AtRest(log, script) && Obeyed(log, react)
    ensures var out := Session(log, calls, script, react);
      && Obeyed(out, react)
      && (!Closed(out) ==>
            && (forall i :: 0 <= i < |calls| ==> calls[i].CallRequest?)
            && Asked(out) - AskedInside(out, react) == Asked(log) - AskedInside(log, react) + AskedOutside(calls))
    decreases |calls|
  {
    if calls != [] && !Closed(log) {
      match calls[0]
      case CallCancel =>
        ObeyedAfter(log, Cancelled, react);
      case CallRequest(n) =>
        var asked := After(log, Requested(n));
        ObeyedAfter(log, Requested(n), react);
        ServeObeys(asked, Rest(asked, script), react);
        ServeCutsListAtDemand(asked, script, react);
        SessionObeys(Serve(asked, Rest(asked, script), react), calls[1..], script, react);
    }
  }
}
