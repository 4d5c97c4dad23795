/** flat_map over a demand-driven source of inner publishers. */
module FlatMaps {
  import opened Wrappers
  import opened Histories
  import opened Demand

  /** What the mapped function returns: a generator, `empty()` or `error(code)`. */
  datatype Inner<T> = Generated(script: Script<T>) | Empty | Error(code: int)

  function Content<T>(inner: Inner<T>): Script<T>
  {
    match inner
    case Generated(script) => script
    case Empty => Script([], Complete)
    case Error(code) => Script([], Failure(code))
  }

  /** The plain list meaning: the inner lists one after another, up to the first failure. */
  function Concat<T>(first: Script<T>, second: Script<T>): Script<T>
  {
    if first.ending.Failure? then first else Script(first.items + second.items, second.ending)
  }

  function ConcatMap<S, T>(outer: seq<S>, ending: Ending, fn: S -> Inner<T>): Script<T>
  {
    if outer == [] then Script([], ending)
    else Concat(Content(fn(outer[0])), ConcatMap(outer[1..], ending, fn))
  }

  /** A conversion from long to a 32-bit int. */
  function AsInt(x: int): int
  {
    (x + 0x8000_0000) % 0x1_0000_0000 - 0x8000_0000
  }

  /** The outstanding demand has been within an int at every moment of the conversation. */
  ghost predicate Tame<T>(log: Log<T>)
  {
    Needs(log) <= INT_MAX && (log.After? ==> Tame(log.before))
  }

  lemma {:induction false} TameBefore<T>(log: Log<T>, later: Log<T>)
    requires Continues(log, later) && Tame(later)
    ensures Tame(log)
    decreases later
  {
    if later != log {
      TameBefore(log, later.before);
    }
  }

  /**
   Where a run of flat_map stands at rest: the log, whether a CHECK has failed, and while
   the conversation is open the rest of the inner stream in hand and of the source.
   */
  datatype Flat<S, T> = Flat(log: Log<T>, aborted: bool, current: Option<Script<T>>, outer: seq<S>)

  /**
   What flat_map does. `current` is the rest of the inner stream in hand and `waiting` the
   part of the demand already passed on to it. It aborts when the subscriber has cancelled
   but the inner stream still owes part of the demand passed on to it and has something
   other than a normal completion to signal.
   */
  function FlatServe<S, T>(log: Log<T>, waiting: nat, current: Option<Script<T>>,
                           outer: seq<S>, ending: Ending, fn: S -> Inner<T>,
                           react: Subscriber<T>): Flat<S, T>
    decreases |outer|, if current.Some? then 1 + |current.value.items| else 0
  {
    if Closed(log) then
      Flat(log, 0 < waiting && current.Some? && current.value != Script([], Complete), None, [])
    else if Needs(log) <= 0 then Flat(log, false, current, outer)
    else
      match current
      case None =>
        if outer == [] then Flat(After(log, Ended(ending)), false, None, [])
        else FlatServe(log, Needs(log), Some(Content(fn(outer[0]))), outer[1..], ending, fn, react)
      case Some(Script(items, end)) =>
        var owed := if waiting == 0 then Needs(log) else waiting;
        if items != [] then
          FlatServe(Deliver(log, items[0], react), owed - 1, Some(Script(items[1..], end)), outer, ending, fn, react)
        else if end.Failure? then Flat(After(log, Ended(end)), false, None, [])
        else FlatServe(log, 0, None, outer, ending, fn, react)
  }

  /** Passing the demand on to an inner stream, before or after it is counted as waiting. */
  lemma BatchStarts<S, T>(log: Log<T>, current: Script<T>, outer: seq<S>, ending: Ending, fn: S -> Inner<T>,
                          react: Subscriber<T>)
    requires !Closed(log) && 0 < Needs(log)
    ensures FlatServe(log, 0, Some(current), outer, ending, fn, react)
      == FlatServe(log, Needs(log), Some(current), outer, ending, fn, react)
  {
  }

  lemma SourceSteps<S, T>(log: Log<T>, s: S, rest: seq<S>, ending: Ending, fn: S -> Inner<T>, react: Subscriber<T>)
    requires !Closed(log) && 0 < Needs(log)
    ensures FlatServe(log, 0, None, [s] + rest, ending, fn, react)
      == FlatServe(log, 0, Some(Content(fn(s))), rest, ending, fn, react)
  {
    assert ([s] + rest)[0] == s && ([s] + rest)[1..] == rest;
    BatchStarts(log, Content(fn(s)), rest, ending, fn, react);
  }

  /** The list still to come. */
  function Ahead<S, T>(current: Option<Script<T>>, outer: seq<S>, ending: Ending, fn: S -> Inner<T>): Script<T>
  {
    if current.Some? then Concat(current.value, ConcatMap(outer, ending, fn)) else ConcatMap(outer, ending, fn)
  }

  /**
   flat_map is one source of the concatenated list: what its subscriber sees, event by
   event, is what the reference source of that list would have shown it.
   */
  lemma {:induction false} FlatServeIsServe<S, T>(log: Log<T>, waiting: nat, current: Option<Script<T>>,
                                                  outer: seq<S>, ending: Ending, fn: S -> Inner<T>,
                                                  react: Subscriber<T>)
    ensures FlatServe(log, waiting, current, outer, ending, fn, react).log
      == Serve(log, Ahead(current, outer, ending, fn), react)
    decreases |outer|, if current.Some? then 1 + |current.value.items| else 0
  {
    if !Closed(log) && 0 < Needs(log) {
      match current
      case None =>
        if outer != [] {
          FlatServeIsServe(log, Needs(log), Some(Content(fn(outer[0]))), outer[1..], ending, fn, react);
        }
      case Some(Script(items, end)) =>
        var owed := if waiting == 0 then Needs(log) else waiting;
        if items != [] {
          FlatServeIsServe(Deliver(log, items[0], react), owed - 1, Some(Script(items[1..], end)), outer, ending, fn,
                           react);
          var tail := ConcatMap(outer, ending, fn);
          assert (items + tail.items)[1..] == items[1..] + tail.items;
        } else if end.Complete? {
          FlatServeIsServe(log, 0, None, outer, ending, fn, react);
          assert [] + ConcatMap(outer, ending, fn).items == ConcatMap(outer, ending, fn).items;
        }
    }
  }

  /** `log` and what is `ahead` make up the whole list. */
  ghost predicate Splits<T>(log: Log<T>, ahead: Script<T>, whole: Script<T>)
  {
    Received(log) + ahead.items == whole.items && ahead.ending == whole.ending
  }

  /** At rest, nothing is lost or repeated: the log and what is left make up the list. */
  lemma {:induction false} FlatServeLeavesTheRest<S, T>(log: Log<T>, waiting: nat, current: Option<Script<T>>,
                                                        outer: seq<S>, ending: Ending, fn: S -> Inner<T>,
                                                        react: Subscriber<T>, whole: Script<T>)
    requires Splits(log, Ahead(current, outer, ending, fn), whole)
    ensures var out := FlatServe(log, waiting, current, outer, ending, fn, react);
      !Closed(out.log) ==> Splits(out.log, Ahead(out.current, out.outer, ending, fn), whole)
    decreases |outer|, if current.Some? then 1 + |current.value.items| else 0
  {
    if !Closed(log) && 0 < Needs(log) {
      match current
      case None =>
        if outer != [] {
          FlatServeLeavesTheRest(log, Needs(log), Some(Content(fn(outer[0]))), outer[1..], ending, fn, react, whole);
        }
      case Some(Script(items, end)) =>
        var owed := if waiting == 0 then Needs(log) else waiting;
        if items != [] {
          DeliverEffect(log, items[0], react);
          DropFirst(log, Deliver(log, items[0], react), current.value, ConcatMap(outer, ending, fn), whole);
          FlatServeLeavesTheRest(Deliver(log, items[0], react), owed - 1, Some(Script(items[1..], end)), outer, ending,
                                 fn, react, whole);
        } else if end.Complete? {
          assert [] + ConcatMap(outer, ending, fn).items == ConcatMap(outer, ending, fn).items;
          FlatServeLeavesTheRest(log, 0, None, outer, ending, fn, react, whole);
        }
    }
  }

  lemma DropFirst<T>(log: Log<T>, next: Log<T>, current: Script<T>, tail: Script<T>, whole: Script<T>)
    requires current.items != [] && Splits(log, Concat(current, tail), whole)
    requires Received(next) == Received(log) + [current.items[0]]
    ensures Splits(next, Concat(Script(current.items[1..], current.ending), tail), whole)
  {
    hide Received;
    var left := Concat(current, tail).items;
    assert left == [current.items[0]] + left[1..];
    assert left[1..] == Concat(Script(current.items[1..], current.ending), tail).items;
    assert Received(log) + left == Received(next) + left[1..];
  }

  /** One request made at rest: the reference over what is left of the whole list. */
  lemma FlatRequestIsServe<S, T>(log: Log<T>, n: pos, current: Option<Script<T>>, outer: seq<S>,
                                 ending: Ending, fn: S -> Inner<T>, react: Subscriber<T>, whole: Script<T>)
    requires Splits(log, Ahead(current, outer, ending, fn), whole)
    ensures var out := FlatServe(After(log, Requested(n)), 0, current, outer, ending, fn, react);
      && |Received(log)| <= |whole.items|
      && out.log == Serve(After(log, Requested(n)), Rest(log, whole), react)
      && (!Closed(out.log) ==> Splits(out.log, Ahead(out.current, out.outer, ending, fn), whole))
  {
    var asked := After(log, Requested(n));
    assert whole.items[|Received(log)|..] == Ahead(current, outer, ending, fn).items;
    FlatServeIsServe(asked, 0, current, outer, ending, fn, react);
    FlatServeLeavesTheRest(asked, 0, current, outer, ending, fn, react, whole);
  }

  // ----- when a CHECK fails

  /** A subscriber that cancels on receiving its k-th item, and never asks from on_next. */
  ghost predicate CancelsAt<T(!new)>(react: Subscriber<T>, k: nat)
  {
    forall log: Log<T> :: react(log) == Reaction([], |Received(log)| == k)
  }

  /**
   The k-th item still to come is not what an inner stream closes with: more items of the same
   stream follow it, or the stream fails after it.
   */
  predicate Inside<S, T>(current: Option<Script<T>>, outer: seq<S>, fn: S -> Inner<T>, k: nat)
    decreases |outer|, 1
  {
    match current
    case Some(Script(items, end)) =>
      if k <= |items| then k < |items| || end.Failure? else end.Complete? && InsideNext(outer, fn, k - |items|)
    case None => InsideNext(outer, fn, k)
  }

  predicate InsideNext<S, T>(outer: seq<S>, fn: S -> Inner<T>, k: nat)
    decreases |outer|, 0
  {
    outer != [] && Inside(Some(Content(fn(outer[0]))), outer[1..], fn, k)
  }

  lemma CancelsAtDelivery<T(!new)>(log: Log<T>, item: T, react: Subscriber<T>, k: nat)
    requires CancelsAt(react, k) && !Closed(log)
    ensures var next := Deliver(log, item, react);
      && Needs(next) == Needs(log) - 1 && |Received(next)| == |Received(log)| + 1
      && (Closed(next) <==> |Received(next)| == k)
  {
    var handed := After(log, Next(item));
    assert react(handed) == Reaction([], |Received(handed)| == k);
    assert Ask(handed, []) == handed;
    assert Received(handed) == Received(log) + [item] && Asked(handed) == Asked(log);
    var cancelled := After(handed, Cancelled);
    assert Received(cancelled) == Received(handed) && Asked(cancelled) == Asked(handed);
  }

  /** Cancelling on the k-th item, from wherever the streams stand, with all of the demand passed on or none of it. */
  lemma {:induction false} CancelRun<S, T(!new)>(log: Log<T>, waiting: nat, current: Option<Script<T>>, outer: seq<S>,
                                                 ending: Ending, fn: S -> Inner<T>, react: Subscriber<T>, k: nat)
    requires CancelsAt(react, k) && !Closed(log) && |Received(log)| < k
    requires waiting == 0 || waiting == Needs(log)
    ensures FlatServe(log, waiting, current, outer, ending, fn, react).aborted
       <==> k - |Received(log)| < Needs(log) && Inside(current, outer, fn, k - |Received(log)|)
    decreases |outer|, if current.Some? then 1 + |current.value.items| else 0
  {
    hide Received, Asked, Deliver, CancelsAt;
    if 0 < Needs(log) {
      match current
      case None =>
        if outer != [] {
          CancelRun(log, Needs(log), Some(Content(fn(outer[0]))), outer[1..], ending, fn, react, k);
        }
      case Some(Script(items, end)) =>
        if items != [] {
          var next := Deliver(log, items[0], react);
          CancelsAtDelivery(log, items[0], react, k);
          if |Received(log)| + 1 < k {
            CancelRun(next, Needs(log) - 1, Some(Script(items[1..], end)), outer, ending, fn, react, k);
          }
        } else if end.Complete? {
          CancelRun(log, 0, None, outer, ending, fn, react, k);
        }
    }
  }

  /**
   The claim that a subscriber may cancel at any moment is false of flat_map. One that asks for
   n more items at a rest and cancels on the k-th of them makes a CHECK fail exactly when that
   is neither the last one it asked for nor what an inner stream closes with, whatever the
   inner streams are and however they end.
   */
  lemma CancelFailsExactlyInsideABatch<S, T(!new)>(log: Log<T>, n: pos, k: pos, current: Option<Script<T>>,
                                                   outer: seq<S>,
                                                   ending: Ending, fn: S -> Inner<T>, react: Subscriber<T>)
    requires !Closed(log) && Needs(log) == 0 && CancelsAt(react, |Received(log)| + k)
    ensures FlatServe(After(log, Requested(n)), 0, current, outer, ending, fn, react).aborted
       <==> k < n && Inside(current, outer, fn, k)
  {
    CancelRun(After(log, Requested(n)), 0, current, outer, ending, fn, react, |Received(log)| + k);
  }

  // ----- whole sessions

  /** Calls made one after another, each at the rest that the one before led to. */
  function FlatSession<S, T>(f: Flat<S, T>, calls: seq<Call>, ending: Ending, fn: S -> Inner<T>,
                             react: Subscriber<T>): Flat<S, T>
    decreases |calls|
  {
    if calls == [] || Closed(f.log) then f
    else FlatSession(FlatCall(f, calls[0], ending, fn, react), calls[1..], ending, fn, react)
  }

  function FlatCall<S, T>(f: Flat<S, T>, call: Call, ending: Ending, fn: S -> Inner<T>,
                          react: Subscriber<T>): Flat<S, T>
  {
    match call
    case CallCancel => Flat(After(f.log, Cancelled), false, None, [])
    case CallRequest(n) => FlatServe(After(f.log, Requested(n)), 0, f.current, f.outer, ending, fn, react)
  }

  /** One request from the very beginning, cancelled on the k-th item. */
  lemma CancelInTheFirstCall<S, T(!new)>(n: pos, k: pos, outer: seq<S>, ending: Ending, fn: S -> Inner<T>,
                                         react: Subscriber<T>)
    requires CancelsAt(react, k)
    ensures FlatSession(Flat(Start, false, None, outer), [CallRequest(n)], ending, fn, react).aborted
       <==> k < n && Inside(None, outer, fn, k)
  {
    CancelFailsExactlyInsideABatch(Start, n, k, None, outer, ending, fn, react);
    assert [CallRequest(n)][1..] == [];
  }

  /** No log is taken back. */
  lemma {:induction false} FlatServeContinues<S, T>(log: Log<T>, waiting: nat, current: Option<Script<T>>,
                                                    outer: seq<S>, ending: Ending, fn: S -> Inner<T>,
                                                    react: Subscriber<T>)
    ensures Continues(log, FlatServe(log, waiting, current, outer, ending, fn, react).log)
    decreases |outer|, if current.Some? then 1 + |current.value.items| else 0
  {
    if !Closed(log) && 0 < Needs(log) {
      match current
      case None =>
        if outer != [] {
          FlatServeContinues(log, Needs(log), Some(Content(fn(outer[0]))), outer[1..], ending, fn, react);
        }
      case Some(Script(items, end)) =>
        var owed := if waiting == 0 then Needs(log) else waiting;
        if items != [] {
          var next := Deliver(log, items[0], react);
          DeliverEffect(log, items[0], react);
          FlatServeContinues(next, owed - 1, Some(Script(items[1..], end)), outer, ending, fn, react);
          ContinuesTransitive(log, next, FlatServe(next, owed - 1, Some(Script(items[1..], end)), outer, ending, fn,
                                                   react).log);
        } else if end.Complete? {
          FlatServeContinues(log, 0, None, outer, ending, fn, react);
        }
    }
  }

  /** The first call of a session is served before the rest of it. */
  lemma {:induction false} SessionContinues<T>(log: Log<T>, calls: seq<Call>, script: Script<T>, react: Subscriber<T>)
    requires AtRest(log, script)
    ensures Continues(log, Session(log, calls, script, react))
    ensures calls != [] && !Closed(log)
        ==> Continues(ServeCall(log, calls[0], script, react), Session(log, calls, script, react))
  {
    SessionCutsListAtDemand(log, calls, script, react);
    if calls != [] && !Closed(log) {
      SessionCutsListAtDemand(log, [calls[0]], script, react);
      var next := ServeCall(log, calls[0], script, react);
      assert [calls[0]][1..] == [];
      assert Session(log, [calls[0]], script, react) == Session(next, [], script, react) == next;
      SessionCutsListAtDemand(next, calls[1..], script, react);
    }
  }
}
