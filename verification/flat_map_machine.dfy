/** The flat_map operator as the object it is, with the generators it pulls from. */
module FlatMapMachine {
  import opened Wrappers
  import opened Histories
  import opened Demand
  import opened FlatMaps
  import opened FlatMapFailures
  import opened FlatMapEndings

  /** The drain_source_impl counters of a generator. */
  datatype Pull = Pull(idx: nat, requested: nat, delivered: nat, inDrain: bool, die: bool)

  const FRESH_PULL := Pull(0, 0, 0, false, false)

  /**
   `flat_map_op::instance` with its `fwd_sub`, the generator it reads its elements from
   (`source`) and the generator behind fwd_sub (`pull`). A failing `CHECK(!_die)` in
   deliver_on_next or deliver_on_error sets `aborted` and ends the run; every other CHECK
   is a precondition, and proved.
   */
  class FlatMap<S, T(!new)> {
    const outer: Script<S>
    const fn: S -> Inner<T>
    const react: Subscriber<T>

    // drain_source_impl
    var requested: nat
    var delivered: nat
    var inDrain: bool
    var die: bool
    var drainRequested: bool
    // flat_map_op::instance
    var hasSource: bool
    var sourceComplete: bool
    var requestedNext: bool
    // fwd_sub: present, subscribed, and its _waiting_from_upstream
    var hasFwdSub: bool
    var fwdReady: bool
    var waiting: nat
    // the generator behind _source; the publisher behind _fwd_sub and its generator
    var source: Pull
    var inner: Inner<T>
    var pull: Pull

    var log: Log<T>
    var aborted: bool
    ghost var deaths: nat
    ghost var frames: nat

    // ----- the abstract state

    /** The list still to come from the inner stream in hand. */
    ghost function Current(): Option<Script<T>>
      reads this
    {
      if hasFwdSub && pull.idx <= |Content(inner).items|
      then Some(Script(Content(inner).items[pull.idx..], Content(inner).ending)) else None
    }

    /** Where FlatServe leads from here if `rest` is what the source has left. */
    ghost function Outlook(rest: seq<S>): Flat<S, T>
      reads this
    {
      if aborted then Flat(log, true, None, [])
      else FlatServe(log, if hasFwdSub then waiting else 0, Current(), rest, outer.ending, fn, react)
    }

    ghost function SourceRest(): seq<S>
      reads this
    {
      if source.idx <= |outer.items| then outer.items[source.idx..] else []
    }

    /** Counters, log and flags agree. */
    ghost predicate Accounts()
      reads this
    {
      && deaths == 0
      && frames == (if inDrain then 1 else 0)
      && requested == Asked(log)
      && Needs(log) <= INT_MAX
      && (!aborted ==> delivered == |Received(log)| <= requested)
      && die == (inDrain && Closed(log))
      && (aborted ==> inDrain && IsCancelled(log))
    }

    /** The inner generator is between deliveries, and owes nothing. */
    ghost predicate InnerIdle()
      reads this
    {
      hasFwdSub ==>
        && fwdReady && inner.Generated? && waiting == 0
        && pull.idx == pull.delivered == pull.requested <= |inner.script.items|
        && !pull.inDrain && !pull.die
    }

    ghost predicate SourceIdle()
      reads this
    {
      && source.idx == source.delivered == source.requested <= |outer.items|
      && !source.inDrain && !source.die && !sourceComplete && !requestedNext
    }

    /** Between two steps of the drain loop. */
    ghost predicate Between()
      reads this
    {
      && InnerIdle()
      && (if hasSource then SourceIdle() else Closed(log))
    }

    ghost predicate Resting()
      reads this
    {
      Accounts() && !inDrain && !aborted && !Closed(log) && Between()
    }

    ghost predicate Dead()
      reads this
    {
      deaths == 1 && frames == 0 && Closed(log) && !aborted && !hasFwdSub && !hasSource
    }

    /** What the subscriber's own calls from inside on_next leave alone. */
    twostate predicate SameStreams()
      reads this
    {
      && hasSource == old(hasSource) && sourceComplete == old(sourceComplete) && requestedNext == old(requestedNext)
      && hasFwdSub == old(hasFwdSub) && fwdReady == old(fwdReady)
      && source == old(source) && inner == old(inner) && pull == old(pull)
    }

    constructor (outer: Script<S>, fn: S -> Inner<T>, react: Subscriber<T>)
      ensures Resting() && log == Start && SourceRest() == outer.items && Current() == None
      ensures this.outer == outer && this.fn == fn && this.react == react
    {
      this.outer, this.fn, this.react := outer, fn, react;
      requested, delivered, inDrain, die, drainRequested := 0, 0, false, false, false;
      hasSource, sourceComplete, requestedNext := true, false, false;
      hasFwdSub, fwdReady, waiting := false, false, 0;
      source, inner, pull := FRESH_PULL, Empty, FRESH_PULL;
      log, aborted, deaths, frames := Start, false, 0, 0;
    }

    // ----- the subscription handed to the subscriber

    method Request(n: pos)
      requires Accounts() && !Closed(log) && Needs(log) + n <= INT_MAX
      requires !inDrain ==>
                 Resting() && Tame(FlatServe(After(log, Requested(n)), 0, Current(), SourceRest(), outer.ending, fn,
                                             react).log)
      modifies this
      ensures old(inDrain) ==>
                && Accounts() && inDrain && !aborted && drainRequested && SameStreams() && waiting == old(waiting)
                && log == After(old(log), Requested(n))
      ensures !old(inDrain) ==>
                && Outlook(SourceRest()) == FlatServe(After(old(log), Requested(n)), 0, old(Current()),
                                                      old(SourceRest()), outer.ending, fn, react)
                && aborted == FlatServe(After(old(log), Requested(n)), 0, old(Current()), old(SourceRest()),
                                        outer.ending, fn, react).aborted
                && (if aborted then IsCancelled(log) else if Closed(log) then Dead() else Resting() && Needs(log) == 0)
      decreases if inDrain then 4 else 21
    {
      requested := requested + n;
      log := After(log, Requested(n));
      Drain();
    }

    method Cancel()
      requires Accounts() && !Closed(log)
      requires !inDrain ==> Resting()
      modifies this
      ensures log == After(old(log), Cancelled)
      ensures old(inDrain) ==>
                && Accounts() && inDrain && !aborted && SameStreams() && waiting == old(waiting)
                && drainRequested == old(drainRequested)
      ensures !old(inDrain) ==> Dead()
      decreases 3
    {
      log := After(log, Cancelled);
      if !inDrain {
        Die();
      } else {
        die := true;
      }
    }

    /** die() and the destructor: cancels what it still pulls from, both between deliveries. */
    method Die()
      requires deaths == 0 && frames == 0 && Closed(log) && !aborted
      requires InnerIdle() && (hasSource ==> SourceIdle())
      modifies this`deaths, this`hasFwdSub, this`hasSource, this`pull, this`source
      ensures Dead()
      decreases 0
    {
      deaths := deaths + 1;
      if hasFwdSub {
        assert !pull.die && !pull.inDrain;
        pull := pull.(die := true);
        hasFwdSub := false;
      }
      if hasSource {
        assert !source.die && !source.inDrain;
        source := source.(die := true);
        hasSource := false;
      }
    }

    // ----- drain_source_impl

    ghost function StepsLeft(): nat
      reads this
    {
      if hasFwdSub && pull.idx <= |Content(inner).items| then 1 + |Content(inner).items| - pull.idx else 0
    }

    method Drain()
      requires Accounts() && !aborted
      requires inDrain || (Resting() && Tame(Outlook(SourceRest()).log))
      modifies this
      ensures old(inDrain) ==>
                && Accounts() && inDrain && !aborted && drainRequested && SameStreams() && waiting == old(waiting)
                && log == old(log)
      ensures !old(inDrain) ==>
                && Outlook(SourceRest()) == old(Outlook(SourceRest()))
                && (if aborted then IsCancelled(log) else if Closed(log) then Dead() else Resting() && Needs(log) <= 0)
      decreases if inDrain then 2 else 20
    {
      hide FlatServe, Received, Asked;
      if inDrain {
        drainRequested := true;
        return;
      }
      inDrain := true;
      frames := frames + 1;

      while !aborted && requested - delivered > 0 && !die
        invariant Accounts() && inDrain
        invariant aborted || Between()
        invariant Outlook(SourceRest()) == old(Outlook(SourceRest()))
        decreases |outer.items| - source.idx, StepsLeft(), !die, !aborted
      {
        drainRequested := false;
        var more := DrainImpl();
        if !aborted && !more {
          if !drainRequested {
            break;
          }
        }
      }

      if !aborted {
        ExitDrain();
      }
    }

    /** What runs when a drain frame is left: the death that was deferred to here, if any. */
    method ExitDrain()
      requires Accounts() && inDrain && !aborted && Between()
      modifies this
      ensures log == old(log) && aborted == old(aborted)
      ensures Outlook(SourceRest()) == old(Outlook(SourceRest()))
      ensures if Closed(log) then Dead() else Resting()
      decreases 1
    {
      frames := frames - 1;
      if die {
        Die();
      } else {
        inDrain := false;
      }
    }

    /** A signal that ends the stream; CHECK(!_die) ends the run instead after a cancel. */
    method DeliverEnd(e: Ending)
      requires Accounts() && inDrain && !aborted && !HasEnded(log)
      modifies this`log, this`die, this`aborted
      ensures Accounts()
      ensures aborted == old(die)
      ensures log == if aborted then old(log) else After(old(log), Ended(e))
      decreases 1
    {
      if die {
        aborted := true;
        return;
      }
      log := After(log, Ended(e));
      die := true;
    }

    method DeliverOnNext(t: T)
      requires Accounts() && inDrain && !aborted && !HasEnded(log)
      requires !die ==> 0 < Needs(log)
      requires !die ==> Tame(Deliver(log, t, react))
      modifies this
      ensures Accounts() && inDrain && SameStreams() && waiting == old(waiting)
      ensures aborted == old(die)
      ensures log == if aborted then old(log) else Deliver(old(log), t, react)
      ensures !aborted ==> (old(drainRequested) ==> drainRequested) && Needs(log) >= Needs(old(log)) - 1
      ensures !aborted ==> !HasEnded(log) && (drainRequested || Needs(log) == Needs(old(log)) - 1)
      decreases 8
    {
      delivered := delivered + 1;
      if die {
        aborted := true;
        return;
      }
      assert delivered <= requested;
      log := After(log, Next(t));
      OnNext();
    }

    /** The subscriber's on_next: it calls request and cancel on flat_map. */
    method OnNext()
      requires Accounts() && inDrain && !die && !aborted
      requires Tame(React(log, react))
      modifies this
      ensures Accounts() && inDrain && !aborted && SameStreams() && waiting == old(waiting)
      ensures log == React(old(log), react)
      ensures (old(drainRequested) ==> drainRequested) && Needs(log) >= Needs(old(log))
      ensures !HasEnded(log) && (drainRequested || Needs(log) == Needs(old(log)))
      decreases 6
    {
      var r := react(log);
      var i := 0;
      AskEffect(log, r.requests);
      ReactEffect(log, react);
      TameBefore(Ask(log, r.requests), React(log, react));
      while i < |r.requests|
        invariant i <= |r.requests|
        invariant Accounts() && inDrain && !die && !aborted && SameStreams() && waiting == old(waiting)
        invariant Ask(log, r.requests[i..]) == Ask(old(log), r.requests)
        invariant if i == 0 then log == old(log) && drainRequested == old(drainRequested) else drainRequested
      {
        assert r.requests[i..][1..] == r.requests[i + 1..];
        AskEffect(After(log, Requested(r.requests[i])), r.requests[i + 1..]);
        TameBefore(After(log, Requested(r.requests[i])), Ask(old(log), r.requests));
        Request(r.requests[i]);
        i := i + 1;
      }
      assert r.requests[i..] == [];
      if r.cancels {
        Cancel();
      }
    }

    // ----- flat_map_op::instance

    method DrainImpl() returns (more: bool)
      requires Accounts() && inDrain && !die && !aborted && 0 < Needs(log)
      requires Between() && !drainRequested
      requires Tame(Outlook(SourceRest()).log)
      modifies this
      ensures Accounts() && inDrain
      ensures aborted || Between()
      ensures Outlook(SourceRest()) == old(Outlook(SourceRest()))
      ensures aborted || die || more || drainRequested || Needs(log) <= 0
      ensures old(source.idx) <= source.idx <= |outer.items|
      ensures aborted || die || old(source.idx) < source.idx || StepsLeft() < old(StepsLeft())
      ensures old(source.idx) < source.idx || StepsLeft() <= old(StepsLeft())
      decreases 18
    {
      if hasFwdSub {
        if waiting == 0 {
          FwdRequest(AsInt(requested - delivered), SourceRest());
        }
        return false;
      }
      // A synchronous source has answered before request(1) returned.
      assert !requestedNext && !sourceComplete;
      requestedNext := true;
      SourceRequest(1);
      return true;
    }

    /** The source hands over an element: subscribe to the publisher made from it. */
    method SourceOnNext(s: S, ghost rest: seq<S>)
      requires Accounts() && inDrain && !die && !aborted && 0 < Needs(log)
      requires !hasFwdSub && hasSource && !sourceComplete
      requires Tame(Outlook([s] + rest).log)
      modifies this
      ensures Accounts() && inDrain
      ensures source == old(source) && hasSource && !sourceComplete && !requestedNext
      ensures aborted || InnerIdle()
      ensures Outlook(rest) == old(Outlook([s] + rest))
      decreases 14
    {
      hide Tame, Received, Asked, Deliver;
      SourceSteps(log, s, rest, outer.ending, fn, react);
      BatchStarts(log, Content(fn(s)), rest, outer.ending, fn, react);
      requestedNext := false;
      inner := fn(s);
      pull := FRESH_PULL;
      hasFwdSub, fwdReady, waiting := true, false, 0;
      assert Content(inner).items[0..] == Content(inner).items;
      // subscribe: fwd_sub::on_subscribe, then what the publisher signals by itself
      fwdReady := true;
      var requestingNow := AsInt(requested - delivered);
      match inner {
        case Generated(_) =>
          FwdRequest(requestingNow, rest);
        case Empty =>
          waiting := waiting + requestingNow;
          FwdOnComplete();
        case Error(code) =>
          waiting := waiting + requestingNow;
          FwdOnError(code);
      }
    }

    method SourceOnEnd(e: Ending)
      requires Accounts() && inDrain && !die && !aborted && !hasFwdSub
      modifies this
      ensures Accounts() && inDrain && !aborted && die && !hasFwdSub && !hasSource && source == old(source)
      ensures log == After(old(log), Ended(e))
      ensures 0 < old(Needs(log)) && e == outer.ending ==> Outlook([]) == old(Outlook([]))
      decreases 13
    {
      hasSource := false;
      match e {
        case Complete =>
          sourceComplete := true;
          // a synchronous source is asked only when no inner stream is in hand
          assert !hasFwdSub;
          DeliverEnd(Complete);
        case Failure(code) =>
          DeliverEnd(Failure(code));
      }
    }

    /** request(1) on the source: its own drain loop, up to one element or its end. */
    method SourceRequest(n: pos)
      requires Accounts() && inDrain && !die && !aborted && 0 < Needs(log) && n == 1
      requires hasSource && !sourceComplete && requestedNext && !hasFwdSub
      requires source.idx == source.delivered == source.requested <= |outer.items|
      requires !source.inDrain && !source.die
      requires Tame(Outlook(SourceRest()).log)
      modifies this
      ensures Accounts() && inDrain
      ensures aborted || Between()
      ensures Outlook(SourceRest()) == old(Outlook(SourceRest()))
      ensures old(source.idx) <= source.idx <= |outer.items|
      ensures aborted || die || old(source.idx) < source.idx
      ensures old(source.idx) < source.idx || StepsLeft() <= old(StepsLeft())
      decreases 16
    {
      hide Tame, Received, Asked, Deliver, FlatServe;
      source := source.(requested := source.requested + n, inDrain := true);
      ghost var start := source.idx;
      while !aborted && source.delivered < source.requested && !source.die
        invariant Pulling(start)
        invariant Outlook(SourceRest()) == old(Outlook(SourceRest()))
        invariant start < source.idx || StepsLeft() <= old(StepsLeft())
        decreases |outer.items| - source.idx, !source.die, !aborted
      {
        SourceStep(start);
      }
      source := source.(inDrain := false);
    }

    /** Inside the drain of the source, asked for one element from index `start` on. */
    ghost predicate Pulling(start: nat)
      reads this
    {
      && Accounts() && inDrain && source.inDrain
      && source.requested == start + 1 && start <= source.idx <= |outer.items|
      && (!aborted && !source.die && source.delivered < source.requested ==>
            && source.idx == source.delivered && !die && 0 < Needs(log)
            && hasSource && !sourceComplete && !hasFwdSub)
      && (aborted || (source.delivered < source.requested && !source.die) ||
            (InnerIdle() &&
             (if hasSource
              then source.idx == source.delivered == start + 1 && !source.die && !sourceComplete && !requestedNext
              else Closed(log))))
    }

    method SourceStep(ghost start: nat)
      requires Pulling(start) && !aborted && source.delivered < source.requested && !source.die
      requires Tame(Outlook(SourceRest()).log)
      modifies this
      ensures Pulling(start)
      ensures Outlook(SourceRest()) == old(Outlook(SourceRest()))
      ensures start < source.idx || StepsLeft() <= old(StepsLeft())
      ensures old(source.idx) < source.idx || (source.idx == old(source.idx) && source.die)
      decreases 15
    {
      hide Tame, Received, Asked, Deliver, FlatServe;
      var i := source.idx;
      if i == |outer.items| {
        SourceOnEnd(outer.ending);
        source := source.(die := true);
      } else {
        assert outer.items[i..] == [outer.items[i]] + outer.items[i + 1..];
        source := source.(delivered := source.delivered + 1);
        SourceOnNext(outer.items[i], outer.items[i + 1..]);
        source := source.(idx := i + 1);
      }
    }

    // ----- fwd_sub

    /** request(n) on the inner generator through fwd_sub: its drain loop. */
    method FwdRequest(n: int, ghost rest: seq<S>)
      requires Accounts() && inDrain && !die && !aborted && 0 < Needs(log) == n
      requires hasFwdSub && InnerIdle()
      requires Tame(Outlook(rest).log)
      modifies this
      ensures Accounts() && inDrain
      ensures source == old(source) && hasSource == old(hasSource) && sourceComplete == old(sourceComplete)
      ensures requestedNext == old(requestedNext)
      ensures aborted || InnerIdle()
      ensures Outlook(rest) == old(Outlook(rest))
      ensures old(drainRequested) ==> drainRequested || aborted
      ensures aborted || die || drainRequested || Needs(log) <= 0
      ensures aborted || die || StepsLeft() < old(StepsLeft())
      ensures StepsLeft() <= old(StepsLeft())
      decreases 12
    {
      hide Tame, Received, Asked, Deliver;
      waiting := waiting + n;
      pull := pull.(requested := pull.requested + n, inDrain := true);
      while !aborted && pull.delivered < pull.requested && !pull.die
        invariant Accounts() && inDrain
        invariant source == old(source) && hasSource == old(hasSource) && sourceComplete == old(sourceComplete)
        invariant requestedNext == old(requestedNext) && inner == old(inner) && pull.inDrain
        invariant Outlook(rest) == old(Outlook(rest))
        invariant !aborted ==> InnerBusy()
        invariant aborted || Closed(log) || drainRequested || Needs(log) == (if hasFwdSub then waiting else 0)
        invariant old(drainRequested) ==> drainRequested || aborted
        invariant StepsLeft() <= old(StepsLeft())
        invariant aborted || die || StepsLeft() < old(StepsLeft()) || (hasFwdSub && waiting == n)
        decreases |inner.script.items| - pull.idx, !pull.die, !aborted
      {
        PullStep(rest);
      }
      pull := pull.(inDrain := false);
    }

    /** Inside the drain of the inner generator. */
    ghost predicate InnerBusy()
      reads this
    {
      && inner.Generated? && fwdReady
      && (if hasFwdSub then
            && pull.idx == pull.delivered <= |inner.script.items|
            && pull.requested == pull.delivered + waiting
            && !pull.die
            && (!Closed(log) ==> waiting <= Needs(log))
            && !HasEnded(log)
          else pull.die)
    }

    /** One step of the inner generator, signalled to fwd_sub. */
    method PullStep(ghost rest: seq<S>)
      requires Accounts() && inDrain && !aborted && InnerBusy() && hasFwdSub && 0 < waiting
      requires pull.inDrain
      requires Tame(Outlook(rest).log)
      modifies this
      ensures Accounts() && inDrain && pull.inDrain
      ensures source == old(source) && hasSource == old(hasSource) && sourceComplete == old(sourceComplete)
      ensures requestedNext == old(requestedNext) && inner == old(inner)
      ensures Outlook(rest) == old(Outlook(rest))
      ensures !aborted ==> InnerBusy()
      ensures old(die) ==> die
      ensures old(drainRequested) ==> drainRequested || aborted
      ensures aborted || Closed(log) || drainRequested
        || (hasFwdSub && Needs(log) - waiting == old(Needs(log) - waiting))
      ensures aborted || pull.die || pull.idx == old(pull.idx) + 1
      ensures old(pull.idx) <= pull.idx
      ensures StepsLeft() < old(StepsLeft()) || (aborted && StepsLeft() <= old(StepsLeft()))
      decreases 11
    {
      hide Tame, Received, Asked, Deliver;
      var i := pull.idx;
      ghost var items := inner.script.items;
      if i == |inner.script.items| {
        match inner.script.ending {
          case Complete => FwdOnComplete();
          case Failure(code) => FwdOnError(code);
        }
        pull := pull.(die := true);
      } else {
        assert items[i..][0] == items[i] && items[i..][1..] == items[i + 1..];
        if !die {
          FlatServeContinues(Deliver(log, items[i], react), waiting - 1,
                             Some(Script(items[i + 1..], inner.script.ending)), rest, outer.ending, fn, react);
          TameBefore(Deliver(log, items[i], react), Outlook(rest).log);
        }
        pull := pull.(delivered := pull.delivered + 1);
        FwdOnNext(inner.script.items[i]);
        if !aborted {
          pull := pull.(idx := i + 1);
        }
      }
    }

    method FwdOnNext(t: T)
      requires Accounts() && inDrain && !aborted && 0 < waiting && !HasEnded(log)
      requires !die ==> 0 < Needs(log)
      requires !die ==> Tame(Deliver(log, t, react))
      modifies this
      ensures Accounts() && inDrain && SameStreams()
      ensures waiting == old(waiting) - 1
      ensures aborted == old(die)
      ensures log == if aborted then old(log) else Deliver(old(log), t, react)
      ensures !aborted ==> (old(drainRequested) ==> drainRequested) && Needs(log) >= Needs(old(log)) - 1
      ensures !aborted ==> !HasEnded(log) && (drainRequested || Needs(log) == Needs(old(log)) - 1)
      decreases 10
    {
      waiting := waiting - 1;
      DeliverOnNext(t);
    }

    method FwdOnComplete()
      requires Accounts() && inDrain && !aborted
      modifies this
      ensures Accounts() && inDrain && !aborted && drainRequested && !hasFwdSub && log == old(log)
      ensures source == old(source) && hasSource == old(hasSource) && sourceComplete == old(sourceComplete)
      ensures requestedNext == old(requestedNext) && inner == old(inner) && pull == old(pull)
        && fwdReady == old(fwdReady)
      decreases 9
    {
      hasFwdSub := false;
      Drain();
    }

    method FwdOnError(code: int)
      requires Accounts() && inDrain && !aborted && !HasEnded(log)
      modifies this
      ensures Accounts() && inDrain && !hasFwdSub
      ensures aborted == old(die)
      ensures log == if aborted then old(log) else After(old(log), Ended(Failure(code)))
      ensures source == old(source) && hasSource == old(hasSource) && sourceComplete == old(sourceComplete)
      ensures requestedNext == old(requestedNext) && inner == old(inner) && pull == old(pull)
        && fwdReady == old(fwdReady)
      ensures drainRequested == old(drainRequested)
      decreases 9
    {
      hasFwdSub := false;
      DeliverEnd(Failure(code));
    }

    // ----- a whole session

    /** Where it stands between two calls from outside. */
    ghost function Standing(): Flat<S, T>
      reads this
    {
      if aborted || Closed(log) then Flat(log, aborted, None, []) else Flat(log, false, Current(), SourceRest())
    }

    ghost predicate InSession(whole: Script<T>)
      reads this
    {
      && AtRest(log, whole)
      && if Closed(log) then
           (aborted || Dead()) && (aborted ==> IsCancelled(log))
         else
           && Resting() && Needs(log) == 0
           && Splits(log, Ahead(Current(), SourceRest(), outer.ending, fn), whole)
    }

    lemma SessionBegins()
      requires Resting() && log == Start && SourceRest() == outer.items && Current() == None
      ensures InSession(ConcatMap(outer.items, outer.ending, fn))
      ensures Standing() == Flat(Start, false, None, outer.items)
    {
      hide FlatServe, Serve, CancelledInside, Marks;
      assert Received(log) == [];
    }

    lemma WhatSessionMeans(whole: Script<T>)
      requires InSession(whole)
      ensures AtRest(log, whole) && aborted == Standing().aborted && log == Standing().log
      ensures aborted || (if Closed(log) then Dead() else Resting())
    {
    }

    method RunCall(call: Call, ghost whole: Script<T>)
      requires InSession(whole) && !Closed(log)
      requires Tame(ServeCall(log, call, whole, react))
      modifies this
      ensures InSession(whole)
      ensures log == ServeCall(old(log), call, whole, react)
      ensures Standing() == FlatCall(old(Standing()), call, outer.ending, fn, react)
    {
      SessionCutsListAtDemand(log, [call], whole, react);
      assert [call][1..] == [];
      assert Session(log, [call], whole, react) == Session(ServeCall(log, call, whole, react), [], whole, react);
      match call {
        case CallCancel =>
          Cancel();
        case CallRequest(n) =>
          FlatRequestIsServe(log, n, Current(), SourceRest(), outer.ending, fn, react, whole);
          FlatServeContinues(After(log, Requested(n)), 0, Current(), SourceRest(), outer.ending, fn, react);
          TameBefore(After(log, Requested(n)), ServeCall(log, call, whole, react));
          Request(n);
      }
    }

    /**
     Any sequence of calls made from outside, with any subscriber reacting from inside, as long
     as the outstanding demand stays within an int: the subscriber sees what the generator of
     the concatenated list would have shown it. A CHECK fails exactly when the subscriber cancels
     while the inner stream owes it something, on an item that does not close that stream.
     */
    method Run(calls: seq<Call>)
      requires Resting() && log == Start && SourceRest() == outer.items && Current() == None
      requires Tame(Session(Start, calls, ConcatMap(outer.items, outer.ending, fn), react))
      modifies this
      ensures log == Session(Start, calls, ConcatMap(outer.items, outer.ending, fn), react)
      ensures AtRest(log, ConcatMap(outer.items, outer.ending, fn))
      ensures HeardRightly(log, outer.items, outer.ending, fn)
      ensures aborted || (if Closed(log) then Dead() else Resting())
      ensures aborted == FlatSession(Flat(Start, false, None, outer.items), calls, outer.ending, fn, react).aborted
      ensures aborted <==> CancelledInside(log, Marks(outer.items, fn))
      ensures aborted ==> 0 < Needs(log)
      ensures forall n: pos, k: pos :: calls == [CallRequest(n)] && CancelsAt(react, k) ==>
                (aborted <==> k < n && Inside(None, outer.items, fn, k))
    {
      hide CancelsAt, Inside, CancelledInside, Marks, Tame, FlatCall, ServeCall, InSession, Resting, Dead, Standing,
          Current, SourceRest;
      var i := 0;
      ghost var whole := ConcatMap(outer.items, outer.ending, fn);
      ghost var begin: Flat<S, T> := Flat(Start, false, None, outer.items);
      SessionBegins();
      WhatSessionMeans(whole);
      while i < |calls| && !Closed(log)
        invariant i <= |calls|
        invariant Session(log, calls[i..], whole, react) == Session(Start, calls, whole, react)
        invariant FlatSession(Standing(), calls[i..], outer.ending, fn, react)
          == FlatSession(begin, calls, outer.ending, fn, react)
        invariant InSession(whole) && AtRest(log, whole) && Standing().log == log
      {
        assert calls[i..][1..] == calls[i + 1..];
        SessionContinues(log, calls[i..], whole, react);
        TameBefore(ServeCall(log, calls[i], whole, react), Session(Start, calls, whole, react));
        RunCall(calls[i], whole);
        WhatSessionMeans(whole);
        i := i + 1;
      }
      WhatSessionMeans(whole);
      WholeIsHeardRightly(log, outer.items, outer.ending, fn);
      FailsExactlyWhenCancelledInside(calls, outer.items, outer.ending, fn, react);
      assert FlatSession(Standing(), calls[i..], outer.ending, fn, react) == Standing();
      forall n: pos, k: pos | calls == [CallRequest(n)] && CancelsAt(react, k)
        ensures aborted <==> k < n && Inside(None, outer.items, fn, k)
      {
        CancelInTheFirstCall(n, k, outer.items, outer.ending, fn, react);
      }
    }
  }
}
