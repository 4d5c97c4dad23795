/** The drain loop of a stateful generator, with a subscriber that calls back from on_next. */
module Generators {
  import opened Histories
  import opened Demand

  /**
   `generator_publisher::sub` over the `of` generator: a drain_source_impl whose drain step
   reads an indexed vector and advances the index only after on_next has returned. `react`
   is the subscriber. A failing CHECK is a precondition here; all of them are proved.
   */
  class Generator<T(!new)> {
    const script: Script<T>
    const react: Subscriber<T>

    var idx: nat
    var requested: nat
    var delivered: nat
    var inDrain: bool
    var die: bool
    var drainRequested: bool

    /** What the subscriber has seen and done. */
    var log: Log<T>
    /** How often die() ran, and how many drain frames are on the stack. */
    ghost var deaths: nat
    ghost var frames: nat

    /** The counters and the log agree; one drain frame at most, flagged by inDrain. */
    ghost predicate Accounts()
      reads this
    {
      && requested == Asked(log)
      && delivered == |Received(log)|
      && die == (inDrain && Closed(log))
      && frames == (if inDrain then 1 else 0)
      && deaths == 0
    }

    /** Alive and not in a drain: the next element is the one at idx. */
    ghost predicate Resting()
      reads this
    {
      && Accounts()
      && !inDrain && !Closed(log)
      && idx == delivered <= |script.items|
    }

    /** Destroyed, by die() running once. */
    ghost predicate Dead()
      reads this
    {
      deaths == 1 && frames == 0 && Closed(log)
    }

    ghost function Remaining(): Script<T>
      reads this
      requires idx <= |script.items|
    {
      Script(script.items[idx..], script.ending)
    }

    constructor (script: Script<T>, react: Subscriber<T>)
      ensures Resting() && log == Start && this.script == script && this.react == react
    {
      this.script, this.react := script, react;
      idx, requested, delivered := 0, 0, 0;
      inDrain, die, drainRequested := false, false, false;
      log, deaths, frames := Start, 0, 0;
    }

    /**
     request(n). From inside on_next it only counts the demand; from outside it serves the
     subscriber exactly as the reference does and destroys the source exactly when the
     conversation is over.
     */
    method Request(n: pos)
      requires Accounts() && !Closed(log)
      requires !inDrain ==> Resting()
      modifies this
      ensures old(inDrain) ==> Accounts() && idx == old(idx) && inDrain && log == After(old(log), Requested(n))
      ensures !old(inDrain) ==>
                && log == Serve(After(old(log), Requested(n)), old(Remaining()), react)
                && (if Closed(log) then Dead() else Resting())
      decreases if inDrain then 2 else 8
    {
      requested := requested + n;
      log := After(log, Requested(n));
      Drain();
    }

    /** cancel(). From inside on_next the death is deferred to the end of the drain. */
    method Cancel()
      requires Accounts() && !Closed(log)
      modifies this
      ensures log == After(old(log), Cancelled)
      ensures old(inDrain) ==> Accounts() && idx == old(idx) && inDrain && requested == old(requested)
      ensures !old(inDrain) ==> Dead()
      decreases 3
    {
      log := After(log, Cancelled);
      if !inDrain {
        Die();
      } else {
        die := true;
      }
    }

    method Die()
      requires deaths == 0 && frames == 0 && Closed(log)
      modifies this`deaths
      ensures Dead()
      decreases 0
    {
      deaths := deaths + 1;
    }

    method Drain()
      requires Accounts() && !Closed(log)
      requires !inDrain ==> Resting()
      modifies this
      ensures old(inDrain) ==> Accounts() && inDrain && idx == old(idx) && log == old(log)
      ensures !old(inDrain) ==>
                && log == Serve(old(log), old(Remaining()), react)
                && (if Closed(log) then Dead() else Resting())
      decreases if inDrain then 1 else 7
    {
      if inDrain {
        drainRequested := true;
        return;
      }
      inDrain := true;
      frames := frames + 1;

      while delivered < requested && !die
        invariant Accounts() && inDrain
        invariant idx <= |script.items|
        invariant !die ==> idx == delivered
        invariant Serve(log, Remaining(), react) == old(Serve(log, Remaining(), react))
        decreases |script.items| - idx, !die
      {
        drainRequested := false;
        var more := DrainImpl();
        if !more {
          if !drainRequested {
            break;
          }
        }
      }

      frames := frames - 1;
      if die {
        Die();
      } else {
        inDrain := false;
      }
    }

    /** One step of the generator function: on_complete, or on_next and only then ++idx. */
    method DrainImpl() returns (more: bool)
      requires Accounts() && inDrain && !die && delivered < requested
      requires idx == delivered <= |script.items|
      modifies this
      ensures Accounts() && inDrain && more
      ensures old(idx) <= idx <= |script.items|
      ensures old(idx) < idx || die
      ensures !die ==> idx == delivered
      ensures Serve(log, Remaining(), react) == old(Serve(log, Remaining(), react))
      decreases 6
    {
      if idx == |script.items| {
        DeliverEnd();
      } else {
        DeliverOnNext(script.items[idx]);
        assert script.items[idx..][1..] == script.items[idx + 1..];
        idx := idx + 1;
      }
      more := true;
    }

    method DeliverEnd()
      requires Accounts() && inDrain && !die
      modifies this
      ensures Accounts() && die && inDrain && idx == old(idx)
      ensures log == After(old(log), Ended(script.ending))
      decreases 5
    {
      log := After(log, Ended(script.ending));
      die := true;
    }

    method DeliverOnNext(t: T)
      requires Accounts() && inDrain && !die && delivered < requested
      modifies this
      ensures Accounts() && inDrain && idx == old(idx)
      ensures delivered == old(delivered) + 1
      ensures log == Deliver(old(log), t, react)
      decreases 5
    {
      delivered := delivered + 1;
      assert delivered <= requested;
      DeliverEffect(log, t, react);
      log := After(log, Next(t));
      OnNext();
    }

    /** The subscriber's on_next: it calls request and cancel on the source. */
    method OnNext()
      requires Accounts() && inDrain && !die
      modifies this
      ensures Accounts() && inDrain && idx == old(idx)
      ensures log == React(old(log), react)
      decreases 4
    {
      var r := react(log);
      var i := 0;
      while i < |r.requests|
        invariant i <= |r.requests|
        invariant Accounts() && inDrain && !die && idx == old(idx)
        invariant Ask(log, r.requests[i..]) == Ask(old(log), r.requests)
      {
        assert r.requests[i..][1..] == r.requests[i + 1..];
        Request(r.requests[i]);
        i := i + 1;
      }
      assert r.requests[i..] == [];
      if r.cancels {
        Cancel();
      }
    }

    /** A whole session of calls from outside, each made while the source is alive. */
    method Run(calls: seq<Call>)
      requires Resting() && log == Start
      modifies this
      ensures log == Session(Start, calls, script, react)
      ensures AtRest(log, script)
      ensures if Closed(log) then Dead() else Resting()
    {
      var i := 0;
      while i < |calls| && !Closed(log)
        invariant i <= |calls|
        invariant if Closed(log) then Dead() else Resting()
        invariant Session(log, calls[i..], script, react) == Session(Start, calls, script, react)
      {
        assert calls[i..][1..] == calls[i + 1..];
        match calls[i] {
          case CallCancel => Cancel();
          case CallRequest(n) => Request(n);
        }
        i := i + 1;
      }
      SessionCutsListAtDemand(Start, calls, script, react);
    }
  }
}
