/** merge: several sources under one demand counter, with re-entrant sinks and synchronous sources. */
module Merges {
  import opened Histories
  import opened Demand
  import opened MergeReference
  import opened MergeInvariants
  import opened MergeTheorems

  /**
   `merge_publisher::downstream` with all its upstreams subscribed. An upstream is a list that
   signals only on demand. An error is an error_condition that is not zero.
   */
  class Merge<T(!new)> {
    const world: World<T>

    var active: seq<bool>
    var items: seq<T>
    var needed: int
    var depth: nat
    var sinkAlive: bool
    var deleted: bool

    /** The upstreams' own counters. */
    var sent: seq<nat>
    var granted: seq<nat>

    var log: Log<T>
    ghost var arrived: seq<Tagged<T>>
    /** For each upstream, the requests that frames on the stack have still to pass on. */
    ghost var owed: seq<int>

    ghost function S(): Merging<T>
      reads this
    {
      Merging(log, arrived, items, needed, sinkAlive, Upstreams(active, sent, granted, owed))
    }

    ghost predicate Shaped()
      reads this
    {
      Shape(world.scripts, S().up)
    }

    /** Nothing may be called on it any more. */
    ghost predicate Over()
      reads this
    {
      !sinkAlive && forall u :: 0 <= u < |active| ==> !active[u]
    }

    constructor (world: World<T>)
      ensures S() == FreshMerging(world.scripts) && this.world == world && depth == 0 && !deleted
    {
      this.world := world;
      var n := |world.scripts|;
      active, sent, granted, owed := seq(n, _ => true), seq(n, _ => 0), seq(n, _ => 0), seq(n, _ => 0);
      items, needed, depth, sinkAlive, deleted := [], 0, 0, true, false;
      log, arrived := Start, [];
    }

    predicate IsComplete()
      reads this`active, this`items
    {
      (forall u :: 0 <= u < |active| ==> !active[u]) && items == []
    }

    /** destroy_if_possible: the terminal signal, once; deleted only with no frame on the stack. */
    method DestroyIfPossible(ending: Ending)
      requires !deleted
      modifies this`log, this`sinkAlive, this`deleted
      ensures S() == EndHeard(old(S()), ending) && !sinkAlive && deleted == (depth == 0)
    {
      if sinkAlive {
        log := After(log, Ended(ending));
        sinkAlive := false;
      }
      if depth == 0 {
        deleted := true;
      }
    }

    /** The end of every frame but cancel's. */
    method Return()
      requires !deleted && 0 < depth
      modifies this`depth, this`log, this`sinkAlive, this`deleted
      ensures S() == Returned(old(S())) && depth == old(depth) - 1
      ensures deleted ==> depth == 0 && Over()
    {
      depth := depth - 1;
      if IsComplete() {
        DestroyIfPossible(Complete);
      }
    }

    /** on_next of an upstream. */
    method OnNext(u: nat)
      requires Shaped() && !deleted && CanSend(world.scripts, S().up, u)
      modifies this
      ensures S() == Signalled(world, old(S()), u) && depth == old(depth) && (deleted ==> depth == 0 && Over())
      decreases Total(world.scripts, S()), 2, 0, 0
    {
      hide Total;
      PushTotal(world.scripts, S(), u);
      depth := depth + 1;
      var t := world.scripts[u].items[sent[u]];
      sent := sent[u := sent[u] + 1];
      arrived := arrived + [From(u, t)];
      items := items + [t];
      ghost var pushed := S();
      assert pushed == Pushed(world.scripts, old(S()), u);
      while needed > 0 && items != []
        invariant Shaped() && !deleted && depth == old(depth) + 1
        invariant Draining(world, S(), 0, 0) == Draining(world, pushed, 0, 0)
        invariant Total(world.scripts, S()) <= Total(world.scripts, pushed)
        decreases Total(world.scripts, S())
      {
        DeliverFront(0);
      }
      Return();
    }

    /** One turn of either drain loop; `d` of what this frame owes upstream is met from the buffer. */
    method DeliverFront(ghost d: int)
      requires Shaped() && !deleted && 0 < depth && items != []
      modifies this
      ensures S() == FrontDelivered(world, old(S()), d) && depth == old(depth) && !deleted
      decreases Total(world.scripts, S()), 1, 0, 0
    {
      hide Total;
      PopTotal(world.scripts, S(), d);
      var item := items[0];
      items := items[1..];
      needed := needed - 1;
      owed := Shifted(owed, -d);
      if sinkAlive {
        log := After(log, Next(item));
        SinkOnNext();
      }
    }

    /** The sink's on_next: it requests and cancels from there. */
    method SinkOnNext()
      requires Shaped() && !deleted && 0 < depth
      modifies this
      ensures S() == SinkRan(world, old(S())) && depth == old(depth) && !deleted
      decreases Total(world.scripts, S()), 9, 0, 0
    {
      var r := world.react(log);
      for i := 0 to |r.requests|
        invariant Shaped() && !deleted && depth == old(depth)
        invariant RequestsMade(world, S(), r.requests[i..]) == RequestsMade(world, old(S()), r.requests)
        invariant Total(world.scripts, S()) <= old(Total(world.scripts, S()))
      {
        if !Closed(log) {
          assert r.requests[i..][1..] == r.requests[i + 1..];
          Request(r.requests[i]);
        }
      }
      if r.cancels && !Closed(log) {
        Cancel();
      }
    }

    method Request(n: pos)
      requires Shaped() && !deleted
      modifies this
      ensures S() == RequestMade(world, old(S()), n) && depth == old(depth) && (deleted ==> depth == 0 && Over())
      decreases Total(world.scripts, S()), 7, 0, 0
    {
      hide Total, Draining, PassedOn, Returned, AllDone;
      ghost var asked := Asking(S(), n);
      AskTotal(world.scripts, S(), n);
      depth := depth + 1;
      log := After(log, Requested(n));
      needed := needed + n;
      owed := Shifted(owed, n);
      assert S() == asked;
      var left := DrainBuffer(n);
      if left > 0 {
        PassOn(left);
      } else {
        owed := Shifted(owed, -left);
      }
      Return();
    }

    /** The loop of request: `left` is what the buffer did not meet. */
    method DrainBuffer(n: pos) returns (left: int)
      requires Shaped() && !deleted && 0 < depth
      modifies this
      ensures Drained(S(), left) == Draining(world, old(S()), 1, n) && depth == old(depth) && !deleted
      decreases Total(world.scripts, S()), 2, 0, 0
    {
      hide Total;
      left := n;
      while needed > 0 && items != []
        invariant Shaped() && !deleted && depth == old(depth)
        invariant Draining(world, S(), 1, left) == Draining(world, old(S()), 1, n)
        invariant Total(world.scripts, S()) <= old(Total(world.scripts, S()))
        decreases Total(world.scripts, S())
      {
        left := left - 1;
        DeliverFront(1);
      }
    }

    /** What the buffer did not meet is asked of every live upstream. */
    method PassOn(left: pos)
      requires Shaped() && !deleted && 0 < depth
      modifies this
      ensures S() == PassedOn(world, old(S()), left, 0) && depth == old(depth) && !deleted
      decreases Total(world.scripts, S()), 6, 0, 0
    {
      hide Total;
      for u := 0 to |world.scripts|
        invariant Shaped() && !deleted && depth == old(depth)
        invariant PassedOn(world, S(), left, u) == PassedOn(world, old(S()), left, 0)
        invariant Total(world.scripts, S()) <= old(Total(world.scripts, S()))
      {
        PassTo(u, left);
      }
    }

    method PassTo(u: nat, left: pos)
      requires Shaped() && !deleted && 0 < depth && u < |world.scripts|
      modifies this
      ensures S() == PassedTo(world, old(S()), left, u) && depth == old(depth) && !deleted
      decreases Total(world.scripts, S()), 5, 0, 0
    {
      hide Total, Signalling;
      if active[u] {
        SameTotal(world.scripts, S(), Granting(S(), u, left));
        granted := granted[u := granted[u] + left];
        owed := owed[u := owed[u] - left];
        UpstreamSignals(u);
      } else {
        owed := owed[u := owed[u] - left];
      }
    }

    /** s->request on one upstream, which may signal at once. */
    method UpstreamSignals(u: nat)
      requires Shaped() && !deleted && 0 < depth && u < |world.scripts|
      modifies this
      ensures S() == Signalling(world, old(S()), u) && depth == old(depth) && !deleted
      decreases Total(world.scripts, S()), 4, 0, 0
    {
      hide Total;
      while MaySignal(u) && world.goesOn(u, log, sent[u])
        invariant Shaped() && !deleted && depth == old(depth)
        invariant Signalling(world, S(), u) == Signalling(world, old(S()), u)
        invariant Total(world.scripts, S()) <= old(Total(world.scripts, S()))
        decreases |world.scripts[u].items| - sent[u], active[u]
      {
        Signal(u);
      }
    }

    predicate MaySignal(u: nat)
      requires Shaped()
      reads this
      ensures MaySignal(u) == CanSignal(world.scripts, S().up, u)
    {
      u < |world.scripts| && active[u] && (sent[u] == |world.scripts[u].items| || sent[u] < granted[u])
    }

    /** An upstream sends its next item, or ends. */
    method Signal(u: nat)
      requires Shaped() && !deleted && CanSignal(world.scripts, S().up, u)
      modifies this
      ensures S() == Signalled(world, old(S()), u) && depth == old(depth) && (deleted ==> depth == 0 && Over())
      decreases Total(world.scripts, S()), 3, 0, 0
    {
      hide Total, Draining;
      if sent[u] < |world.scripts[u].items| {
        OnNext(u);
      } else if world.scripts[u].ending == Complete {
        OnComplete(u);
      } else {
        OnError(u);
      }
    }

    method OnComplete(u: nat)
      requires !deleted && u < |active| && active[u]
      modifies this`active, this`depth, this`log, this`sinkAlive, this`deleted
      ensures S() == Returned(old(S()).(up := old(S()).up.(active := old(active)[u := false])))
      ensures depth == old(depth) && (deleted ==> depth == 0 && Over())
    {
      depth := depth + 1;
      active := active[u := false];
      Return();
    }

    /** An error cancels the others and overtakes what is buffered. */
    method OnError(u: nat)
      requires !deleted && u < |active| && active[u] && u < |world.scripts|
      modifies this`active, this`log, this`sinkAlive, this`deleted
      ensures S() == EndHeard(Alone(old(S())), world.scripts[u].ending) && depth == old(depth)
        && (deleted ==> depth == 0 && Over())
    {
      active := active[u := false];
      CancelUpstreams();
      DestroyIfPossible(world.scripts[u].ending);
    }

    method CancelUpstreams()
      modifies this`active
      ensures active == seq(|old(active)|, _ => false)
    {
      for v := 0 to |active|
        invariant |active| == |old(active)| && forall w :: 0 <= w < v ==> !active[w]
      {
        active := active[v := false];
      }
    }

    method Cancel()
      requires !deleted
      modifies this`active, this`log, this`sinkAlive, this`deleted
      ensures S() == Cancelling(old(S())) && depth == old(depth) && deleted == (depth == 0) && Over()
    {
      CancelUpstreams();
      log := After(log, Cancelled);
      sinkAlive := false;
      if depth == 0 {
        deleted := true;
      }
    }

    // ----- whole runs

    method Handle(o: Occurrence)
      requires Shaped() && !deleted && depth == 0
      modifies this
      ensures S() == Occurred(world, old(S()), o) && depth == 0 && (deleted ==> Over())
    {
      match o {
        case SinkRequests(n) =>
          if !Closed(log) {
            Request(n);
          }
        case SinkCancels =>
          if !Closed(log) {
            Cancel();
          }
        case Signals(u) =>
          if MaySignal(u) {
            Signal(u);
          }
      }
    }

    /** Every run of calls from outside is the reference's; once it is deleted, nobody has anything to call. */
    method Run(occurrences: seq<Occurrence>)
      requires S() == FreshMerging(world.scripts) && depth == 0 && !deleted
      requires forall u :: 0 <= u < |world.scripts| ==> world.scripts[u].ending != Failure(0)
      modifies this
      ensures S() == AllOccurred(world, FreshMerging(world.scripts), occurrences)
      ensures deleted ==> Over()
      ensures IsCancelled(log) ==> SinkEverCancels(occurrences) || Cancels(log, world.react)
      ensures Done(S()) && !IsCancelled(log) && (world.scripts != [] || !log.Start?) ==> HasEnded(log)
      ensures HasEnded(log) && log.event.ending == Complete ==> Interleaves(Received(log), Lists(world.scripts))
    {
      hide Occurred, Resting;
      FreshRests(world);
      EveryRun(world, occurrences);
      ghost var f := FreshMerging<T>(world.scripts);
      ghost var outside := false;
      for i := 0 to |occurrences|
        invariant Resting(world, S(), outside) && Shaped() && depth == 0 && (deleted ==> Over())
        invariant AllOccurred(world, S(), occurrences[i..]) == AllOccurred(world, f, occurrences)
      {
        assert occurrences[i..][0] == occurrences[i] && occurrences[i..][1..] == occurrences[i + 1..];
        OccurrenceKeepsResting(world, S(), occurrences[i], outside);
        outside := outside || occurrences[i].SinkCancels?;
        if !deleted {
          Handle(occurrences[i]);
        } else {
          DeafWhenOver(S(), occurrences[i]);
        }
      }
    }

    lemma DeafWhenOver(s: Merging<T>, o: Occurrence)
      requires Shape(world.scripts, s.up) && Over() && s == S()
      requires exists outside :: Resting(world, s, outside)
      ensures Occurred(world, s, o) == s
    {
    }
  }
}
