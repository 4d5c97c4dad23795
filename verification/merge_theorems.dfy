/** What a merge promises over every run. */
module MergeTheorems {
  import opened Demand
  import opened MergeReference
  import opened MergeInvariants

  /** Between two calls from outside: nobody owes anything, and something can still happen unless it is over. */
  ghost predicate Resting<T>(w: World<T>, s: Merging<T>, outside: bool)
  {
    && Good(w, s, outside) && Settled(s) && (Goes(s) || (w.scripts == [] && s.log.Start?))
    && forall u :: 0 <= u < |s.up.owed| ==> s.up.owed[u] == 0
  }

  lemma FreshIsInvariant<T>(scripts: seq<Script<T>>)
    ensures Inv(scripts, FreshMerging(scripts))
  {
    var s := FreshMerging(scripts);
    assert Shape(scripts, s.up);
    assert forall u :: 0 <= u < |scripts| ==> scripts[u].items[..0] == [];
    assert Conserved(scripts, s);
    assert Covered(scripts, s);
    assert Rightly(scripts, s);
  }

  lemma FreshRests<T>(w: World<T>)
    ensures Resting(w, FreshMerging(w.scripts), false)
  {
    hide Inv;
    FreshIsInvariant(w.scripts);
    assert w.scripts != [] ==> FreshMerging(w.scripts).up.active[0];
  }

  lemma OccurrenceKeepsResting<T>(w: World<T>, s: Merging<T>, o: Occurrence, outside: bool)
    requires Resting(w, s, outside)
    ensures Shape(w.scripts, s.up)
    ensures Resting(w, Occurred(w, s, o), outside || o.SinkCancels?)
    ensures o.SinkRequests? && !Closed(s.log) ==> !Occurred(w, s, o).log.Start?
  {
    hide Inv;
    InvIsShape(w.scripts, s);
    match o
    case SinkRequests(n) =>
      if !Closed(s.log) {
        RequestKeepsGood(w, s, n, outside);
      }
    case SinkCancels =>
      if !Closed(s.log) {
        CancelKeepsInv(w.scripts, s);
      }
    case Signals(u) =>
      if CanSignal(w.scripts, s.up, u) {
        SignalKeepsGood(w, s, u, outside);
      }
  }

  ghost predicate SinkEverCancels(occurrences: seq<Occurrence>)
  {
    exists i :: 0 <= i < |occurrences| && occurrences[i].SinkCancels?
  }

  lemma {:induction false} RunKeepsResting<T>(w: World<T>, s: Merging<T>, occurrences: seq<Occurrence>, outside: bool)
    requires Resting(w, s, outside)
    ensures Shape(w.scripts, s.up)
    ensures Resting(w, AllOccurred(w, s, occurrences), outside || SinkEverCancels(occurrences))
    decreases |occurrences|
  {
    hide Good, Settled, Goes;
    RestingIsShape(w, s, outside);
    if occurrences == [] {
      MayBeOutside(w, s, outside, outside || SinkEverCancels(occurrences));
    } else {
      var o, rest := occurrences[0], occurrences[1..];
      OccurrenceKeepsResting(w, s, o, outside);
      RunKeepsResting(w, Occurred(w, s, o), rest, outside || o.SinkCancels?);
      assert o.SinkCancels? ==> occurrences[0].SinkCancels?;
      assert forall i :: 0 <= i < |rest| ==> rest[i] == occurrences[i + 1];
      MayBeOutside(w, AllOccurred(w, Occurred(w, s, o), rest), outside || o.SinkCancels? || SinkEverCancels(rest),
                   outside || SinkEverCancels(occurrences));
    }
  }

  lemma RestingIsShape<T>(w: World<T>, s: Merging<T>, outside: bool)
    requires Resting(w, s, outside)
    ensures Shape(w.scripts, s.up)
  {
  }

  lemma MayBeOutside<T>(w: World<T>, s: Merging<T>, outside: bool, more: bool)
    requires Resting(w, s, outside) && (outside ==> more)
    ensures Resting(w, s, more)
  {
  }

  /** Nothing can happen any more by itself: no live upstream, and nothing buffered. */
  predicate Done<T>(s: Merging<T>)
  {
    AllDone(s.up) && s.items == []
  }

  /**
   Every run of any upstreams and any sink. While the conversation is open, what arrived is
   delivered or buffered, in order; the sink waits for something only while nothing is buffered,
   and then every live upstream owes it at least that. Only the sink cancels. Completion is
   signalled once, last, and only after an interleaving of all the lists; an error only if some
   upstream failed so. A sink that never cancels, and has asked or has upstreams at all, hears
   the end as soon as all upstreams are done and nothing is buffered.
   */
  lemma EveryRun<T(!new)>(w: World<T>, occurrences: seq<Occurrence>)
    requires forall u :: 0 <= u < |w.scripts| ==> w.scripts[u].ending != Failure(0)
    ensures Shape(w.scripts, FreshMerging<T>(w.scripts).up)
    ensures var t := AllOccurred(w, FreshMerging(w.scripts), occurrences);
      && Lawful(t.log) && Received(t.log) <= Untag(t.arrived)
      && (forall u :: 0 <= u < |w.scripts| ==> Of(t.arrived, u) == w.scripts[u].items[..t.up.sent[u]])
      && (!Closed(t.log) ==>
            && Received(t.log) + t.items == Untag(t.arrived) && NoStall(w.scripts, t)
            && t.needed == Needs(t.log) && (Needs(t.log) == 0 || t.items == []))
      && (IsCancelled(t.log) ==> SinkEverCancels(occurrences) || Cancels(t.log, w.react))
      && (HasEnded(t.log) && t.log.event.ending == Complete ==>
            Interleaves(Received(t.log), Lists(w.scripts))
            && forall u :: 0 <= u < |w.scripts| ==> w.scripts[u].ending == Complete)
      && (HasEnded(t.log) && t.log.event.ending.Failure? ==>
            exists u :: 0 <= u < |w.scripts| && w.scripts[u].ending == t.log.event.ending)
      && (Done(t) && !IsCancelled(t.log) && (w.scripts != [] || !t.log.Start?) ==> HasEnded(t.log))
  {
    FreshRests(w);
    RunKeepsResting(w, FreshMerging(w.scripts), occurrences, false);
    var t := AllOccurred(w, FreshMerging(w.scripts), occurrences);
    WhatInvMeans(w.scripts, t);
    if HasEnded(t.log) && t.log.event.ending == Complete {
      CompletionIsComplete(w.scripts, t);
    }
  }

  // ----- without calls from inside, exactly what is asked of whom

  /** The first `k` of the live upstreams have been asked for `left` more, and nobody else for anything. */
  ghost predicate GrantedTo(active: seq<bool>, was: seq<nat>, now: seq<nat>, left: int, k: nat)
  {
    && |now| == |was| == |active|
    && forall u :: 0 <= u < |was| ==> now[u] == was[u] + if k <= u && active[u] && 0 < left then left else 0
  }

  ghost predicate Silent<T(!new)>(w: World<T>)
  {
    forall l: Log<T> :: w.react(l) == Reaction([], false)
  }

  ghost predicate Quiet<T(!new)>(w: World<T>)
  {
    forall u: nat, l: Log<T>, k: nat :: !w.goesOn(u, l, k)
  }

  lemma {:induction false} SilentDraining<T(!new)>(w: World<T>, s: Merging<T>, left: int)
    requires Shape(w.scripts, s.up) && Silent(w) && 0 <= s.needed
    ensures var r := Draining(w, s, 1, left);
      && r.left == left - Min(s.needed, |s.items|)
      && r.s.up.granted == s.up.granted && r.s.up.active == s.up.active && |r.s.up.owed| == |s.up.owed|
    decreases |s.items|
  {
    if s.needed > 0 && s.items != [] {
      var p := Popped(s, 1);
      assert w.react(p.log) == Reaction([], false);
      assert SinkRan(w, p) == p;
      assert FrontDelivered(w, s, 1) == p;
      SilentDraining(w, p, left - 1);
    }
  }

  lemma {:induction false} QuietPassing<T(!new)>(w: World<T>, s: Merging<T>, left: pos, u: nat)
    requires Shape(w.scripts, s.up) && Quiet(w) && u <= |w.scripts|
    ensures var t := PassedOn(w, s, left, u);
      t.up.active == s.up.active && GrantedTo(s.up.active, s.up.granted, t.up.granted, left, u)
    decreases |w.scripts| - u
  {
    if u < |w.scripts| {
      var g := Granting(s, u, left);
      assert s.up.active[u] ==> !w.goesOn(u, g.log, g.up.sent[u]) && Signalling(w, g, u) == g;
      assert PassedTo(w, s, left, u) == if s.up.active[u] then g else Skipping(s, u, left);
      QuietPassing(w, PassedTo(w, s, left, u), left, u + 1);
    }
  }

  /** A request asks every live upstream for exactly what the buffer has not met. */
  lemma RequestAsksForTheRest<T(!new)>(w: World<T>, s: Merging<T>, n: pos)
    requires Silent(w) && Quiet(w) && Inv(w.scripts, s) && Settled(s) && !Closed(s.log)
    ensures Shape(w.scripts, s.up)
    ensures GrantedTo(s.up.active, s.up.granted, RequestMade(w, s, n).up.granted, n - |s.items|, 0)
  {
    var a := Asking(s, n);
    SilentDraining(w, a, n);
    var d := Draining(w, a, 1, n);
    if d.left > 0 {
      QuietPassing(w, d.s, d.left, 0);
    }
  }
}
