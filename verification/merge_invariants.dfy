/** What every call and every signal of a merge keeps. */
module MergeInvariants {
  import opened Histories
  import opened Demand
  import opened MergeReference

  /** What arrived is each upstream's items in order, and is delivered or buffered in order of arrival. */
  ghost predicate Conserved<T>(scripts: seq<Script<T>>, s: Merging<T>)
    requires Shape(scripts, s.up)
  {
    && (forall u :: 0 <= u < |scripts| ==> Of(s.arrived, u) == scripts[u].items[..s.up.sent[u]])
    && (forall k :: 0 <= k < |s.arrived| ==> s.arrived[k].upstream < |scripts|)
    && Received(s.log) <= Untag(s.arrived)
    && (s.sinkAlive ==> Received(s.log) + s.items == Untag(s.arrived))
  }

  /** No item beyond the demand, nothing after the end, and `needed` is the demand still unmet. */
  ghost predicate Accounts<T>(s: Merging<T>)
  {
    && Lawful(s.log) && 0 <= s.needed
    && (s.sinkAlive <==> !Closed(s.log))
    && (s.sinkAlive ==> s.needed == Needs(s.log))
  }

  /**
   No stall: each live upstream has been asked for, or is about to be asked for, what the
   sink waits for. While items are being drained, the frames account for all of it.
   */
  ghost predicate Covered<T>(scripts: seq<Script<T>>, s: Merging<T>)
    requires Shape(scripts, s.up)
  {
    && (forall u :: 0 <= u < |scripts| ==>
          && 0 <= s.up.owed[u]
          && (0 < s.needed && s.items != [] ==> s.needed <= s.up.owed[u]))
    && (s.sinkAlive ==>
          forall u :: 0 <= u < |scripts| && s.up.active[u] ==>
            s.needed <= s.up.granted[u] - s.up.sent[u] + s.up.owed[u])
  }

  predicate Exhausted<T>(script: Script<T>, sent: nat)
  {
    sent == |script.items|
  }

  ghost predicate AllCompleted<T>(scripts: seq<Script<T>>, up: Upstreams)
    requires Shape(scripts, up)
  {
    forall u :: 0 <= u < |scripts| ==> Exhausted(scripts[u], up.sent[u]) && scripts[u].ending == Complete
  }

  /** Some upstream failed so, after all its items. */
  ghost predicate OneFailed<T>(scripts: seq<Script<T>>, up: Upstreams, ending: Ending)
    requires Shape(scripts, up)
  {
    exists u :: 0 <= u < |scripts| && Exhausted(scripts[u], up.sent[u]) && scripts[u].ending == ending
  }

  /** Upstreams leave by completing, unless the conversation is over; and it is over for the right reason. */
  ghost predicate Rightly<T>(scripts: seq<Script<T>>, s: Merging<T>)
    requires Shape(scripts, s.up)
  {
    && (s.sinkAlive ==>
          forall u :: 0 <= u < |scripts| && !s.up.active[u] ==>
            Exhausted(scripts[u], s.up.sent[u]) && scripts[u].ending == Complete)
    && (!s.sinkAlive ==> AllDone(s.up))
    && (HasEnded(s.log) ==>
          if s.log.event.ending == Complete
          then Received(s.log) == Untag(s.arrived) && AllCompleted(scripts, s.up)
          else OneFailed(scripts, s.up, s.log.event.ending))
  }

  ghost predicate Inv<T>(scripts: seq<Script<T>>, s: Merging<T>)
  {
    Shape(scripts, s.up) && Conserved(scripts, s) && Accounts(s) && Covered(scripts, s) && Rightly(scripts, s)
  }

  // ----- what it means

  /** `s` is made of the lists, each in its own order. */
  ghost predicate Interleaves<T(!new)>(s: seq<T>, lists: seq<seq<T>>)
  {
    exists tags: seq<Tagged<T>> :: Untag(tags) == s && Sorted(tags, lists)
  }

  ghost predicate Sorted<T>(tags: seq<Tagged<T>>, lists: seq<seq<T>>)
  {
    && (forall k :: 0 <= k < |tags| ==> tags[k].upstream < |lists|)
    && (forall u :: 0 <= u < |lists| ==> Of(tags, u) == lists[u])
  }

  function Lists<T>(scripts: seq<Script<T>>): (r: seq<seq<T>>)
    ensures |r| == |scripts| && forall u :: 0 <= u < |scripts| ==> r[u] == scripts[u].items
  {
    seq(|scripts|, u requires 0 <= u < |scripts| => scripts[u].items)
  }

  /** Completion is heard only after an interleaving of all the lists. */
  lemma CompletionIsComplete<T(!new)>(scripts: seq<Script<T>>, s: Merging<T>)
    requires Inv(scripts, s) && HasEnded(s.log) && s.log.event.ending == Complete
    ensures Interleaves(Received(s.log), Lists(scripts))
    ensures forall u :: 0 <= u < |scripts| ==> scripts[u].ending == Complete
  {
    assert Sorted(s.arrived, Lists(scripts));
  }

  lemma {:induction false} OfPrefix<T>(s: seq<Tagged<T>>, k: nat, u: nat)
    requires k <= |s|
    ensures Untag(s[..k]) == Untag(s)[..k] && Of(s[..k], u) <= Of(s, u)
  {
    if k < |s| {
      var init := s[..|s| - 1];
      OfPrefix(init, k, u);
      assert init[..k] == s[..k];
    } else {
      assert s[..k] == s;
    }
  }

  /** At every moment the sink has heard an interleaving of beginnings of the lists. */
  lemma ReceivedInterleaves<T(!new)>(scripts: seq<Script<T>>, s: Merging<T>) returns (beginnings: seq<seq<T>>)
    requires Inv(scripts, s)
    ensures |beginnings| == |scripts| && forall u :: 0 <= u < |scripts| ==> beginnings[u] <= scripts[u].items
    ensures Interleaves(Received(s.log), beginnings)
  {
    var tags := s.arrived[..|Received(s.log)|];
    beginnings := seq(|scripts|, u requires 0 <= u < |scripts| => Of(tags, u));
    OfPrefix(s.arrived, |Received(s.log)|, 0);
    forall u | 0 <= u < |scripts| ensures beginnings[u] <= scripts[u].items {
      OfPrefix(s.arrived, |Received(s.log)|, u);
    }
    assert Untag(tags) == Received(s.log) && Sorted(tags, beginnings);
  }

  /** Every live upstream has been asked for what the sink waits for. */
  ghost predicate NoStall<T>(scripts: seq<Script<T>>, s: Merging<T>)
    requires Shape(scripts, s.up)
  {
    forall u :: 0 <= u < |scripts| && s.up.active[u] ==> Needs(s.log) <= s.up.granted[u] - s.up.sent[u]
  }

  lemma WhatInvMeans<T(!new)>(scripts: seq<Script<T>>, s: Merging<T>)
    requires Inv(scripts, s) && Settled(s) && forall u :: 0 <= u < |s.up.owed| ==> s.up.owed[u] == 0
    ensures Lawful(s.log)
    ensures !Closed(s.log) ==> NoStall(scripts, s) && (Needs(s.log) == 0 || s.items == [])
    ensures Received(s.log) <= Untag(s.arrived) && (!Closed(s.log) ==> Received(s.log) + s.items == Untag(s.arrived))
    ensures forall u :: 0 <= u < |scripts| ==> Of(s.arrived, u) == scripts[u].items[..s.up.sent[u]]
    ensures HasEnded(s.log) && s.log.event.ending == Complete ==> Interleaves(Received(s.log), Lists(scripts))
    ensures HasEnded(s.log) && s.log.event.ending.Failure?
      ==> exists u :: 0 <= u < |scripts| && scripts[u].ending == s.log.event.ending
  {
    if HasEnded(s.log) && s.log.event.ending == Complete {
      CompletionIsComplete(scripts, s);
    }
  }

  // ----- single steps

  /** The front item may go: afterwards everything is as it should be. */
  ghost predicate Ready<T>(scripts: seq<Script<T>>, s: Merging<T>, d: int)
  {
    && Shape(scripts, s.up) && Conserved(scripts, s) && Accounts(s) && Rightly(scripts, s)
    && s.needed > 0 && s.items != [] && Covered(scripts, Popped(s, d))
  }

  lemma PushConserves<T>(scripts: seq<Script<T>>, s: Merging<T>, u: nat)
    requires Shape(scripts, s.up) && Conserved(scripts, s) && CanSend(scripts, s.up, u) && s.sinkAlive
    ensures var p := Pushed(scripts, s, u); Shape(scripts, p.up) && Conserved(scripts, p)
  {
    hide Of, Untag, Received;
    var t := scripts[u].items[s.up.sent[u]];
    OneMoreArrival(s.arrived, From(u, t));
    var p := Pushed(scripts, s, u);
    assert scripts[u].items[..p.up.sent[u]] == scripts[u].items[..s.up.sent[u]] + [t];
    assert Received(p.log) + p.items == Received(s.log) + s.items + [t];
  }

  lemma {:induction false} PushMakesReady<T>(scripts: seq<Script<T>>, s: Merging<T>, u: nat)
    requires Inv(scripts, s) && Settled(s) && CanSend(scripts, s.up, u)
    ensures var p := Pushed(scripts, s, u);
      if p.needed > 0 then Ready(scripts, p, 0) && |p.items| == 1 else Inv(scripts, p)
  {
    hide Conserved;
    PushConserves(scripts, s, u);
  }

  lemma PopKeepsInv<T>(scripts: seq<Script<T>>, s: Merging<T>, d: int)
    requires Ready(scripts, s, d)
    ensures Inv(scripts, Popped(s, d))
  {
    var p := Popped(s, d);
    assert Conserved(scripts, p);
  }

  lemma AskKeepsInv<T>(scripts: seq<Script<T>>, s: Merging<T>, n: pos)
    requires Inv(scripts, s) && !Closed(s.log)
    ensures Inv(scripts, Asking(s, n))
  {
  }

  lemma InvIsReady<T>(scripts: seq<Script<T>>, s: Merging<T>)
    requires Inv(scripts, s) && s.needed > 0 && s.items != []
    ensures Ready(scripts, s, 1)
  {
  }

  lemma GrantKeepsInv<T>(scripts: seq<Script<T>>, s: Merging<T>, u: nat, left: pos)
    requires Inv(scripts, s) && Settled(s) && u < |scripts| && left <= s.up.owed[u]
    ensures Inv(scripts, Granting(s, u, left))
  {
  }

  lemma SkipKeepsInv<T>(scripts: seq<Script<T>>, s: Merging<T>, u: nat, left: pos)
    requires Inv(scripts, s) && Settled(s) && u < |scripts| && left <= s.up.owed[u] && !s.up.active[u]
    ensures Inv(scripts, Skipping(s, u, left))
  {
  }

  lemma OverpayingKeepsInv<T>(scripts: seq<Script<T>>, s: Merging<T>, d: nat)
    requires Inv(scripts, s)
    ensures Inv(scripts, Owing(s, Shifted(s.up.owed, d)))
  {
  }

  lemma CancelKeepsInv<T>(scripts: seq<Script<T>>, s: Merging<T>)
    requires Inv(scripts, s) && !Closed(s.log)
    ensures Inv(scripts, Cancelling(s))
  {
  }

  /** All upstreams are gone, and `ending` is what the sink should hear now, if it is to hear anything. */
  ghost predicate MayEnd<T>(scripts: seq<Script<T>>, s: Merging<T>, ending: Ending)
  {
    && Shape(scripts, s.up) && Conserved(scripts, s) && Accounts(s) && Covered(scripts, s) && AllDone(s.up)
    && (if !s.sinkAlive then Rightly(scripts, s)
        else if ending == Complete then s.items == [] && AllCompleted(scripts, s.up)
        else OneFailed(scripts, s.up, ending))
  }

  lemma EndKeepsInv<T>(scripts: seq<Script<T>>, s: Merging<T>, ending: Ending)
    requires MayEnd(scripts, s, ending)
    ensures Inv(scripts, EndHeard(s, ending))
  {
  }

  lemma DoneMayEnd<T>(scripts: seq<Script<T>>, s: Merging<T>)
    requires Inv(scripts, s) && AllDone(s.up) && s.items == []
    ensures MayEnd(scripts, s, Complete)
  {
    forall u | 0 <= u < |scripts| && s.sinkAlive
      ensures Exhausted(scripts[u], s.up.sent[u]) && scripts[u].ending == Complete {
      assert !s.up.active[u];
    }
  }

  lemma CompletingKeepsInv<T>(scripts: seq<Script<T>>, s: Merging<T>, u: nat)
    requires Inv(scripts, s) && u < |scripts| && s.up.active[u]
    requires Exhausted(scripts[u], s.up.sent[u]) && scripts[u].ending == Complete
    ensures Inv(scripts, s.(up := s.up.(active := s.up.active[u := false])))
  {
  }

  lemma FailingMayEnd<T>(scripts: seq<Script<T>>, s: Merging<T>, u: nat)
    requires Inv(scripts, s) && u < |scripts| && s.up.active[u]
    requires Exhausted(scripts[u], s.up.sent[u]) && scripts[u].ending.Failure?
    ensures MayEnd(scripts, Alone(s), scripts[u].ending)
  {
  }

  // ----- calls inside calls

  /** The invariant, and only the sink has cancelled: from inside on_next, or `outside`. */
  ghost predicate Good<T>(w: World<T>, s: Merging<T>, outside: bool)
  {
    Inv(w.scripts, s) && (IsCancelled(s.log) ==> outside || Cancels(s.log, w.react))
  }

  /** After a frame: something can still happen, or the conversation is over. */
  ghost predicate Goes<T>(s: Merging<T>)
  {
    Closed(s.log) || !AllDone(s.up) || s.items != []
  }

  /** No log taken back, and what the frames below owe is as it was. */
  ghost predicate Later<T>(s: Merging<T>, t: Merging<T>)
  {
    Continues(s.log, t.log) && t.up.owed == s.up.owed
  }

  lemma LaterTwice<T>(a: Merging<T>, b: Merging<T>, c: Merging<T>)
    requires Later(a, b) && Later(b, c)
    ensures Later(a, c)
  {
    ContinuesTransitive(a.log, b.log, c.log);
  }

  lemma OneEventLater<T>(s: Merging<T>, t: Merging<T>)
    requires t.up.owed == s.up.owed && (t.log == s.log || (t.log.After? && t.log.before == s.log))
    ensures Later(s, t)
  {
    assert Continues(s.log, s.log);
  }

  lemma InvIsShape<T>(scripts: seq<Script<T>>, s: Merging<T>)
    requires Inv(scripts, s)
    ensures Shape(scripts, s.up) && |s.up.owed| == |scripts| && 0 <= s.needed && (s.sinkAlive <==> !Closed(s.log))
    ensures forall u :: 0 <= u < |scripts| ==> 0 <= s.up.owed[u]
  {
  }

  /** The cancellation is still the sink's if the log only goes on. */
  lemma StaysGood<T>(w: World<T>, s: Merging<T>, t: Merging<T>, outside: bool)
    requires Good(w, s, outside) && Inv(w.scripts, t) && Continues(s.log, t.log)
      && (IsCancelled(t.log) ==> IsCancelled(s.log))
    ensures Good(w, t, outside)
  {
    if IsCancelled(s.log) && !outside {
      CancelsLater(s.log, t.log, w.react);
    }
  }

  lemma ReturningKeepsGood<T>(w: World<T>, s: Merging<T>, outside: bool)
    requires Good(w, s, outside) && Settled(s)
    ensures var t := Returned(s); Good(w, t, outside) && Settled(t) && Goes(t) && Later(s, t)
  {
    hide Conserved, Covered, Rightly;
    OneEventLater(s, Returned(s));
    if AllDone(s.up) && s.items == [] {
      DoneMayEnd(w.scripts, s);
      EndKeepsInv(w.scripts, s, Complete);
    }
    StaysGood(w, s, Returned(s), outside);
  }

  /** Before the pop of a drain loop: ready for it, or done. */
  ghost predicate Draws<T>(w: World<T>, s: Merging<T>, d: int, outside: bool)
  {
    && (IsCancelled(s.log) ==> outside || Cancels(s.log, w.react))
    && if s.needed > 0 && s.items != [] then Ready(w.scripts, s, d) else Inv(w.scripts, s)
  }

  lemma FrontKeepsGood<T>(w: World<T>, s: Merging<T>, d: int, outside: bool)
    requires Draws(w, s, d, outside) && s.needed > 0 && s.items != []
    ensures var t := FrontDelivered(w, s, d);
      && Good(w, t, outside) && (Settled(t) || t.items == s.items[1..])
      && Continues(s.log, t.log) && t.up.owed == Shifted(s.up.owed, -d)
    decreases Total(w.scripts, s), 1, 0, 0
  {
    hide Inv, Conserved, Accounts, Covered, Rightly, Total;
    var p := Popped(s, d);
    PopKeepsInv(w.scripts, s, d);
    PopTotal(w.scripts, s, d);
    InvIsShape(w.scripts, p);
    assert Continues(s.log, s.log);
    if s.sinkAlive {
      SinkKeepsGood(w, p, outside);
      ContinuesTransitive(s.log, p.log, SinkRan(w, p).log);
    }
  }

  lemma SinkKeepsGood<T>(w: World<T>, s: Merging<T>, outside: bool)
    requires Good(w, s, outside) && !Closed(s.log) && s.log.After? && s.log.event.Next?
    ensures var t := SinkRan(w, s);
      Good(w, t, outside) && (Settled(t) || t.items == s.items) && Later(s, t)
    decreases Total(w.scripts, s), 9, 0, 0
  {
    hide Inv;
    InvIsShape(w.scripts, s);
    var r := w.react(s.log);
    RequestsKeepGood(w, s, r.requests, outside);
    var t := RequestsMade(w, s, r.requests);
    if r.cancels && !Closed(t.log) {
      InvIsShape(w.scripts, t);
      CancelKeepsInv(w.scripts, t);
      CancelsLater(s.log, t.log, w.react);
      assert Cancels(After(t.log, Cancelled), w.react);
      OneEventLater(t, Cancelling(t));
      LaterTwice(s, t, Cancelling(t));
    }
  }

  lemma RequestsKeepGood<T>(w: World<T>, s: Merging<T>, requests: seq<pos>, outside: bool)
    requires Good(w, s, outside)
    ensures Shape(w.scripts, s.up)
    ensures var t := RequestsMade(w, s, requests);
      Good(w, t, outside) && (Settled(t) || t.items == s.items) && (Settled(s) ==> Settled(t)) && Later(s, t)
    decreases Total(w.scripts, s), 8, |requests|, 0
  {
    hide Inv;
    InvIsShape(w.scripts, s);
    OneEventLater(s, s);
    if requests != [] && !Closed(s.log) {
      var t := RequestMade(w, s, requests[0]);
      RequestKeepsGood(w, s, requests[0], outside);
      OneEventLater(s, s.(log := After(s.log, Requested(requests[0]))));
      ContinuesTransitive(s.log, After(s.log, Requested(requests[0])), t.log);
      RequestsKeepGood(w, t, requests[1..], outside);
      LaterTwice(s, t, RequestsMade(w, t, requests[1..]));
    }
  }

  /** One request: the buffer first, then every live upstream. */
  lemma RequestKeepsGood<T>(w: World<T>, s: Merging<T>, n: pos, outside: bool)
    requires Good(w, s, outside) && !Closed(s.log)
    ensures Shape(w.scripts, s.up)
    ensures var t := RequestMade(w, s, n);
      && Good(w, t, outside) && Settled(t) && Goes(t)
      && Continues(After(s.log, Requested(n)), t.log) && t.up.owed == s.up.owed
    decreases Total(w.scripts, s), 7, 0, 0
  {
    hide Inv, Total, Draining, PassedOn, Returned, Settled, Goes, Shape, Cancels, AllDone, Draws;
    InvIsShape(w.scripts, s);
    var a := Asking(s, n);
    AskTotal(w.scripts, s, n);
    AskKeepsInv(w.scripts, s, n);
    var d := Draining(w, a, 1, n);
    InvDraws(w, a, outside);
    DrainingKeepsGood(w, a, 1, n, outside);
    InvIsShape(w.scripts, d.s);
    BackToTheOld(s.up.owed, n, d.left);
    var p := if d.left > 0 then PassedOn(w, d.s, d.left, 0) else Owing(d.s, Shifted(d.s.up.owed, -d.left));
    if d.left > 0 {
      PassingOnKeepsGood(w, d.s, d.left, 0, outside);
      InvIsShape(w.scripts, p);
      ContinuesTransitive(a.log, d.s.log, p.log);
    } else {
      OverpayingKeepsInv(w.scripts, d.s, -d.left);
      StillSettled(d.s, Shifted(d.s.up.owed, -d.left));
    }
    assert p.up.owed == s.up.owed;
    ReturningKeepsGood(w, p, outside);
    ContinuesTransitive(a.log, p.log, Returned(p).log);
  }

  lemma StillSettled<T>(s: Merging<T>, owed: seq<int>)
    requires Settled(s)
    ensures Settled(Owing(s, owed))
  {
  }

  lemma BackToTheOld(owed: seq<int>, n: int, left: int)
    ensures Shifted(Shifted(Shifted(owed, n), left - n), -left) == owed
    ensures Shifted(Shifted(owed, n), left - n) == Shifted(owed, left)
  {
  }

  lemma InvDraws<T>(w: World<T>, s: Merging<T>, outside: bool)
    requires Good(w, s, outside)
    ensures Draws(w, s, 1, outside)
  {
    if s.needed > 0 && s.items != [] {
      InvIsReady(w.scripts, s);
    }
  }

  /** Both drain loops: a frame of request draws on what it owes, one of on_next has one item. */
  lemma DrainingKeepsGood<T>(w: World<T>, s: Merging<T>, d: int, left: int, outside: bool)
    requires Draws(w, s, d, outside) && (d == 1 || (d == 0 && (Settled(s) || |s.items| == 1)))
    ensures Shape(w.scripts, s.up)
    ensures var r := Draining(w, s, d, left);
      && Good(w, r.s, outside) && Settled(r.s)
      && Continues(s.log, r.s.log) && r.s.up.owed == Shifted(s.up.owed, r.left - left)
      && (d == 0 ==> r.left == left)
    decreases Total(w.scripts, s), 2, 0, 0
  {
    hide Inv, Conserved, Accounts, Covered, Rightly, Ready, Total, FrontDelivered, Popped;
    assert Shifted(s.up.owed, 0) == s.up.owed;
    assert Continues(s.log, s.log);
    if s.needed > 0 && s.items != [] {
      FrontKeepsGood(w, s, d, outside);
      var t := FrontDelivered(w, s, d);
      if d == 1 {
        InvDraws(w, t, outside);
      } else {
        SettledDraws(w, t, outside);
      }
      DrainingKeepsGood(w, t, d, left - d, outside);
      var r := Draining(w, t, d, left - d);
      assert Shifted(Shifted(s.up.owed, -d), r.left - (left - d)) == Shifted(s.up.owed, r.left - left);
      ContinuesTransitive(s.log, t.log, r.s.log);
    } else {
      InvIsShape(w.scripts, s);
    }
  }

  lemma SettledDraws<T>(w: World<T>, s: Merging<T>, outside: bool)
    requires Good(w, s, outside) && Settled(s)
    ensures Draws(w, s, 0, outside)
  {
  }

  lemma PassingOnKeepsGood<T>(w: World<T>, s: Merging<T>, left: pos, u: nat, outside: bool)
    requires Good(w, s, outside) && Settled(s) && u <= |w.scripts|
    requires |s.up.owed| == |w.scripts| && forall v :: u <= v < |w.scripts| ==> left <= s.up.owed[v]
    ensures Shape(w.scripts, s.up)
    ensures var t := PassedOn(w, s, left, u);
      && Good(w, t, outside) && Settled(t) && Continues(s.log, t.log)
      && forall v :: 0 <= v < |w.scripts| ==> t.up.owed[v] == s.up.owed[v] - (if u <= v then left else 0)
    decreases Total(w.scripts, s), 6, |w.scripts| - u, 0
  {
    hide Inv;
    InvIsShape(w.scripts, s);
    assert Continues(s.log, s.log);
    if u < |w.scripts| {
      var t := PassedTo(w, s, left, u);
      PassingToKeepsGood(w, s, left, u, outside);
      PassingOnKeepsGood(w, t, left, u + 1, outside);
      ContinuesTransitive(s.log, t.log, PassedOn(w, t, left, u + 1).log);
    }
  }

  lemma PassingToKeepsGood<T>(w: World<T>, s: Merging<T>, left: pos, u: nat, outside: bool)
    requires Good(w, s, outside) && Settled(s) && u < |w.scripts| == |s.up.owed| && left <= s.up.owed[u]
    ensures Shape(w.scripts, s.up)
    ensures var t := PassedTo(w, s, left, u);
      && Good(w, t, outside) && Settled(t) && Continues(s.log, t.log)
      && t.up.owed == s.up.owed[u := s.up.owed[u] - left]
    decreases Total(w.scripts, s), 5, 0, 0
  {
    hide Inv;
    InvIsShape(w.scripts, s);
    assert Continues(s.log, s.log);
    if s.up.active[u] {
      var g := Granting(s, u, left);
      GrantKeepsInv(w.scripts, s, u, left);
      InvIsShape(w.scripts, g);
      SameTotal(w.scripts, s, g);
      SignallingKeepsGood(w, g, u, outside);
    } else {
      SkipKeepsInv(w.scripts, s, u, left);
    }
  }

  lemma SignallingKeepsGood<T>(w: World<T>, s: Merging<T>, u: nat, outside: bool)
    requires Good(w, s, outside) && Settled(s) && u < |w.scripts|
    ensures Shape(w.scripts, s.up)
    ensures var t := Signalling(w, s, u); Good(w, t, outside) && Settled(t) && Later(s, t)
    decreases Total(w.scripts, s), 4, if Shape(w.scripts, s.up) then |w.scripts[u].items| - s.up.sent[u] else 0,
              if u < |s.up.active| && s.up.active[u] then 1 else 0
  {
    hide Inv;
    InvIsShape(w.scripts, s);
    OneEventLater(s, s);
    if CanSignal(w.scripts, s.up, u) && w.goesOn(u, s.log, s.up.sent[u]) {
      var t := Signalled(w, s, u);
      SignalKeepsGood(w, s, u, outside);
      SignallingKeepsGood(w, t, u, outside);
      LaterTwice(s, t, Signalling(w, t, u));
    }
  }

  lemma PushLater<T>(scripts: seq<Script<T>>, s: Merging<T>, u: nat)
    requires Shape(scripts, s.up) && CanSend(scripts, s.up, u)
    ensures var p := Pushed(scripts, s, u); p.log == s.log && p.up.owed == s.up.owed && p.needed == s.needed
  {
  }

  lemma PushDraws<T>(w: World<T>, s: Merging<T>, u: nat, outside: bool)
    requires Good(w, s, outside) && Settled(s)
    requires Shape(w.scripts, s.up) && CanSend(w.scripts, s.up, u)
    ensures var p := Pushed(w.scripts, s, u); Draws(w, p, 0, outside) && (Settled(p) || |p.items| == 1)
  {
    hide Inv, Ready, Conserved, Covered, Rightly;
    PushMakesReady(w.scripts, s, u);
    InvIsShape(w.scripts, s);
  }

  /** One signal of an upstream. */
  lemma SignalKeepsGood<T>(w: World<T>, s: Merging<T>, u: nat, outside: bool)
    requires Good(w, s, outside) && Settled(s)
    requires Shape(w.scripts, s.up) && CanSignal(w.scripts, s.up, u)
    ensures var t := Signalled(w, s, u); Good(w, t, outside) && Settled(t) && Goes(t) && Later(s, t)
    decreases Total(w.scripts, s), 3, 0, 0
  {
    hide Inv, Total, Draining, Returned, Ready, Pushed, Conserved, Covered, Rightly;
    if s.up.sent[u] < |w.scripts[u].items| {
      var p := Pushed(w.scripts, s, u);
      PushDraws(w, s, u, outside);
      PushTotal(w.scripts, s, u);
      DrainingKeepsGood(w, p, 0, 0, outside);
      var d := Draining(w, p, 0, 0).s;
      PushLater(w.scripts, s, u);
      assert Shifted(p.up.owed, 0) == p.up.owed;
      ReturningKeepsGood(w, d, outside);
      ContinuesTransitive(s.log, d.log, Returned(d).log);
    } else if w.scripts[u].ending == Complete {
      var c := s.(up := s.up.(active := s.up.active[u := false]));
      CompletingKeepsInv(w.scripts, s, u);
      ReturningKeepsGood(w, c, outside);
    } else {
      ErrorKeepsGood(w, s, u, outside);
    }
  }

  lemma ErrorKeepsGood<T>(w: World<T>, s: Merging<T>, u: nat, outside: bool)
    requires Good(w, s, outside) && Settled(s) && u < |w.scripts| == |s.up.active| && s.up.active[u]
    requires |s.up.sent| == |w.scripts| && Exhausted(w.scripts[u], s.up.sent[u]) && w.scripts[u].ending.Failure?
    ensures var t := EndHeard(Alone(s), w.scripts[u].ending);
      && Good(w, t, outside) && Settled(t) && Goes(t) && Later(s, t)
      && t.log == After(s.log, Ended(w.scripts[u].ending))
  {
    FailingMayEnd(w.scripts, s, u);
    EndKeepsInv(w.scripts, Alone(s), w.scripts[u].ending);
    OneEventLater(s, EndHeard(Alone(s), w.scripts[u].ending));
  }
}
