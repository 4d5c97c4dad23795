/** Whatever the sink asks merge for, from outside or from on_next, counts; and so does its cancellation. */
module MergeHeeds {
  import opened Histories
  import opened Demand
  import opened MergeReference

  /** What the sink has asked for besides its reactions to items. */
  function Besides<T>(log: Log<T>, react: Subscriber<T>): int
  {
    Asked(log) - AskedInside(log, react)
  }

  ghost predicate Alive<T>(s: Merging<T>)
  {
    s.sinkAlive <==> !Closed(s.log)
  }

  /**
   While the conversation is open: of what was asked besides reactions there is `n` more, so that
   all that reactions ask for has been asked; and no reaction was to cancel.
   */
  ghost predicate Heeds<T>(w: World<T>, s: Merging<T>, t: Merging<T>, n: nat)
  {
    && Alive(t)
    && (!Closed(t.log) ==>
          && !Closed(s.log) && Besides(t.log, w.react) == Besides(s.log, w.react) + n
          && (Cancels(t.log, w.react) ==> Cancels(s.log, w.react)))
  }

  lemma DrainingHeeds<T>(w: World<T>, s: Merging<T>, d: int, left: int)
    requires Shape(w.scripts, s.up) && Alive(s)
    ensures Heeds(w, s, Draining(w, s, d, left).s, 0)
    decreases Total(w.scripts, s), 2, 0, 0
  {
    hide Asked, AskedInside, Cancels;
    if s.needed > 0 && s.items != [] {
      FrontHeeds(w, s, d);
      DrainingHeeds(w, FrontDelivered(w, s, d), d, left - d);
    }
  }

  lemma FrontHeeds<T>(w: World<T>, s: Merging<T>, d: int)
    requires Shape(w.scripts, s.up) && Alive(s) && s.items != []
    ensures Heeds(w, s, FrontDelivered(w, s, d), 0)
    decreases Total(w.scripts, s), 1, 0, 0
  {
    PopTotal(w.scripts, s, d);
    if s.sinkAlive {
      var p := Popped(s, d);
      var r := w.react(p.log);
      assert Besides(p.log, w.react) == Besides(s.log, w.react) - Sum(r.requests);
      AllRequestsHeed(w, p, r.requests);
    }
  }

  lemma AllRequestsHeed<T>(w: World<T>, s: Merging<T>, requests: seq<pos>)
    requires Shape(w.scripts, s.up) && Alive(s)
    ensures Heeds(w, s, RequestsMade(w, s, requests), Sum(requests))
    decreases Total(w.scripts, s), 8, |requests|, 0
  {
    hide Asked, AskedInside, Cancels;
    if requests != [] && !Closed(s.log) {
      RequestHeeds(w, s, requests[0]);
      AllRequestsHeed(w, RequestMade(w, s, requests[0]), requests[1..]);
    }
  }

  lemma RequestHeeds<T>(w: World<T>, s: Merging<T>, n: pos)
    requires Shape(w.scripts, s.up) && Alive(s) && !Closed(s.log)
    ensures Heeds(w, s, RequestMade(w, s, n), n)
    decreases Total(w.scripts, s), 7, 0, 0
  {
    var a := Asking(s, n);
    SameTotal(w.scripts, s, a);
    assert Besides(a.log, w.react) == Besides(s.log, w.react) + n;
    DrainingHeeds(w, a, 1, n);
    var d := Draining(w, a, 1, n);
    if d.left > 0 {
      PassingOnHeeds(w, d.s, d.left, 0);
    }
  }

  lemma PassingOnHeeds<T>(w: World<T>, s: Merging<T>, left: pos, u: nat)
    requires Shape(w.scripts, s.up) && Alive(s) && u <= |w.scripts|
    ensures Heeds(w, s, PassedOn(w, s, left, u), 0)
    decreases Total(w.scripts, s), 6, |w.scripts| - u, 0
  {
    hide Asked, AskedInside, Cancels;
    if u < |w.scripts| {
      SameTotal(w.scripts, s, Granting(s, u, left));
      if s.up.active[u] {
        SignallingHeeds(w, Granting(s, u, left), u);
      }
      PassingOnHeeds(w, PassedTo(w, s, left, u), left, u + 1);
    }
  }

  lemma SignallingHeeds<T>(w: World<T>, s: Merging<T>, u: nat)
    requires Shape(w.scripts, s.up) && Alive(s) && u < |w.scripts|
    ensures Heeds(w, s, Signalling(w, s, u), 0)
    decreases Total(w.scripts, s), 4, |w.scripts[u].items| - s.up.sent[u], if s.up.active[u] then 1 else 0
  {
    hide Asked, AskedInside, Cancels;
    if CanSignal(w.scripts, s.up, u) && w.goesOn(u, s.log, s.up.sent[u]) {
      SignalHeeds(w, s, u);
      SignallingHeeds(w, Signalled(w, s, u), u);
    }
  }

  lemma SignalHeeds<T>(w: World<T>, s: Merging<T>, u: nat)
    requires Shape(w.scripts, s.up) && Alive(s) && CanSignal(w.scripts, s.up, u)
    ensures Heeds(w, s, Signalled(w, s, u), 0)
    decreases Total(w.scripts, s), 3, 0, 0
  {
    hide Asked, AskedInside, Cancels;
    if s.up.sent[u] < |w.scripts[u].items| {
      PushTotal(w.scripts, s, u);
      DrainingHeeds(w, Pushed(w.scripts, s, u), 0, 0);
    }
  }

  // ----- whole runs

  /** All that is asked for from outside. */
  function RequestedOutside(occurrences: seq<Occurrence>): nat
  {
    if occurrences == [] then 0
    else (if occurrences[0].SinkRequests? then occurrences[0].n else 0) + RequestedOutside(occurrences[1..])
  }

  lemma {:induction false} RunHeeds<T>(w: World<T>, s: Merging<T>, occurrences: seq<Occurrence>)
    requires Shape(w.scripts, s.up) && Alive(s)
    ensures var t := AllOccurred(w, s, occurrences);
      && Heeds(w, s, t, RequestedOutside(occurrences))
      && (!Closed(t.log) ==> forall i :: 0 <= i < |occurrences| ==> !occurrences[i].SinkCancels?)
    decreases |occurrences|
  {
    hide Asked, AskedInside, Cancels;
    if occurrences != [] {
      var o := occurrences[0];
      if o.SinkRequests? && !Closed(s.log) {
        RequestHeeds(w, s, o.n);
      } else if o.Signals? && CanSignal(w.scripts, s.up, o.upstream) {
        SignalHeeds(w, s, o.upstream);
      }
      RunHeeds(w, Occurred(w, s, o), occurrences[1..]);
    }
  }

  /**
   Over every run, as long as the conversation is open: the demand is what the sink asked for from
   outside and in its reactions, all of them; nobody has cancelled from outside, and no reaction
   was to cancel.
   */
  lemma EveryRunHeedsTheSink<T>(w: World<T>, occurrences: seq<Occurrence>)
    ensures Shape(w.scripts, FreshMerging<T>(w.scripts).up)
    ensures var t := AllOccurred(w, FreshMerging(w.scripts), occurrences);
      !Closed(t.log) ==>
        && Asked(t.log) == RequestedOutside(occurrences) + AskedInside(t.log, w.react)
        && !Cancels(t.log, w.react) && forall i :: 0 <= i < |occurrences| ==> !occurrences[i].SinkCancels?
  {
    RunHeeds(w, FreshMerging(w.scripts), occurrences);
  }

  /** A run is its events, one after the other. */
  lemma {:induction false} RunsAreTheirEvents<T>(w: World<T>, s: Merging<T>, occurrences: seq<Occurrence>,
                                                 o: Occurrence)
    requires Shape(w.scripts, s.up)
    ensures AllOccurred(w, s, []) == s
    ensures AllOccurred(w, s, occurrences + [o]) == Occurred(w, AllOccurred(w, s, occurrences), o)
    decreases |occurrences|
  {
    hide Occurred;
    if occurrences == [] {
      assert [o][1..] == [];
      assert occurrences + [o] == [o];
    } else {
      RunsAreTheirEvents(w, Occurred(w, s, occurrences[0]), occurrences[1..], o);
      assert (occurrences + [o])[1..] == occurrences[1..] + [o];
    }
  }

  /** A live upstream's signal is its next item, if it was asked for, or, when it has none left, its end. */
  lemma SignalsAreHeard<T>(w: World<T>, s: Merging<T>, u: nat)
    requires Shape(w.scripts, s.up) && u < |w.scripts|
    requires s.up.active[u] && (s.up.sent[u] == |w.scripts[u].items| || s.up.sent[u] < s.up.granted[u])
    ensures var t := Occurred(w, s, Signals(u));
      if s.up.sent[u] < |w.scripts[u].items| then s.up.sent[u] < t.up.sent[u] else !t.up.active[u]
  {
  }
}
