/** What the RTM client promises about each event and over every run. */
module RtmTheorems {
  import opened Wrappers
  import opened Histories
  import opened Subscriptions
  import opened RtmLogs
  import opened RtmReference
  import opened RtmInvariants

  // ----- data

  /** The first `n` messages for one subscription, in order. */
  function DataFor(log: Log, sub: Sub, messages: seq<Message>, n: nat): Log
    requires n <= |messages|
  {
    if n == 0 then log else After(DataFor(log, sub, messages, n - 1), OnData(sub, messages[n - 1]))
  }

  /** All messages of a PDU reach the subscription, one by one. */
  lemma {:induction false} MessagesAreHeard(v: View, sub: Sub, messages: seq<Message>, n: nat, react: UserCode)
    requires Resting(v) && n <= |messages|
    ensures var s := Heard(v, sub, messages, n, react);
      && Resting(s.view) && v.infos <= s.view.infos
      && (!s.aborted ==> Signals(s.view.log) == DataFor(Signals(v.log), sub, messages, n))
  {
    hide Resting, Signals;
    if n > 0 {
      MessagesAreHeard(v, sub, messages, n - 1, react);
      var h := Heard(v, sub, messages, n - 1, react);
      if !h.aborted {
        SignallingKeepsValid(h.view, OnData(sub, messages[n - 1]), react);
        OnlyMore(h.view.(log := After(h.view.log, OnData(sub, messages[n - 1]))),
                 Signalled(h.view, OnData(sub, messages[n - 1]), react).view);
      }
    }
  }

  // ----- confirmations

  /** What the PDU says to whoever waits for it. */
  function Said(pdu: Pdu): Outcome
    requires pdu.Confirmation?
  {
    if pdu.ok then Ok else Error(pdu.kind)
  }

  /** The records that go: after unsubscribe/ok, unsubscribe/error and subscribe/error. */
  predicate DropsSubscription(kind: Kind, ok: bool)
  {
    match kind
    case Publishing => false
    case Subscribing => !ok
    case Unsubscribing => true
  }

  /**
   A confirmation settles exactly its request, with the outcome it carries; after some of them
   the subscription of the request's channel goes, and only that.
   */
  lemma ConfirmationSettles(v: View, pdu: Pdu, react: UserCode)
    requires Resting(v) && pdu.Confirmation? && Unqueued(pdu.id, v.pending) && pdu.id in v.sent
    ensures var s := Confirmed(v, pdu, react); var info := v.sent[pdu.id];
      && Valid(s.view)
      && (!s.aborted ==>
            && Resting(s.view) && pdu.id !in s.view.sent
            && Signals(s.view.log) == Settling(Signals(v.log), pdu.id, Said(pdu), info.callbacks)
            && (if DropsSubscription(pdu.kind, pdu.ok)
                then SearchChannel(s.view.infos, info.channel).None?
                  && WithoutChannel(v.infos, info.channel) <= s.view.infos
                else v.infos <= s.view.infos))
  {
    hide Signals, Settling, SearchChannel, Lawful, Table, Queue, Backed;
    SettlingKeepsValid(v, pdu.id, OutcomeOf(pdu), react);
    var s := Settled(v, pdu.id, OutcomeOf(pdu), react);
    var channel := v.sent[pdu.id].channel;
    if !s.aborted && Deletes(pdu) {
      RemovingFromAPrefix(v.infos, s.view.infos, channel);
      WithoutStaysDistinct(s.view.infos, channel);
      WhatIsLeft(s.view.infos, channel);
      OtherSubscriptionsAreValid(s.view, WithoutChannel(s.view.infos, channel));
    }
  }

  lemma OtherSubscriptionsAreValid(v: View, infos: seq<Details>)
    requires Valid(v) && Distinct(infos)
    ensures Valid(v.(infos := infos))
  {
  }

  /** The subscriptions that some calls add. */
  function Added(calls: seq<Call>): seq<Details>
  {
    if calls == [] then []
    else if calls[0].Subscribe? then [Details(calls[0].channel, calls[0].sub)] + Added(calls[1..])
    else Added(calls[1..])
  }

  /** A call that a running client with these subscriptions refuses. */
  predicate Clashes(infos: seq<Details>, call: Call)
  {
    match call
    case Start(_) => true
    case Stop => false
    case Publish(_, _) => false
    case Subscribe(channel, sub, _) => InUse(infos, channel, sub)
    case Unsubscribe(sub, _) => SearchSub(infos, sub).None?
  }

  ghost predicate SomeClash(infos: seq<Details>, calls: seq<Call>)
  {
    exists k :: 0 <= k < |calls| && Clashes(infos + Added(calls[..k]), calls[k])
  }

  lemma {:induction false} AddedAppend(a: seq<Call>, b: seq<Call>)
    ensures Added(a + b) == Added(a) + Added(b)
  {
    if a == [] {
      assert a + b == b;
    } else {
      AddedAppend(a[1..], b);
      assert (a + b)[1..] == a[1..] + b;
    }
  }

  lemma OneCallOn(infos: seq<Details>, call: Call, rest: seq<Call>)
    ensures SomeClash(infos, [call] + rest) <==> Clashes(infos, call) || SomeClash(infos + Added([call]), rest)
  {
    var calls := [call] + rest;
    assert calls[..0] == [] && infos + Added([]) == infos;
    forall k | 0 < k < |calls|
      ensures calls[k] == rest[k - 1] && infos + Added(calls[..k]) == (infos + Added([call])) + Added(rest[..k - 1])
    {
      assert calls[..k] == [call] + rest[..k - 1];
      AddedAppend([call], rest[..k - 1]);
    }
    if Clashes(infos, call) {
      assert Clashes(infos + Added(calls[..0]), calls[0]);
    }
    if SomeClash(infos + Added([call]), rest) {
      var j :| 0 <= j < |rest| && Clashes(infos + Added([call]) + Added(rest[..j]), rest[j]);
      assert Clashes(infos + Added(calls[..j + 1]), calls[j + 1]);
    }
  }

  /**
   What user code may not do while the client runs, on the calls alone: subscribe to a channel
   or with an object that is in use or was taken by an earlier call, or unsubscribe an unknown one.
   */
  lemma {:induction false} CallsFailExactlyOnAClash(v: View, calls: seq<Call>)
    requires v.state == Running && forall k :: 0 <= k < |calls| ==> !calls[k].Stop?
    ensures AllMade(v, calls).aborted <==> SomeClash(v.infos, calls)
    decreases |calls|
  {
    if calls != [] {
      assert calls == [calls[0]] + calls[1..];
      OneCallOn(v.infos, calls[0], calls[1..]);
      if !Refused(v, calls[0]) {
        assert [calls[0]][1..] == [];
        assert Made(v, calls[0]).infos == v.infos + Added([calls[0]]);
        CallsFailExactlyOnAClash(Made(v, calls[0]), calls[1..]);
      }
    }
  }

  /** The same whatever the client's state, which calls may change: what a call leaves of state and subscriptions. */
  function StateAfter(state: ClientState, call: Call): ClientState
  {
    match call
    case Start(connected) => if connected then Running else state
    case Stop => PendingStopped
    case _ => state
  }

  function InfosAfter(state: ClientState, infos: seq<Details>, call: Call): seq<Details>
  {
    if call.Subscribe? && state == Running then infos + [Details(call.channel, call.sub)] else infos
  }

  predicate RefusedIn(state: ClientState, infos: seq<Details>, call: Call)
  {
    match state
    case Stopped => !call.Start?
    case PendingStopped => call.Start? || call.Stop?
    case Running => Clashes(infos, call)
  }

  predicate SomeRefused(state: ClientState, infos: seq<Details>, calls: seq<Call>)
    decreases |calls|
  {
    && calls != []
    && (RefusedIn(state, infos, calls[0])
        || SomeRefused(StateAfter(state, calls[0]), InfosAfter(state, infos, calls[0]), calls[1..]))
  }

  function InfosAfterAll(state: ClientState, infos: seq<Details>, calls: seq<Call>): seq<Details>
    decreases |calls|
  {
    if calls == [] then infos
    else InfosAfterAll(StateAfter(state, calls[0]), InfosAfter(state, infos, calls[0]), calls[1..])
  }

  /** Calls from inside a callback fail a CHECK exactly when one of them is refused in its turn. */
  lemma {:induction false} CallsFailExactlyWhen(v: View, calls: seq<Call>)
    ensures AllMade(v, calls).aborted <==> SomeRefused(v.state, v.infos, calls)
    ensures !AllMade(v, calls).aborted ==> AllMade(v, calls).view.infos == InfosAfterAll(v.state, v.infos, calls)
    decreases |calls|
  {
    if calls != [] && !Refused(v, calls[0]) {
      CallsFailExactlyWhen(Made(v, calls[0]), calls[1..]);
    }
  }

  /** The calls that the confirmation's callback makes, if there is one. */
  function CallsOnConfirmation(v: View, pdu: Pdu, react: UserCode): seq<Call>
    requires pdu.Confirmation? && pdu.id in v.sent
  {
    if v.sent[pdu.id].callbacks then react(After(v.log, Told(pdu.id, Said(pdu)))) else []
  }

  /**
   A confirmation ends the run exactly if nobody waits for it, if its callback makes a call that
   is refused, or if there is no subscription to drop, counting those that the callback makes.
   */
  lemma ConfirmationFailsExactlyWhen(v: View, pdu: Pdu, react: UserCode)
    requires pdu.Confirmation?
    ensures Confirmed(v, pdu, react).aborted <==>
      || pdu.id !in v.sent
      || (var calls := CallsOnConfirmation(v, pdu, react);
          SomeRefused(v.state, v.infos, calls)
          || (DropsSubscription(pdu.kind, pdu.ok)
            && SearchChannel(InfosAfterAll(v.state, v.infos, calls), v.sent[pdu.id].channel).None?))
  {
    if pdu.id in v.sent {
      var calls := CallsOnConfirmation(v, pdu, react);
      var log := if v.sent[pdu.id].callbacks then After(v.log, Told(pdu.id, OutcomeOf(pdu))) else v.log;
      var w := v.(settling := Some(pdu.id), log := log);
      CallsFailExactlyWhen(w, calls);
      assert Telling(v, pdu.id, OutcomeOf(pdu), react) == AllMade(w, calls);
    }
  }

  /** A failed write ends the run exactly if its callback makes a call that is refused; a completed one never does. */
  lemma CompletionFailsExactlyWhen(v: View, status: Status, react: UserCode)
    requires v.pending != [] && HasRecord(v.pending[0], v.sent)
    ensures Completed(v, status, react).aborted <==>
      match v.pending[0]
      case Write(id, kind, _) =>
        status != Success && v.sent[id].callbacks
          && SomeRefused(v.state, v.infos, react(After(v.log, Told(id, Error(kind)))))
      case Ping(_) =>
        status == Failure && v.state == Running && SomeRefused(v.state, v.infos, react(After(v.log, CommonError)))
  {
    match v.pending[0]
    case Write(id, kind, _) =>
      var log := After(v.log, Told(id, Error(kind)));
      CallsFailExactlyWhen(v.(settling := Some(id), log := log), react(log));
    case Ping(_) =>
      CallsFailExactlyWhen(v.(log := After(v.log, CommonError)), react(After(v.log, CommonError)));
  }

  /** Message number k meets user code that makes a refused call. */
  ghost predicate FailsAt(v: View, sub: Sub, messages: seq<Message>, k: nat, react: UserCode)
    requires k < |messages|
  {
    var h := Heard(v, sub, messages, k, react);
    !h.aborted && SomeRefused(h.view.state, h.view.infos, react(After(h.view.log, OnData(sub, messages[k]))))
  }

  /** Data for a known channel ends the run exactly if one of its messages does. */
  lemma {:induction false} DataFailsExactlyWhen(v: View, sub: Sub, messages: seq<Message>, n: nat, react: UserCode)
    requires n <= |messages|
    ensures Heard(v, sub, messages, n, react).aborted <==> exists k: nat :: k < n && FailsAt(v, sub, messages, k, react)
  {
    if n > 0 {
      DataFailsExactlyWhen(v, sub, messages, n - 1, react);
      var h := Heard(v, sub, messages, n - 1, react);
      var log := After(h.view.log, OnData(sub, messages[n - 1]));
      CallsFailExactlyWhen(h.view.(log := log), react(log));
      assert FailsAt(v, sub, messages, n - 1, react) ==> Heard(v, sub, messages, n, react).aborted;
      assert Heard(v, sub, messages, n, react).aborted && !h.aborted ==> FailsAt(v, sub, messages, n - 1, react);
    }
  }

  /**
   In particular: subscribing again to the same channel from the callback of the confirmation
   that drops its subscription ends the run of a running client exactly if the record, dropped
   only afterwards, is still there, or the subscription object is in use.
   */
  lemma SubscribingAgainFromTheCallback(v: View, pdu: Pdu, react: UserCode, sub: Sub, callbacks: bool)
    requires v.state == Running && pdu.Confirmation? && DropsSubscription(pdu.kind, pdu.ok) && pdu.id in v.sent
      && v.sent[pdu.id].callbacks
    requires react(After(v.log, Told(pdu.id, Said(pdu)))) == [Subscribe(v.sent[pdu.id].channel, sub, callbacks)]
    ensures Confirmed(v, pdu, react).aborted <==> InUse(v.infos, v.sent[pdu.id].channel, sub)
  {
    var call := Subscribe(v.sent[pdu.id].channel, sub, callbacks);
    ConfirmationFailsExactlyWhen(v, pdu, react);
    assert [call][1..] == [];
    assert SomeRefused(v.state, v.infos, [call]) <==> RefusedIn(v.state, v.infos, call);
    assert InfosAfterAll(v.state, v.infos, [call]) == v.infos + [Details(call.channel, sub)];
    FoundAtTheEnd(v.infos, Details(call.channel, sub));
  }

  lemma FoundAtTheEnd(infos: seq<Details>, d: Details)
    ensures SearchChannel(infos + [d], d.channel).Some?
  {
    assert (infos + [d])[|infos|] == d;
  }

  // ----- all events

  lemma ProcessingKeepsValid(v: View, pdu: Pdu, react: UserCode)
    requires Resting(v) && (pdu.Confirmation? ==> Unqueued(pdu.id, v.pending))
    ensures var s := Processed(v, pdu, react); Valid(s.view) && (!s.aborted ==> Resting(s.view))
  {
    hide Confirmed;
    match pdu
    case Malformed =>
    case Data(channel, messages) =>
      var found := SearchChannel(v.infos, channel);
      if found.Some? {
        MessagesAreHeard(v, found.value.sub, messages, |messages|, react);
      }
    case SubscriptionError(channel) =>
      var found := SearchChannel(v.infos, channel);
      if found.Some? {
        SignallingKeepsValid(v, OnSubscriptionError(found.value.sub), react);
      }
    case Confirmation(_, _, id) =>
      UnexpectedConfirmation(v, pdu, react);
      if id in v.sent {
        ConfirmationSettles(v, pdu, react);
      }
  }

  lemma UnexpectedConfirmation(v: View, pdu: Pdu, react: UserCode)
    requires pdu.Confirmation?
    ensures pdu.id !in v.sent ==> Confirmed(v, pdu, react) == Step(v, true)
  {
  }

  lemma OccurrenceKeepsValid(v: View, o: Occurrence, react: UserCode)
    requires Resting(v) && Possible(v, o)
    ensures var s := Occurred(v, o, react); Valid(s.view) && (!s.aborted ==> Resting(s.view))
  {
    hide Valid, Completed, Processed, Enqueued;
    match o
    case Api(call) =>
      CallsKeepValid(v, [call]);
      OnlyMore(v, AllMade(v, [call]).view);
    case PingTimer =>
      PingingKeepsValid(v);
      PingingGrows(v);
      OnlyMore(v, Enqueued(v.(nextId := v.nextId + 1), Ping(v.nextId), false));
    case RequestDone(status) =>
      CompletingKeepsValid(v, status, react);
    case Incoming(pdu) =>
      ProcessingKeepsValid(v, pdu, react);
    case ReadFailed(status) =>
      if status == OperationAborted {
        ClearingKeepsValid(v);
      } else if status == Failure && v.state == Running {
        SignallingKeepsValid(v, CommonError, react);
      }
  }

  lemma ClearingKeepsValid(v: View)
    requires Valid(v)
    ensures Valid(v.(state := Stopped, infos := []))
  {
  }

  lemma {:induction false} EveryRunKeepsValid(v: View, occurrences: seq<Occurrence>, react: UserCode)
    requires Resting(v)
    ensures var s := AllOccurred(v, occurrences, react); Valid(s.view) && (!s.aborted ==> Resting(s.view))
    decreases |occurrences|
  {
    hide Resting, Valid, Occurred, Possible;
    RestingIsValid(v);
    if occurrences != [] {
      if Possible(v, occurrences[0]) {
        OccurrenceKeepsValid(v, occurrences[0], react);
        var s := Occurred(v, occurrences[0], react);
        if !s.aborted {
          EveryRunKeepsValid(s.view, occurrences[1..], react);
        }
      } else {
        EveryRunKeepsValid(v, occurrences[1..], react);
      }
    }
  }

  lemma RestingIsValid(v: View)
    requires Resting(v)
    ensures Valid(v)
  {
  }

  lemma FreshIsResting()
    ensures Resting(FRESH)
  {
  }

  /**
   Over every run of a fresh client, to its end or to a failing CHECK: first in first out with
   one operation at a time, and none waiting while the wire is free; the table's keys are the
   issued and unsettled ids; each request is told at most once, and once if it is settled and
   has callbacks.
   */
  lemma EveryRun(occurrences: seq<Occurrence>, react: UserCode)
    ensures var s := AllOccurred(FRESH, occurrences, react); var v := s.view; var log := v.log;
      && FinishedIn(log) <= StartedIn(log) <= SubmittedIn(log)
      && |StartedIn(log)| == |FinishedIn(log)| + (if v.inFlight then 1 else 0)
      && (!v.inFlight ==> FinishedIn(log) == SubmittedIn(log))
      && v.sent.Keys == IssuedIn(log) - ErasedIn(log)
      && (forall id :: TimesTold(log, id) <= 1 && TimesErased(log, id) <= 1)
      && (forall id :: id in ErasedIn(log) && id in WithCallbacks(log) ==> TimesTold(log, id) == 1)
      && (!s.aborted ==> forall id :: id in v.sent ==> TimesTold(log, id) == 0)
  {
    hide Lawful, UsedIn, IssuedIn, ErasedIn, ToldIn, WithCallbacks, SubmittedIn, StartedIn, FinishedIn, TimesTold,
        TimesErased, AllOccurred;
    FreshIsResting();
    EveryRunKeepsValid(FRESH, occurrences, react);
    var log := AllOccurred(FRESH, occurrences, react).view.log;
    WireIsFifo(log);
    forall id ensures TimesTold(log, id) == (if id in ToldIn(log) then 1 else 0)
      && TimesErased(log, id) == (if id in ErasedIn(log) then 1 else 0)
      && (id in ErasedIn(log) && id in WithCallbacks(log) ==> TimesTold(log, id) == 1)
    {
      SettledAtMostOnce(log, id);
    }
  }

  /** With user code that calls nothing back, these are all the ways in which an event can fail a CHECK. */
  lemma QuietEventsFailExactlyWhen(v: View, o: Occurrence, react: UserCode)
    requires Possible(v, o) && forall log :: react(log) == []
    ensures Occurred(v, o, react).aborted <==>
      match o
      case Api(call) => Refused(v, call)
      case PingTimer => false
      case RequestDone(_) => false
      case ReadFailed(status) => status == OperationAborted && v.state != PendingStopped
      case Incoming(pdu) =>
        match pdu
        case Malformed => true
        case Data(channel, _) => SearchChannel(v.infos, channel).None?
        case SubscriptionError(channel) => SearchChannel(v.infos, channel).None?
        case Confirmation(kind, ok, id) =>
            id !in v.sent
            || (DropsSubscription(kind, ok) && SearchChannel(v.infos, v.sent[id].channel).None?)
  {
    match o
    case Api(call) =>
      OneCall(v, call);
    case PingTimer =>
    case RequestDone(_) =>
    case ReadFailed(_) =>
    case Incoming(pdu) =>
      if pdu.Data? && SearchChannel(v.infos, pdu.channel).Some? {
        QuietMessages(v, SearchChannel(v.infos, pdu.channel).value.sub, pdu.messages, |pdu.messages|, react);
      }
  }

  lemma OneCall(v: View, call: Call)
    ensures AllMade(v, [call]) == if Refused(v, call) then Step(v, true) else Step(Made(v, call), false)
  {
    assert [call][1..] == [];
    assert !Refused(v, call) ==> AllMade(Made(v, call), []) == Step(Made(v, call), false);
  }

  lemma {:induction false} QuietMessages(v: View, sub: Sub, messages: seq<Message>, n: nat, react: UserCode)
    requires n <= |messages| && forall log :: react(log) == []
    ensures !Heard(v, sub, messages, n, react).aborted
  {
    if n > 0 {
      QuietMessages(v, sub, messages, n - 1, react);
    }
  }
}
