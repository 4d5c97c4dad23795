/** What each call puts on the wire and what each event makes heard, field by field. */
module RtmMeanings {
  import opened Wrappers
  import opened Histories
  import opened Subscriptions
  import opened RtmLogs
  import opened RtmReference
  import opened RtmInvariants
  import opened RtmTheorems

  // ----- calls

  /** What a call writes: nothing unless the client runs; an unsubscription names the channel of its subscription. */
  ghost predicate Writes(state: ClientState, infos: seq<Details>, id: nat, call: Call, written: seq<Request>)
  {
    if state != Running then written == []
    else
      match call
      case Publish(channel, _) => written == [Write(id, Publishing, channel)]
      case Subscribe(channel, _, _) => written == [Write(id, Subscribing, channel)]
      case Unsubscribe(sub, _) =>
        exists d :: d in infos && d.sub == sub && written == [Write(id, Unsubscribing, d.channel)]
      case _ => written == []
  }

  /** Whose confirmation somebody waits for. */
  predicate HasCallbacks(call: Call)
  {
    match call
    case Publish(_, callbacks) => callbacks
    case Subscribe(_, _, callbacks) => callbacks
    case Unsubscribe(_, callbacks) => callbacks
    case _ => false
  }

  /** What one call changes, besides the start of its write if the wire is free. */
  ghost predicate CallDoes(v: View, call: Call, w: View)
  {
    v.pending <= w.pending &&
    var written := w.pending[|v.pending|..];
    && Writes(v.state, v.infos, v.nextId, call, written)
    && SubmittedIn(w.log) == SubmittedIn(v.log) + written && w.nextId == v.nextId + |written|
    && WithCallbacks(w.log) == WithCallbacks(v.log) + (if written != [] && HasCallbacks(call) then {v.nextId} else {})
    && w.infos == v.infos + (if v.state == Running && call.Subscribe? then [Details(call.channel, call.sub)] else [])
    && w.state == (if call.Start? && call.connected then Running else if call.Stop? then PendingStopped else v.state)
    && Signals(w.log) == Signals(v.log) && w.settling == v.settling
  }

  /** Every call that is not refused. */
  lemma CallsDoWhatTheySay(v: View, call: Call)
    requires !Refused(v, call)
    ensures CallDoes(v, call, Made(v, call))
  {
    if v.state == Running && !call.Start? && !call.Stop? {
      var w := Made(v, call);
      var id := v.nextId;
      match call
      case Publish(channel, callbacks) => Submits(v.log, Write(id, Publishing, channel), callbacks, !v.inFlight);
      case Subscribe(channel, _, callbacks) => Submits(v.log, Write(id, Subscribing, channel), callbacks, !v.inFlight);
      case Unsubscribe(sub, callbacks) =>
        var d := SearchSub(v.infos, sub).value;
        Submits(v.log, Write(id, Unsubscribing, d.channel), callbacks, !v.inFlight);
        assert w.pending[|v.pending|..] == [Write(id, Unsubscribing, d.channel)];
      case _ =>
    } else {
      assert Made(v, call).pending[|v.pending|..] == [];
    }
  }

  lemma Submits(log: Log, r: Request, callbacks: bool, starts: bool)
    ensures var next := Submitting(log, r, callbacks, starts);
      && SubmittedIn(next) == SubmittedIn(log) + [r] && Signals(next) == Signals(log)
      && WithCallbacks(next) == WithCallbacks(log) + (if r.Write? && callbacks then {r.id} else {})
  {
    SubmittingTellsNobody(log, r, callbacks, starts);
  }

  /** Some calls one after the other, each in the state that the one before left. */
  ghost predicate CallsDo(v: View, calls: seq<Call>, w: View)
    decreases |calls|
  {
    if calls == [] then w == v
    else exists between :: CallDoes(v, calls[0], between) && CallsDo(between, calls[1..], w)
  }

  /** What user code calls from a callback is done, all of it, in order. */
  lemma {:induction false} UserCodeIsObeyed(v: View, calls: seq<Call>)
    ensures !AllMade(v, calls).aborted ==> CallsDo(v, calls, AllMade(v, calls).view)
    decreases |calls|
  {
    if calls != [] && !Refused(v, calls[0]) {
      CallsDoWhatTheySay(v, calls[0]);
      UserCodeIsObeyed(Made(v, calls[0]), calls[1..]);
    }
  }

  // ----- confirmations

  /** The subscription of the channel is gone, and no other. */
  ghost predicate Dropped(was: seq<Details>, now: seq<Details>, channel: string)
  {
    && (forall d :: d in now ==> d.channel != channel)
    && (forall d :: d in was && d.channel != channel ==> d in now)
  }

  /**
   A confirmation that somebody waits for: `ok` is told if and only if the PDU says so, else the
   error of its action, and then the record goes. The subscription goes after unsubscribe/ok,
   unsubscribe/error and subscribe/error, and stays after the other three.
   */
  lemma ConfirmationIsHeard(v: View, kind: Kind, ok: bool, id: nat, react: UserCode)
    requires Resting(v) && Unqueued(id, v.pending) && id in v.sent
    ensures var s := Occurred(v, Incoming(Confirmation(kind, ok, id)), react); var info := v.sent[id];
      !s.aborted ==>
        && id !in s.view.sent
        && (!info.callbacks ==> Signals(s.view.log) == After(Signals(v.log), Erased(id)))
        && (info.callbacks && ok ==> Signals(s.view.log) == After(After(Signals(v.log), Told(id, Ok)), Erased(id)))
        && (info.callbacks && !ok ==>
              Signals(s.view.log) == After(After(Signals(v.log), Told(id, Error(kind))), Erased(id)))
        && (match kind
            case Publishing => v.infos <= s.view.infos
            case Subscribing => if ok then v.infos <= s.view.infos else Dropped(v.infos, s.view.infos, info.channel)
            case Unsubscribing => Dropped(v.infos, s.view.infos, info.channel))
  {
    var pdu := Confirmation(kind, ok, id);
    ConfirmationSettles(v, pdu, react);
    WhatIsLeft(v.infos, v.sent[id].channel);
  }

  /** The calls that its callbacks make are done in between. */
  lemma ConfirmationsCallbackIsObeyed(v: View, kind: Kind, ok: bool, id: nat, react: UserCode)
    requires id in v.sent && v.sent[id].callbacks
    ensures var s := Confirmed(v, Confirmation(kind, ok, id), react);
      var told := v.(settling := Some(id), log := After(v.log, Told(id, if ok then Ok else Error(kind))));
      !s.aborted ==> exists w ::
        && CallsDo(told, react(told.log), w)
        && s.view.pending == w.pending && s.view.nextId == w.nextId && s.view.state == w.state
        && s.view.sent == w.sent - {id} && s.view.log == After(w.log, Erased(id))
  {
    var told := v.(settling := Some(id), log := After(v.log, Told(id, if ok then Ok else Error(kind))));
    UserCodeIsObeyed(told, react(told.log));
    var w := AllMade(told, react(told.log)).view;
    assert Telling(v, id, if ok then Ok else Error(kind), react) == AllMade(told, react(told.log));
  }

  // ----- completions and the other events

  /** A completed write is not heard of; a failed one tells its request's error and drops the record. */
  lemma CompletionIsHeard(v: View, status: Status, react: UserCode)
    requires Resting(v) && Possible(v, RequestDone(status))
    ensures var s := Occurred(v, RequestDone(status), react); var front := v.pending[0];
      var signals := Signals(v.log);
      !s.aborted ==>
        && v.pending[1..] <= s.view.pending && (s.view.inFlight <==> s.view.pending != [])
        && Signals(s.view.log) ==
             After(match front
                   case Write(id, kind, _) =>
                     if status == Success then signals
                     else if v.sent[id].callbacks then After(After(signals, Told(id, Error(kind))), Erased(id))
                     else After(signals, Erased(id))
                   case Ping(_) =>
                     if status == Failure && v.state == Running then After(signals, CommonError) else signals,
                   Finished(front))
  {
    CompletingKeepsValid(v, status, react);
  }

  /** The subscription of a channel has heard all that, and nobody else anything. */
  ghost predicate OnlyItHears(v: View, channel: string, messages: seq<Message>, now: Log)
  {
    exists d :: d in v.infos && d.channel == channel && now == DataFor(Signals(v.log), d.sub, messages, |messages|)
  }

  ghost predicate OnlyItHearsAnError(v: View, channel: string, now: Log)
  {
    exists d :: d in v.infos && d.channel == channel && now == After(Signals(v.log), OnSubscriptionError(d.sub))
  }

  /** Data and errors of a subscription reach its subscriber; nobody else hears anything. */
  lemma SubscriptionHears(v: View, channel: string, messages: seq<Message>, react: UserCode)
    requires Resting(v)
    ensures var s := Occurred(v, Incoming(Data(channel, messages)), react);
      !s.aborted ==> OnlyItHears(v, channel, messages, Signals(s.view.log))
    ensures var s := Occurred(v, Incoming(SubscriptionError(channel)), react);
      !s.aborted ==> OnlyItHearsAnError(v, channel, Signals(s.view.log))
  {
    var found := SearchChannel(v.infos, channel);
    if found.Some? {
      MessagesAreHeard(v, found.value.sub, messages, |messages|, react);
      SignallingKeepsValid(v, OnSubscriptionError(found.value.sub), react);
    }
  }

  /**
   The ping timer queues a ping; a failing read is the end of a client that was stopped, and else
   reported while it runs.
   */
  lemma TimersAndReads(v: View, status: Status, react: UserCode)
    requires Resting(v)
    ensures var p := Occurred(v, PingTimer, react);
      && !p.aborted && p.view.pending == v.pending + [Ping(v.nextId)] && p.view.nextId == v.nextId + 1
      && SubmittedIn(p.view.log) == SubmittedIn(v.log) + [Ping(v.nextId)] && Signals(p.view.log) == Signals(v.log)
    ensures var r := Occurred(v, ReadFailed(status), react);
      match status
      case Success => r == Step(v, false)
      case Failure =>
        if v.state == Running then !r.aborted ==> Signals(r.view.log) == After(Signals(v.log), CommonError)
        else r == Step(v, false)
      case OperationAborted =>
        if v.state == PendingStopped then r == Step(v.(state := Stopped, infos := []), false) else r.aborted
  {
    Submits(v.log, Ping(v.nextId), false, !v.inFlight);
    SignallingKeepsValid(v, CommonError, react);
  }

  // ----- runs

  /**
   Operations complete while one is on the wire; a confirmation can come when no write of its id is
   queued; all else can happen any time.
   */
  lemma WhatIsPossible(v: View, o: Occurrence)
    requires Resting(v)
    ensures Possible(v, o) <==>
      match o
      case RequestDone(_) => v.inFlight
      case Incoming(pdu) => pdu.Confirmation? ==> forall r :: r in v.pending && r.Write? ==> r.id != pdu.id
      case _ => true
  {
  }

  /** A run is its events, one after the other, until a CHECK fails; what is impossible does not occur. */
  lemma {:induction false} RunsAreTheirEvents(v: View, occurrences: seq<Occurrence>, o: Occurrence, react: UserCode)
    ensures AllOccurred(v, [], react) == Step(v, false)
    ensures var s := AllOccurred(v, occurrences, react);
      AllOccurred(v, occurrences + [o], react) ==
        if s.aborted || !Possible(s.view, o) then s else Occurred(s.view, o, react)
    decreases |occurrences|
  {
    hide Occurred, Possible;
    if occurrences == [] {
      assert [o][1..] == [];
      assert occurrences + [o] == [o];
    } else {
      assert (occurrences + [o])[1..] == occurrences[1..] + [o];
      if !Possible(v, occurrences[0]) {
        RunsAreTheirEvents(v, occurrences[1..], o, react);
      } else if !Occurred(v, occurrences[0], react).aborted {
        RunsAreTheirEvents(Occurred(v, occurrences[0], react).view, occurrences[1..], o, react);
      }
    }
  }
}
