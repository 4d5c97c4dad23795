/** The RTM client: its write queue, its table of unsettled requests, its callbacks. */
module RtmClients {
  import opened Wrappers
  import opened Histories
  import opened Subscriptions
  import opened RtmLogs
  import opened RtmReference
  import opened RtmInvariants
  import opened RtmTheorems

  /**
   `secure_client`. `react` is the user code behind all callbacks. A failing CHECK sets
   `aborted`, and that is the end of the run.
   */
  class Client {
    const subscriptions: SubscriptionsMap
    const react: UserCode

    var state: ClientState
    var nextId: nat
    var sent: map<nat, Info>
    var pending: seq<Request>
    var inFlight: bool

    var aborted: bool
    var log: Log
    /** The request whose callback is on the stack. */
    ghost var settling: Option<nat>

    ghost function Now(): View
      reads this, subscriptions
    {
      View(log, state, settling, nextId, sent, pending, inFlight, subscriptions.infos)
    }

    ghost function Standing(): Step
      reads this, subscriptions
    {
      Step(Now(), aborted)
    }

    /** Alive, with all accounts in order. */
    ghost predicate Alive()
      reads this, subscriptions
    {
      Valid(Now()) && subscriptions.Valid() && !aborted
    }

    constructor (react: UserCode)
      ensures Now() == FRESH && subscriptions.Valid() && !aborted && fresh(subscriptions) && this.react == react
    {
      subscriptions := new SubscriptionsMap();
      this.react := react;
      state, nextId, sent, pending, inFlight := Stopped, 1, map[], [], false;
      aborted, log, settling := false, History.Start, None;
    }

    // ----- the interface

    method Publish(channel: string, callbacks: bool)
      requires Alive()
      modifies this
      ensures subscriptions.Valid() && Standing() == AllMade(old(Now()), [Call.Publish(channel, callbacks)])
    {
      hide Valid;
      OneCall(Now(), Call.Publish(channel, callbacks));
      if state == PendingStopped {
        return;
      }
      if state != Running {
        aborted := true;
        return;
      }
      EmplaceAndWrite(Publishing, channel, callbacks);
    }

    method Subscribe(channel: string, sub: Sub, callbacks: bool)
      requires Alive()
      modifies this, subscriptions
      ensures subscriptions.Valid() && Standing() == AllMade(old(Now()), [Call.Subscribe(channel, sub, callbacks)])
    {
      hide Valid, SubscriptionsMap.Valid, SearchChannel, SearchSub;
      ghost var was := Now();
      OneCall(was, Call.Subscribe(channel, sub, callbacks));
      if state == PendingStopped {
        return;
      }
      if state != Running {
        aborted := true;
        return;
      }
      var ok := subscriptions.Add(Details(channel, sub));
      if !ok {
        aborted := true;
        return;
      }
      IndexingKeepsValid(was, channel, sub);
      EmplaceAndWrite(Subscribing, channel, callbacks);
    }

    method Unsubscribe(sub: Sub, callbacks: bool)
      requires Alive()
      modifies this
      ensures subscriptions.Valid() && Standing() == AllMade(old(Now()), [Call.Unsubscribe(sub, callbacks)])
    {
      hide Valid, SubscriptionsMap.Valid, SearchSub;
      OneCall(Now(), Call.Unsubscribe(sub, callbacks));
      if state == PendingStopped {
        return;
      }
      if state != Running {
        aborted := true;
        return;
      }
      var found := subscriptions.FindBySub(sub);
      if found.None? {
        aborted := true;
        return;
      }
      EmplaceAndWrite(Unsubscribing, found.value.channel, callbacks);
    }

    method Start(connected: bool)
      requires Alive()
      modifies this`state, this`aborted
      ensures subscriptions.Valid() && Standing() == AllMade(old(Now()), [Call.Start(connected)])
    {
      OneCall(Now(), Call.Start(connected));
      if state != Stopped {
        aborted := true;
        return;
      }
      if connected {
        state := Running;
      }
    }

    method Stop()
      requires Alive()
      modifies this`state, this`aborted
      ensures subscriptions.Valid() && Standing() == AllMade(old(Now()), [Call.Stop])
    {
      OneCall(Now(), Call.Stop);
      if state != Running {
        aborted := true;
        return;
      }
      state := PendingStopped;
    }

    /** new_request_id(), the new record, and its write. */
    method EmplaceAndWrite(kind: Kind, channel: string, callbacks: bool)
      requires Valid(Now()) && subscriptions.Valid()
      modifies this`nextId, this`sent, this`pending, this`inFlight, this`log
      ensures subscriptions.Valid() && Now() == Issued(old(Now()), kind, channel, callbacks)
    {
      hide Valid, SubscriptionsMap.Valid;
      IssuingKeepsValid(Now(), kind, channel, callbacks);
      QueueIsDrained(Now());
      var id := nextId;
      nextId := nextId + 1;
      assert id !in sent;
      sent := sent[id := Info(kind, channel, callbacks)];
      Enqueue(Write(id, kind, channel), callbacks);
    }

    lemma QueueIsDrained(v: View)
      requires Valid(v)
      ensures !v.inFlight ==> v.pending == []
    {
    }

    /** write() and ping(): to the end of the queue, then drain. */
    method Enqueue(request: Request, callbacks: bool)
      requires !inFlight ==> pending == []
      modifies this`pending, this`inFlight, this`log
      ensures Now() == Enqueued(old(Now()), request, callbacks)
    {
      pending := pending + [request];
      log := After(log, Submitted(request, callbacks));
      DrainRequests();
    }

    method DrainRequests()
      modifies this`inFlight, this`log
      ensures inFlight == (old(inFlight) || pending != [])
      ensures log == if old(inFlight) || pending == [] then old(log) else After(old(log), Started(pending[0]))
    {
      if pending == [] || inFlight {
        return;
      }
      inFlight := true;
      log := After(log, Started(pending[0]));
    }

    // ----- user code

    method Perform(call: Call)
      requires Alive()
      modifies this, subscriptions
      ensures subscriptions.Valid() && Standing() == AllMade(old(Now()), [call])
    {
      match call {
        case Publish(channel, callbacks) => Publish(channel, callbacks);
        case Subscribe(channel, sub, callbacks) => Subscribe(channel, sub, callbacks);
        case Unsubscribe(sub, callbacks) => Unsubscribe(sub, callbacks);
        case Start(connected) => Start(connected);
        case Stop => Stop();
      }
    }

    /** Some callback runs: the calls it makes, up to a failing CHECK. */
    method Callback()
      requires Alive()
      modifies this, subscriptions
      ensures subscriptions.Valid() && Standing() == Reacted(old(Now()), react)
    {
      hide Valid, Refused, Made;
      var calls := react(log);
      ghost var was := Now();
      for i := 0 to |calls|
        invariant subscriptions.Valid() && !aborted && Valid(Now())
        invariant AllMade(Now(), calls[i..]) == AllMade(was, calls)
      {
        ghost var before := Now();
        assert calls[i..][0] == calls[i] && calls[i..][1..] == calls[i + 1..];
        OneCall(before, calls[i]);
        CallsKeepValid(before, [calls[i]]);
        Perform(calls[i]);
        if aborted {
          return;
        }
      }
    }

    // ----- settling a request

    method Tell(id: nat, outcome: Outcome)
      requires Alive() && settling.None? && id in sent
      modifies this, subscriptions
      ensures subscriptions.Valid() && Standing() == Telling(old(Now()), id, outcome, react)
    {
      hide Valid, SubscriptionsMap.Valid;
      ghost var was := Now();
      TellingStartsValid(was, id, outcome);
      settling := Some(id);
      if sent[id].callbacks {
        log := After(log, Told(id, outcome));
        Callback();
      }
    }

    lemma TellingStartsValid(v: View, id: nat, outcome: Outcome)
      requires Valid(v) && v.settling.None? && id in v.sent
      ensures v.sent[id].callbacks ==> Valid(v.(settling := Some(id), log := After(v.log, Told(id, outcome))))
    {
      TellingKeepsValid(v, id, outcome, log => []);
    }

    method Erase(id: nat)
      modifies this`sent, this`log, this`settling
      ensures Now() == Erasing(old(Now()), id)
    {
      sent := sent - {id};
      log := After(log, Erased(id));
      settling := None;
    }

    // ----- completions

    /** on_request_done: the done callback of the front operation runs, it leaves the queue, the next one starts. */
    method OnRequestDone(status: Status)
      requires Alive() && settling.None? && pending != [] && inFlight && HasRecord(pending[0], sent)
      modifies this, subscriptions
      ensures subscriptions.Valid() && Standing() == Completed(old(Now()), status, react)
    {
      hide Valid, SubscriptionsMap.Valid;
      var request := pending[0];
      HandlingKeepsAccounts(Now(), status, react);
      match request {
        case Write(id, _, _) => HandleWrite(id, status);
        case Ping(_) => HandlePing(status);
      }
      if aborted {
        return;
      }
      log := After(log, Finished(pending[0]));
      pending := pending[1..];
      inFlight := false;
      DrainRequests();
    }

    method HandleWrite(id: nat, status: Status)
      requires Alive() && settling.None? && pending != [] && inFlight && HasRecord(pending[0], sent)
      requires pending[0].Write? && pending[0].id == id
      modifies this, subscriptions
      ensures subscriptions.Valid() && Standing() == Handled(old(Now()), status, react)
    {
      hide Valid, SubscriptionsMap.Valid;
      if status != Success {
        Tell(id, Error(sent[id].kind));
        if !aborted {
          Erase(id);
        }
      }
    }

    method HandlePing(status: Status)
      requires Alive() && settling.None? && pending != [] && inFlight && pending[0].Ping?
      modifies this, subscriptions
      ensures subscriptions.Valid() && Standing() == Handled(old(Now()), status, react)
    {
      hide Valid, SubscriptionsMap.Valid;
      if status == Failure && state == Running {
        Signal(CommonError);
      }
    }

    /** A callback that settles nothing. */
    method Signal(e: Event)
      requires Alive() && settling.None? && (e.OnData? || e.OnSubscriptionError? || e.CommonError?)
      modifies this, subscriptions
      ensures subscriptions.Valid() && Standing() == Signalled(old(Now()), e, react)
    {
      hide Valid, SubscriptionsMap.Valid;
      SignalStartsValid(Now(), e);
      log := After(log, e);
      Callback();
    }

    lemma SignalStartsValid(v: View, e: Event)
      requires Valid(v) && v.settling.None? && (e.OnData? || e.OnSubscriptionError? || e.CommonError?)
      ensures Valid(v.(log := After(v.log, e)))
    {
      SignallingKeepsValid(v, e, log => []);
    }

    // ----- what comes in

    method ProcessInput(pdu: Pdu)
      requires Alive() && settling.None? && (pdu.Confirmation? ==> Unqueued(pdu.id, pending))
      modifies this, subscriptions
      ensures subscriptions.Valid() && Standing() == Processed(old(Now()), pdu, react)
    {
      match pdu {
        case Malformed =>
          aborted := true;
        case Data(channel, messages) =>
          ProcessData(channel, messages);
        case SubscriptionError(channel) =>
          ProcessError(channel);
        case Confirmation(_, _, _) =>
          ProcessConfirmation(pdu);
      }
    }

    method ProcessData(channel: string, messages: seq<Message>)
      requires Alive() && settling.None?
      modifies this, subscriptions
      ensures subscriptions.Valid() && Standing() == Processed(old(Now()), Data(channel, messages), react)
    {
      hide Valid, SubscriptionsMap.Valid, SearchChannel, Signalled;
      var found := subscriptions.FindByChannel(channel);
      if found.None? {
        aborted := true;
        return;
      }
      var sub := found.value.sub;
      ghost var was := Now();
      for n := 0 to |messages|
        invariant Alive() && settling.None?
        invariant Standing() == Heard(was, sub, messages, n, react)
      {
        RestingSignals(Now(), OnData(sub, messages[n]));
        Signal(OnData(sub, messages[n]));
        if aborted {
          StaysAborted(was, sub, messages, n + 1, |messages|);
          return;
        }
      }
    }

    lemma RestingSignals(v: View, e: Event)
      requires Valid(v) && v.settling.None? && e.OnData?
      ensures var s := Signalled(v, e, react); Valid(s.view) && s.view.settling.None?
    {
      SignallingKeepsValid(v, e, react);
    }

    lemma {:induction false} StaysAborted(v: View, sub: Sub, messages: seq<Message>, n: nat, k: nat)
      requires n <= k <= |messages| && Heard(v, sub, messages, n, react).aborted
      ensures Heard(v, sub, messages, k, react) == Heard(v, sub, messages, n, react)
    {
      if n < k {
        StaysAborted(v, sub, messages, n, k - 1);
      }
    }

    method ProcessError(channel: string)
      requires Alive() && settling.None?
      modifies this, subscriptions
      ensures subscriptions.Valid() && Standing() == Processed(old(Now()), SubscriptionError(channel), react)
    {
      hide Valid, SubscriptionsMap.Valid, SearchChannel;
      var found := subscriptions.FindByChannel(channel);
      if found.None? {
        aborted := true;
        return;
      }
      Signal(OnSubscriptionError(found.value.sub));
    }

    /** The channel is read before the record goes; the source reads it afterwards. */
    method ProcessConfirmation(pdu: Pdu)
      requires Alive() && settling.None? && pdu.Confirmation?
      modifies this, subscriptions
      ensures subscriptions.Valid() && Standing() == Confirmed(old(Now()), pdu, react)
    {
      hide Valid, SubscriptionsMap.Valid, SearchChannel, WithoutChannel;
      if pdu.id !in sent {
        aborted := true;
        return;
      }
      var channel := sent[pdu.id].channel;
      Tell(pdu.id, OutcomeOf(pdu));
      if aborted {
        return;
      }
      Erase(pdu.id);
      if Deletes(pdu) {
        var found := subscriptions.DeleteByChannel(channel);
        aborted := !found;
      }
    }

    method OnPingTimer()
      requires Alive()
      modifies this
      ensures subscriptions.Valid() && Standing() == Occurred(old(Now()), PingTimer, react)
    {
      hide SubscriptionsMap.Valid;
      var id := nextId;
      nextId := nextId + 1;
      Enqueue(Ping(id), false);
    }

    method OnReadFailed(status: Status)
      requires Alive() && settling.None?
      modifies this, subscriptions
      ensures subscriptions.Valid() && Standing() == FailedToRead(old(Now()), status, react)
    {
      hide Valid;
      if status == OperationAborted {
        if state != PendingStopped {
          aborted := true;
          return;
        }
        state := Stopped;
        subscriptions.Clear();
      } else if status == Failure && state == Running {
        Signal(CommonError);
      }
    }

    // ----- whole runs

    method Handle(o: Occurrence)
      requires Alive() && settling.None? && Possible(Now(), o)
      modifies this, subscriptions
      ensures subscriptions.Valid() && Standing() == Occurred(old(Now()), o, react)
    {
      match o {
        case Api(call) => Perform(call);
        case PingTimer => OnPingTimer();
        case RequestDone(status) => OnRequestDone(status);
        case Incoming(pdu) => ProcessInput(pdu);
        case ReadFailed(status) => OnReadFailed(status);
      }
    }

    /** Every run, up to the first failing CHECK, is the reference's; an impossible occurrence does not occur. */
    method Run(occurrences: seq<Occurrence>)
      requires Now() == FRESH && subscriptions.Valid() && !aborted
      modifies this, subscriptions
      ensures Standing() == AllOccurred(FRESH, occurrences, react)
      ensures FinishedIn(log) <= StartedIn(log) <= SubmittedIn(log)
      ensures |StartedIn(log)| == |FinishedIn(log)| + (if inFlight then 1 else 0)
      ensures !inFlight ==> FinishedIn(log) == SubmittedIn(log)
      ensures sent.Keys == IssuedIn(log) - ErasedIn(log)
      ensures forall id :: TimesTold(log, id) <= 1 && TimesErased(log, id) <= 1
      ensures forall id :: id in ErasedIn(log) && id in WithCallbacks(log) ==> TimesTold(log, id) == 1
    {
      hide Resting, Occurred, SubscriptionsMap.Valid, SubmittedIn, StartedIn, FinishedIn, IssuedIn, ErasedIn,
          WithCallbacks, TimesTold, TimesErased;
      FreshIsResting();
      EveryRun(occurrences, react);
      for i := 0 to |occurrences|
        invariant Resting(Now()) && subscriptions.Valid() && !aborted
        invariant AllOccurred(Now(), occurrences[i..], react) == AllOccurred(FRESH, occurrences, react)
      {
        assert occurrences[i..][0] == occurrences[i] && occurrences[i..][1..] == occurrences[i + 1..];
        if CanOccur(occurrences[i]) {
          ghost var before := Now();
          OccurrenceKeepsValid(before, occurrences[i], react);
          RestingIsAlive();
          Handle(occurrences[i]);
          if aborted {
            return;
          }
        }
      }
    }

    lemma RestingIsAlive()
      requires Resting(Now()) && subscriptions.Valid() && !aborted
      ensures Alive() && settling.None?
    {
    }

    predicate CanOccur(o: Occurrence)
      reads this, subscriptions
      ensures CanOccur(o) == Possible(Now(), o)
    {
      match o
      case RequestDone(_) => inFlight && pending != [] && HasRecord(pending[0], sent)
      case Incoming(pdu) => pdu.Confirmation? ==> Unqueued(pdu.id, pending)
      case _ => true
    }
  }
}
