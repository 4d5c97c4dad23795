/** What every call and every event of the RTM client keeps. */
module RtmInvariants {
  import opened Wrappers
  import opened Histories
  import opened Subscriptions
  import opened RtmLogs
  import opened RtmReference

  /** The queue holds what is submitted and not finished; in flight means started and not finished. */
  ghost predicate Queue(v: View)
  {
    && |FinishedIn(v.log)| <= |SubmittedIn(v.log)|
    && v.pending == SubmittedIn(v.log)[|FinishedIn(v.log)|..]
    && |StartedIn(v.log)| == |FinishedIn(v.log)| + (if v.inFlight then 1 else 0)
    && (v.inFlight ==> v.pending != [] && StartedIn(v.log)[|FinishedIn(v.log)|] == v.pending[0])
  }

  /** The table holds exactly the issued and unsettled requests. */
  ghost predicate Table(v: View)
  {
    && v.sent.Keys == IssuedIn(v.log) - ErasedIn(v.log)
    && (forall id :: id in v.sent ==> (v.sent[id].callbacks <==> id in WithCallbacks(v.log)))
    && (forall id :: id in v.sent && id in ToldIn(v.log) ==> v.settling == Some(id))
    && (v.settling.Some? ==> v.settling.value in v.sent)
    && (forall id :: id in UsedIn(v.log) ==> id < v.nextId)
  }

  /** Every queued write, from the given place on, has its own record. */
  ghost predicate Backed(first: nat, pending: seq<Request>, sent: map<nat, Info>, nextId: nat)
  {
    && (forall k :: first <= k < |pending| ==> HasRecord(pending[k], sent))
    && (forall k :: 0 <= k < |pending| ==> pending[k].id < nextId)
    && (forall i, j :: 0 <= i < j < |pending| ==> pending[i].id != pending[j].id)
  }

  /** While a completed write is being handled, its record may be gone before it leaves the queue. */
  ghost predicate Accounts(v: View, first: nat)
  {
    Lawful(v.log) && Queue(v) && Table(v) && Backed(first, v.pending, v.sent, v.nextId) && Distinct(v.infos)
  }

  ghost predicate Valid(v: View)
  {
    Accounts(v, 0) && (!v.inFlight ==> v.pending == [])
  }

  /** Between two events. */
  ghost predicate Resting(v: View)
  {
    Valid(v) && v.settling.None?
  }

  /** What user code may do while it is called: add requests and subscriptions, start and stop; and nothing else. */
  ghost predicate Grew(was: View, now: View)
  {
    && Continues(was.log, now.log) && Signals(now.log) == Signals(was.log)
    && now.settling == was.settling && was.nextId <= now.nextId
    && (was.inFlight ==> now.inFlight) && was.infos <= now.infos
    && was.pending <= now.pending
    && (forall k :: |was.pending| <= k < |now.pending| ==> was.nextId <= now.pending[k].id)
    && (forall id :: id in was.sent ==> id in now.sent && now.sent[id] == was.sent[id])
    && (forall id :: id in now.sent && id !in was.sent ==> was.nextId <= id)
  }

  lemma GrewTwice(v0: View, v1: View, v2: View)
    requires Grew(v0, v1) && Grew(v1, v2)
    ensures Grew(v0, v2)
  {
    ContinuesTransitive(v0.log, v1.log, v2.log);
    forall k | |v0.pending| <= k < |v2.pending| ensures v0.nextId <= v2.pending[k].id {
      if k < |v1.pending| {
        assert v2.pending[k] == v1.pending[k];
      }
    }
  }

  lemma OnlyMore(was: View, now: View)
    requires Grew(was, now)
    ensures Signals(now.log) == Signals(was.log) && was.infos <= now.infos && now.settling == was.settling
    ensures was.inFlight ==> now.inFlight
    ensures was.pending <= now.pending
    ensures forall id :: id in was.sent ==> id in now.sent && now.sent[id] == was.sent[id]
  {
  }

  lemma StaysUnqueued(was: View, now: View, id: nat)
    requires Grew(was, now) && id < was.nextId && Unqueued(id, was.pending)
    ensures Unqueued(id, now.pending)
  {
    forall k | 0 <= k < |now.pending| && now.pending[k].Write? ensures now.pending[k].id != id {
      assert k < |was.pending| ==> now.pending[k] == was.pending[k];
    }
  }

  lemma StandingStillGrows(v: View)
    ensures Grew(v, v)
  {
    assert Continues(v.log, v.log);
  }

  // ----- submissions

  lemma OneMoreIsBacked(first: nat, pending: seq<Request>, sent: map<nat, Info>, r: Request, info: Info)
    requires Backed(first, pending, sent, r.id) && r == Write(r.id, info.kind, info.channel)
    ensures Backed(first, pending + [r], sent[r.id := info], r.id + 1)
  {
    forall k | first <= k < |pending + [r]| ensures HasRecord((pending + [r])[k], sent[r.id := info]) {
      assert k < |pending| ==> HasRecord(pending[k], sent) && pending[k].id < r.id;
    }
  }

  lemma EnqueuingKeepsQueue(v: View, r: Request, callbacks: bool)
    requires Lawful(v.log) && Queue(v) && (!v.inFlight ==> v.pending == []) && r.id !in UsedIn(v.log)
    ensures var w := Enqueued(v, r, callbacks); Lawful(w.log) && Queue(w)
  {
    var l := After(v.log, Submitted(r, callbacks));
    assert SubmittedIn(l) == SubmittedIn(v.log) + [r] && StartedIn(l) == StartedIn(v.log)
      && FinishedIn(l) == FinishedIn(v.log);
    if !v.inFlight {
      OneMoreStart(l, r);
    }
  }

  lemma IssuingKeepsValid(v: View, kind: Kind, channel: string, callbacks: bool)
    requires Valid(v)
    ensures v.nextId !in v.sent
    ensures var w := Issued(v, kind, channel, callbacks); Valid(w) && Grew(v, w)
  {
    hide Lawful, UsedIn, IssuedIn, ErasedIn, ToldIn, WithCallbacks, SubmittedIn, StartedIn, FinishedIn, Submitting,
        Backed, Queue;
    var id := v.nextId;
    var r := Write(id, kind, channel);
    CallbacksAreIssued(v.log);
    FreshIdsAreUnsettled(v.log);
    OneMoreIsBacked(0, v.pending, v.sent, r, Info(kind, channel, callbacks));
    SubmittingTellsNobody(v.log, r, callbacks, !v.inFlight);
    EnqueuingKeepsQueue(v, r, callbacks);
    QueueIgnores(Enqueued(v, r, callbacks), Issued(v, kind, channel, callbacks));
  }

  lemma QueueIgnores(v: View, w: View)
    requires Queue(v) && w.log == v.log && w.pending == v.pending && w.inFlight == v.inFlight
    ensures Queue(w)
  {
  }

  lemma {:induction false} PingingGrows(v: View)
    requires Valid(v)
    ensures Grew(v, Enqueued(v.(nextId := v.nextId + 1), Ping(v.nextId), false))
  {
    hide Lawful, UsedIn, IssuedIn, ErasedIn, ToldIn, WithCallbacks, SubmittedIn, StartedIn, FinishedIn, Submitting,
        Queue;
    SubmittingTellsNobody(v.log, Ping(v.nextId), false, !v.inFlight);
  }

  lemma {:induction false} PingingKeepsValid(v: View)
    requires Valid(v)
    ensures Valid(Enqueued(v.(nextId := v.nextId + 1), Ping(v.nextId), false))
  {
    hide Lawful, UsedIn, IssuedIn, ErasedIn, ToldIn, WithCallbacks, SubmittedIn, StartedIn, FinishedIn, Submitting,
        Queue;
    var r := Ping(v.nextId);
    SubmittingTellsNobody(v.log, r, false, !v.inFlight);
    EnqueuingKeepsQueue(v, r, false);
    QueueIgnores(Enqueued(v, r, false), Enqueued(v.(nextId := v.nextId + 1), r, false));
  }

  lemma {:induction false} MakingKeepsValid(v: View, call: Call)
    requires Valid(v) && !Refused(v, call)
    ensures Valid(Made(v, call)) && Grew(v, Made(v, call))
  {
    StandingStillGrows(v);
    match call
    case Start(_) =>
    case Stop =>
    case Publish(channel, callbacks) =>
      IssuingKeepsValid(v, Publishing, channel, callbacks);
    case Subscribe(channel, sub, callbacks) =>
      var w := v.(infos := v.infos + [Details(channel, sub)]);
      if v.state == Running {
        IndexingKeepsValid(v, channel, sub);
        IssuingKeepsValid(w, Subscribing, channel, callbacks);
        GrewTwice(v, w, Made(v, call));
      }
    case Unsubscribe(sub, callbacks) =>
      if v.state == Running {
        IssuingKeepsValid(v, Unsubscribing, SearchSub(v.infos, sub).value.channel, callbacks);
      }
  }

  lemma IndexingKeepsValid(v: View, channel: string, sub: Sub)
    requires Valid(v) && !InUse(v.infos, channel, sub)
    ensures var w := v.(infos := v.infos + [Details(channel, sub)]); Valid(w) && Grew(v, w)
  {
    hide Lawful;
    StandingStillGrows(v);
    assert forall i :: 0 <= i < |v.infos| ==> v.infos[i] in v.infos;
  }

  /** Whatever user code calls, and wherever it is stopped. */
  lemma {:induction false} CallsKeepValid(v: View, calls: seq<Call>)
    requires Valid(v)
    ensures var s := AllMade(v, calls); Valid(s.view) && Grew(v, s.view)
    decreases |calls|
  {
    StandingStillGrows(v);
    if calls != [] && !Refused(v, calls[0]) {
      var w := Made(v, calls[0]);
      MakingKeepsValid(v, calls[0]);
      CallsKeepValid(w, calls[1..]);
      GrewTwice(v, w, AllMade(w, calls[1..]).view);
    }
  }

  /** A callback that is no settlement: the log grows by it, then by what user code does. */
  lemma SignallingKeepsValid(v: View, e: Event, react: UserCode)
    requires Resting(v) && (e.OnData? || e.OnSubscriptionError? || e.CommonError?)
    ensures var s := Signalled(v, e, react);
      && Resting(s.view) && Signals(s.view.log) == After(Signals(v.log), e)
      && Grew(v.(log := After(v.log, e)), s.view)
  {
    hide Lawful, UsedIn, IssuedIn, ErasedIn, ToldIn, WithCallbacks, SubmittedIn, StartedIn, FinishedIn, Signals,
        Continues, Distinct, Grew;
    OneMoreSignal(v.log, e);
    var w := v.(log := After(v.log, e));
    CallsKeepValid(w, react(w.log));
    OnlyMore(w, AllMade(w, react(w.log)).view);
  }

  // ----- settling a request

  lemma TellingKeepsValid(v: View, id: nat, outcome: Outcome, react: UserCode)
    requires Resting(v) && id in v.sent
    ensures var s := Telling(v, id, outcome, react);
      && Valid(s.view) && s.view.settling == Some(id)
      && Grew(v.(settling := Some(id), log := if v.sent[id].callbacks then After(v.log, Told(id, outcome)) else v.log),
              s.view)
      && (v.sent[id].callbacks ==> id in ToldIn(s.view.log))
      && Signals(s.view.log) == if v.sent[id].callbacks then After(Signals(v.log), Told(id, outcome))
        else Signals(v.log)
  {
    hide Lawful, UsedIn, IssuedIn, ErasedIn, ToldIn, WithCallbacks, SubmittedIn, StartedIn, FinishedIn, Signals,
        Continues, Distinct, Grew;
    var w := v.(settling := Some(id));
    if v.sent[id].callbacks {
      CallbacksAreIssued(v.log);
      OneMoreSignal(v.log, Told(id, outcome));
      var told := w.(log := After(v.log, Told(id, outcome)));
      CallsKeepValid(told, react(told.log));
      OnlyMore(told, AllMade(told, react(told.log)).view);
      SignalsTellTheRest(told.log);
      SignalsTellTheRest(AllMade(told, react(told.log)).view.log);
    } else {
      StandingStillGrows(w);
    }
  }

  lemma ErasingKeepsAccounts(v: View, id: nat, first: nat)
    requires Valid(v) && v.settling == Some(id) && (v.sent[id].callbacks ==> id in ToldIn(v.log))
    requires forall k :: first <= k < |v.pending| && v.pending[k].Write? ==> v.pending[k].id != id
    ensures var w := Erasing(v, id);
      Accounts(w, first) && w.settling.None? && Signals(w.log) == After(Signals(v.log), Erased(id))
  {
    hide Lawful, UsedIn, IssuedIn, ErasedIn, ToldIn, WithCallbacks, SubmittedIn, StartedIn, FinishedIn, Signals,
        Continues, Distinct;
    CallbacksAreIssued(v.log);
    OneMoreSignal(v.log, Erased(id));
  }

  /** What settling one request makes heard, besides what user code does meanwhile. */
  lemma SettlingKeepsValid(v: View, id: nat, outcome: Outcome, react: UserCode)
    requires Resting(v) && id in v.sent && Unqueued(id, v.pending)
    ensures var s := Settled(v, id, outcome, react);
      && Valid(s.view) && v.infos <= s.view.infos
      && (!s.aborted ==>
            && Resting(s.view) && id !in s.view.sent
            && Signals(s.view.log) == Settling(Signals(v.log), id, outcome, v.sent[id].callbacks))
  {
    hide Lawful, UsedIn, IssuedIn, ErasedIn, ToldIn, WithCallbacks, SubmittedIn, StartedIn, FinishedIn, Signals,
        Continues, Distinct, Grew, Valid;
    var log := if v.sent[id].callbacks then After(v.log, Told(id, outcome)) else v.log;
    var told := v.(settling := Some(id), log := log);
    var t := Telling(v, id, outcome, react);
    TellingKeepsValid(v, id, outcome, react);
    IdsAreUsed(v, id);
    StaysUnqueued(told, t.view, id);
    OnlyMore(told, t.view);
    if !t.aborted {
      ErasingKeepsAccounts(t.view, id, 0);
      ErasedIsValid(t.view, id);
    }
  }

  lemma IdsAreUsed(v: View, id: nat)
    requires Valid(v) && id in v.sent
    ensures id < v.nextId
  {
    CallbacksAreIssued(v.log);
  }

  lemma ErasedIsValid(v: View, id: nat)
    requires Valid(v) && Accounts(Erasing(v, id), 0)
    ensures Valid(Erasing(v, id))
  {
  }

  // ----- completions

  lemma PoppingKeepsValid(v: View)
    requires Accounts(v, 1) && v.inFlight && v.pending != []
    ensures var w := Popped(v);
      && Valid(w) && w.pending == v.pending[1..] && w.settling == v.settling
      && Signals(w.log) == After(Signals(v.log), Finished(v.pending[0]))
  {
    hide Lawful, UsedIn, IssuedIn, ErasedIn, ToldIn, WithCallbacks, SubmittedIn, StartedIn, FinishedIn, Signals,
        Continues, Distinct;
    var log := After(v.log, Finished(v.pending[0]));
    OneMoreSignal(v.log, Finished(v.pending[0]));
    if v.pending[1..] != [] {
      OneMoreStart(log, v.pending[1..][0]);
    }
  }

  /** What the done callback of an operation makes heard. */
  function DoneSignals(signals: Log, r: Request, sent: map<nat, Info>, status: Status, state: ClientState): Log
    requires HasRecord(r, sent)
  {
    match r
    case Write(id, kind, _) => if status == Success then signals
      else Settling(signals, id, Error(kind), sent[id].callbacks)
    case Ping(_) => if status == Failure && state == Running then After(signals, CommonError) else signals
  }

  lemma HandlingKeepsAccounts(v: View, status: Status, react: UserCode)
    requires Resting(v) && v.inFlight && v.pending != [] && HasRecord(v.pending[0], v.sent)
    ensures var s := Handled(v, status, react);
      && v.pending <= s.view.pending
      && (if s.aborted then Valid(s.view)
          else && Accounts(s.view, 1) && s.view.inFlight && s.view.settling.None?
               && Signals(s.view.log) == DoneSignals(Signals(v.log), v.pending[0], v.sent, status, v.state)
               && (v.pending[0].Write? && status != Success ==> v.pending[0].id !in s.view.sent))
  {
    hide Lawful, UsedIn, IssuedIn, ErasedIn, ToldIn, WithCallbacks, SubmittedIn, StartedIn, FinishedIn, Signals,
        Continues, Distinct, Grew;
    match v.pending[0]
    case Ping(_) =>
      if status == Failure && v.state == Running {
        SignallingKeepsValid(v, CommonError, react);
        OnlyMore(v.(log := After(v.log, CommonError)), Signalled(v, CommonError, react).view);
      }
    case Write(id, kind, _) =>
      if status != Success {
        FailedWriteIsSettled(v, id, kind, react);
      }
  }

  lemma FailedWriteIsSettled(v: View, id: nat, kind: Kind, react: UserCode)
    requires Resting(v) && v.inFlight && v.pending != [] && v.pending[0].Write? && v.pending[0].id == id && id in v.sent
    ensures var s := Settled(v, id, Error(kind), react);
      && v.pending <= s.view.pending
      && (if s.aborted then Valid(s.view)
          else && Accounts(s.view, 1) && s.view.inFlight && s.view.settling.None?
               && Signals(s.view.log) == Settling(Signals(v.log), id, Error(kind), v.sent[id].callbacks)
               && id !in s.view.sent)
  {
    hide Lawful, UsedIn, IssuedIn, ErasedIn, ToldIn, WithCallbacks, SubmittedIn, StartedIn, FinishedIn, Signals,
        Continues, Distinct, Grew;
    var log := if v.sent[id].callbacks then After(v.log, Told(id, Error(kind))) else v.log;
    var told := v.(settling := Some(id), log := log);
    var t := Telling(v, id, Error(kind), react);
    TellingKeepsValid(v, id, Error(kind), react);
    OnlyMore(told, t.view);
    if !t.aborted {
      assert forall k :: 1 <= k < |t.view.pending| ==> t.view.pending[0].id != t.view.pending[k].id;
      ErasingKeepsAccounts(t.view, id, 1);
    }
  }

  /** A completion is heard as it should, the operation leaves the queue, and the next one starts. */
  lemma CompletingKeepsValid(v: View, status: Status, react: UserCode)
    requires Resting(v) && v.inFlight && v.pending != [] && HasRecord(v.pending[0], v.sent)
    ensures var s := Completed(v, status, react); var front := v.pending[0];
      && Valid(s.view)
      && (!s.aborted ==>
            && Resting(s.view)
            && Signals(s.view.log) == After(DoneSignals(Signals(v.log), front, v.sent, status, v.state),
                                            Finished(front))
            && v.pending[1..] <= s.view.pending && (s.view.inFlight <==> s.view.pending != [])
            && (front.Write? && status != Success ==> front.id !in s.view.sent))
  {
    hide Lawful, UsedIn, IssuedIn, ErasedIn, ToldIn, WithCallbacks, SubmittedIn, StartedIn, FinishedIn, Signals,
        Continues, Distinct, Grew, DoneSignals, Backed, Table;
    HandlingKeepsAccounts(v, status, react);
    var h := Handled(v, status, react);
    if !h.aborted {
      PoppingKeepsValid(h.view);
    }
  }
}
