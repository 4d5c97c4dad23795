/** What an RTM client does over time, and the protocol its log must follow. */
module RtmLogs {
  import opened Histories
  import opened Subscriptions

  datatype Kind = Publishing | Subscribing | Unsubscribing

  /** One operation on the websocket. A write carries its request's id, action and channel. */
  datatype Request =
    | Write(id: nat, kind: Kind, channel: string)
    | Ping(id: nat)

  /** The text of a message. */
  type Message = string

  datatype Outcome = Ok | Error(kind: Kind)

  datatype Event =
    | Submitted(request: Request, callbacks: bool)
    | Started(request: Request)
    | Finished(request: Request)
    | Told(id: nat, outcome: Outcome)
    | Erased(id: nat)
    | OnData(sub: Sub, message: Message)
    | OnSubscriptionError(sub: Sub)
    | CommonError

  type Log = History<Event>

  function SubmittedIn(log: Log): seq<Request>
  {
    if log.Start? then []
    else if log.event.Submitted? then SubmittedIn(log.before) + [log.event.request]
    else SubmittedIn(log.before)
  }

  function StartedIn(log: Log): seq<Request>
  {
    if log.Start? then []
    else if log.event.Started? then StartedIn(log.before) + [log.event.request]
    else StartedIn(log.before)
  }

  function FinishedIn(log: Log): seq<Request>
  {
    if log.Start? then []
    else if log.event.Finished? then FinishedIn(log.before) + [log.event.request]
    else FinishedIn(log.before)
  }

  /** Every id given out, to requests and to pings. */
  function UsedIn(log: Log): set<nat>
  {
    if log.Start? then {}
    else if log.event.Submitted? then UsedIn(log.before) + {log.event.request.id}
    else UsedIn(log.before)
  }

  /** The requests, which wait for a confirmation; pings do not. */
  function IssuedIn(log: Log): set<nat>
  {
    if log.Start? then {}
    else if log.event.Submitted? && log.event.request.Write? then IssuedIn(log.before) + {log.event.request.id}
    else IssuedIn(log.before)
  }

  function WithCallbacks(log: Log): set<nat>
  {
    if log.Start? then {}
    else if log.event.Submitted? && log.event.request.Write? && log.event.callbacks
    then WithCallbacks(log.before) + {log.event.request.id}
    else WithCallbacks(log.before)
  }

  function ErasedIn(log: Log): set<nat>
  {
    if log.Start? then {}
    else if log.event.Erased? then ErasedIn(log.before) + {log.event.id}
    else ErasedIn(log.before)
  }

  function ToldIn(log: Log): set<nat>
  {
    if log.Start? then {}
    else if log.event.Told? then ToldIn(log.before) + {log.event.id}
    else ToldIn(log.before)
  }

  /** How often a request's callbacks heard `ok` or an error. */
  function TimesTold(log: Log, id: nat): nat
  {
    if log.Start? then 0
    else TimesTold(log.before, id) + if log.event.Told? && log.event.id == id then 1 else 0
  }

  function TimesErased(log: Log, id: nat): nat
  {
    if log.Start? then 0
    else TimesErased(log.before, id) + if log.event.Erased? && log.event.id == id then 1 else 0
  }

  /** May `event` follow `log`? */
  predicate Allowed(log: Log, event: Event)
  {
    match event
    case Submitted(r, _) => r.id !in UsedIn(log)
    case Started(r) =>
      |StartedIn(log)| == |FinishedIn(log)| < |SubmittedIn(log)| && r == SubmittedIn(log)[|FinishedIn(log)|]
    case Finished(r) => |FinishedIn(log)| < |StartedIn(log)| && r == StartedIn(log)[|FinishedIn(log)|]
    case Told(id, _) => id in WithCallbacks(log) && id !in ToldIn(log) && id !in ErasedIn(log)
    case Erased(id) => id in IssuedIn(log) && id !in ErasedIn(log) && (id in WithCallbacks(log) ==> id in ToldIn(log))
    case OnData(_, _) => true
    case OnSubscriptionError(_) => true
    case CommonError => true
  }

  ghost predicate Lawful(log: Log)
  {
    log.After? ==> Lawful(log.before) && Allowed(log.before, log.event)
  }

  /** Operations reach the wire in the order of submission, and the next one only when the last is over. */
  lemma {:induction false} WireIsFifo(log: Log)
    requires Lawful(log)
    ensures FinishedIn(log) <= StartedIn(log) <= SubmittedIn(log)
    ensures |StartedIn(log)| <= |FinishedIn(log)| + 1
  {
    if log.After? {
      WireIsFifo(log.before);
    }
  }

  /** A request is told at most once, by one outcome, and its record is dropped at most once and not before that. */
  lemma {:induction false} SettledAtMostOnce(log: Log, id: nat)
    requires Lawful(log)
    ensures TimesTold(log, id) == if id in ToldIn(log) then 1 else 0
    ensures TimesErased(log, id) == if id in ErasedIn(log) then 1 else 0
    ensures id in ErasedIn(log) && id in WithCallbacks(log) ==> TimesTold(log, id) == 1
    ensures id in ErasedIn(log) || id in ToldIn(log) ==> id in IssuedIn(log)
  {
    if log.After? {
      SettledAtMostOnce(log.before, id);
      CallbacksAreIssued(log.before);
      FreshIdsAreUnsettled(log.before);
    }
  }

  lemma {:induction false} CallbacksAreIssued(log: Log)
    ensures WithCallbacks(log) <= IssuedIn(log) <= UsedIn(log)
  {
    if log.After? {
      CallbacksAreIssued(log.before);
    }
  }

  lemma {:induction false} FreshIdsAreUnsettled(log: Log)
    requires Lawful(log)
    ensures ToldIn(log) <= UsedIn(log) && ErasedIn(log) <= UsedIn(log)
  {
    if log.After? {
      FreshIdsAreUnsettled(log.before);
      CallbacksAreIssued(log.before);
    }
  }

  /** No id is given out twice. */
  lemma {:induction false} IdsAreDistinct(log: Log)
    requires Lawful(log)
    ensures forall r :: r in SubmittedIn(log) ==> r.id in UsedIn(log)
    ensures forall i, j :: 0 <= i < j < |SubmittedIn(log)| ==> SubmittedIn(log)[i].id != SubmittedIn(log)[j].id
  {
    if log.After? {
      IdsAreDistinct(log.before);
    }
  }

  /** `log` after one more submission, which starts at once when nothing is in flight. */
  function Submitting(log: Log, r: Request, callbacks: bool, starts: bool): Log
  {
    if starts then After(After(log, Submitted(r, callbacks)), Started(r)) else After(log, Submitted(r, callbacks))
  }

  lemma SubmittingTellsNobody(log: Log, r: Request, callbacks: bool, starts: bool)
    ensures var next := Submitting(log, r, callbacks, starts);
      && UsedIn(next) == UsedIn(log) + {r.id}
      && IssuedIn(next) == IssuedIn(log) + (if r.Write? then {r.id} else {})
      && WithCallbacks(next) == WithCallbacks(log) + (if r.Write? && callbacks then {r.id} else {})
      && ErasedIn(next) == ErasedIn(log) && ToldIn(next) == ToldIn(log)
      && Signals(next) == Signals(log)
      && Continues(log, next)
  {
    var l1 := After(log, Submitted(r, callbacks));
    assert Continues(log, l1);
    assert UsedIn(l1) == UsedIn(log) + {r.id} && ErasedIn(l1) == ErasedIn(log) && ToldIn(l1) == ToldIn(log);
    assert IssuedIn(l1) == IssuedIn(log) + (if r.Write? then {r.id} else {});
    assert Signals(l1) == Signals(log);
  }

  /** The log without submissions and starts, which user code adds to whenever it is called. */
  function Signals(log: Log): Log
  {
    if log.Start? then Start
    else if log.event.Submitted? || log.event.Started? then Signals(log.before)
    else After(Signals(log.before), log.event)
  }

  lemma OneMoreSignal(log: Log, e: Event)
    requires !e.Submitted? && !e.Started?
    ensures var next := After(log, e);
      && SubmittedIn(next) == SubmittedIn(log) && StartedIn(next) == StartedIn(log)
      && FinishedIn(next) == FinishedIn(log) + (if e.Finished? then [e.request] else [])
      && UsedIn(next) == UsedIn(log) && IssuedIn(next) == IssuedIn(log) && WithCallbacks(next) == WithCallbacks(log)
      && ErasedIn(next) == ErasedIn(log) + (if e.Erased? then {e.id} else {})
      && ToldIn(next) == ToldIn(log) + (if e.Told? then {e.id} else {})
      && Signals(next) == After(Signals(log), e)
      && (Lawful(log) && Allowed(log, e) ==> Lawful(next))
  {
  }

  lemma OneMoreStart(log: Log, r: Request)
    ensures var next := After(log, Started(r));
      && SubmittedIn(next) == SubmittedIn(log) && StartedIn(next) == StartedIn(log) + [r]
        && FinishedIn(next) == FinishedIn(log)
      && UsedIn(next) == UsedIn(log) && IssuedIn(next) == IssuedIn(log) && WithCallbacks(next) == WithCallbacks(log)
      && ErasedIn(next) == ErasedIn(log) && ToldIn(next) == ToldIn(log)
      && Signals(next) == Signals(log)
      && (Lawful(log) && Allowed(log, Started(r)) ==> Lawful(next))
  {
  }

  lemma {:induction false} SignalsTellTheRest(log: Log)
    ensures FinishedIn(Signals(log)) == FinishedIn(log)
    ensures ErasedIn(Signals(log)) == ErasedIn(log)
    ensures ToldIn(Signals(log)) == ToldIn(log)
  {
    if log.After? {
      SignalsTellTheRest(log.before);
    }
  }

  /** What settling one request adds. */
  function Settling(log: Log, id: nat, outcome: Outcome, callbacks: bool): Log
  {
    After(if callbacks then After(log, Told(id, outcome)) else log, Erased(id))
  }
}
