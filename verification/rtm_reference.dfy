/** What the RTM client does, call by call and event by event, as a function of its state. */
module RtmReference {
  import opened Wrappers
  import opened Histories
  import opened Subscriptions
  import opened RtmLogs

  datatype ClientState = Stopped | Running | PendingStopped

  datatype Info = Info(kind: Kind, channel: string, callbacks: bool)

  /** What user code asks of the client, from outside or from one of its callbacks. */
  datatype Call =
    | Publish(channel: string, callbacks: bool)
    | Subscribe(channel: string, sub: Sub, callbacks: bool)
    | Unsubscribe(sub: Sub, callbacks: bool)
    | Start(connected: bool)
    | Stop

  /** An incoming PDU. Malformed stands for all those that fail a CHECK by their own shape. */
  datatype Pdu =
    | Data(channel: string, messages: seq<Message>)
    | SubscriptionError(channel: string)
    | Confirmation(kind: Kind, ok: bool, id: nat)
    | Malformed

  datatype Status = Success | OperationAborted | Failure

  /** What happens: the first is the user's, the others are the event loop's. */
  datatype Occurrence =
    | Api(call: Call)
    | PingTimer
    | RequestDone(status: Status)
    | Incoming(pdu: Pdu)
    | ReadFailed(status: Status)

  /** The client, with the request whose callback is on the stack and the subscriptions as a list. */
  datatype View = View(
    log: Log, state: ClientState, settling: Option<nat>, nextId: nat,
    sent: map<nat, Info>, pending: seq<Request>, inFlight: bool, infos: seq<Details>)

  /** Where something leads; a failed CHECK ends the run there. */
  datatype Step = Step(view: View, aborted: bool)

  /** The user code behind all callbacks: what it calls when the log stands so. */
  type UserCode = Log -> seq<Call>

  const FRESH := View(History.Start, Stopped, None, 1, map[], [], false, [])

  // ----- calls

  predicate InUse(infos: seq<Details>, channel: string, sub: Sub)
  {
    SearchChannel(infos, channel).Some? || SearchSub(infos, sub).Some?
  }

  /** The calls that fail a CHECK. */
  predicate Refused(v: View, call: Call)
  {
    match call
    case Start(_) => v.state != Stopped
    case Stop => v.state != Running
    case Publish(_, _) => v.state == Stopped
    case Subscribe(channel, sub, _) => v.state == Stopped || (v.state == Running && InUse(v.infos, channel, sub))
    case Unsubscribe(sub, _) => v.state == Stopped || (v.state == Running && SearchSub(v.infos, sub).None?)
  }

  /** write() and ping(): to the end of the queue, and at once to the wire if that is free. */
  function Enqueued(v: View, r: Request, callbacks: bool): View
  {
    v.(pending := v.pending + [r], inFlight := true, log := Submitting(v.log, r, callbacks, !v.inFlight))
  }

  /** One more request: a record under a new id, and its write. */
  function Issued(v: View, kind: Kind, channel: string, callbacks: bool): View
  {
    Enqueued(v.(nextId := v.nextId + 1, sent := v.sent[v.nextId := Info(kind, channel, callbacks)]),
             Write(v.nextId, kind, channel), callbacks)
  }

  function Made(v: View, call: Call): View
    requires !Refused(v, call)
  {
    match call
    case Start(connected) => if connected then v.(state := Running) else v
    case Stop => v.(state := PendingStopped)
    case Publish(channel, callbacks) =>
      if v.state == PendingStopped then v else Issued(v, Publishing, channel, callbacks)
    case Subscribe(channel, sub, callbacks) =>
      if v.state == PendingStopped then v
      else Issued(v.(infos := v.infos + [Details(channel, sub)]), Subscribing, channel, callbacks)
    case Unsubscribe(sub, callbacks) =>
      if v.state == PendingStopped then v
      else Issued(v, Unsubscribing, SearchSub(v.infos, sub).value.channel, callbacks)
  }

  function AllMade(v: View, calls: seq<Call>): Step
    decreases |calls|
  {
    if calls == [] then Step(v, false)
    else if Refused(v, calls[0]) then Step(v, true)
    else AllMade(Made(v, calls[0]), calls[1..])
  }

  /** A callback has been logged: user code runs. */
  function Reacted(v: View, react: UserCode): Step
  {
    AllMade(v, react(v.log))
  }

  function Signalled(v: View, e: Event, react: UserCode): Step
  {
    Reacted(v.(log := After(v.log, e)), react)
  }

  // ----- settling a request

  /** Its own callbacks, if it has any, hear the outcome. */
  function Telling(v: View, id: nat, outcome: Outcome, react: UserCode): Step
    requires id in v.sent
  {
    var w := v.(settling := Some(id));
    if v.sent[id].callbacks then Signalled(w, Told(id, outcome), react) else Step(w, false)
  }

  function Erasing(v: View, id: nat): View
  {
    v.(sent := v.sent - {id}, log := After(v.log, Erased(id)), settling := None)
  }

  function Settled(v: View, id: nat, outcome: Outcome, react: UserCode): Step
    requires id in v.sent
  {
    var t := Telling(v, id, outcome, react);
    if t.aborted then t else Step(Erasing(t.view, id), false)
  }

  // ----- events

  predicate HasRecord(r: Request, sent: map<nat, Info>)
  {
    r.Write? ==> r.id in sent && sent[r.id].kind == r.kind && sent[r.id].channel == r.channel
  }

  /** The front operation leaves the queue and the next one starts. */
  function Popped(v: View): View
    requires v.pending != []
  {
    var rest := v.pending[1..];
    var log := After(v.log, Finished(v.pending[0]));
    v.(pending := rest, inFlight := rest != [], log := if rest == [] then log else After(log, Started(rest[0])))
  }

  /** The done callback of the front operation. */
  function Handled(v: View, status: Status, react: UserCode): Step
    requires v.pending != [] && HasRecord(v.pending[0], v.sent)
  {
    match v.pending[0]
    case Write(id, kind, _) => if status == Success then Step(v, false) else Settled(v, id, Error(kind), react)
    case Ping(_) => if status == Failure && v.state == Running then Signalled(v, CommonError, react) else Step(v, false)
  }

  function Completed(v: View, status: Status, react: UserCode): Step
    requires v.pending != [] && HasRecord(v.pending[0], v.sent)
  {
    var h := Handled(v, status, react);
    if h.aborted || h.view.pending == [] then h else Step(Popped(h.view), false)
  }

  /** The first `n` messages to the subscription, one by one. */
  function Heard(v: View, sub: Sub, messages: seq<Message>, n: nat, react: UserCode): Step
    requires n <= |messages|
  {
    if n == 0 then Step(v, false)
    else
      var h := Heard(v, sub, messages, n - 1, react);
      if h.aborted then h else Signalled(h.view, OnData(sub, messages[n - 1]), react)
  }

  function OutcomeOf(pdu: Pdu): Outcome
    requires pdu.Confirmation?
  {
    if pdu.ok then Ok else Error(pdu.kind)
  }

  /** Confirmations after which the subscription's record is dropped. */
  predicate Deletes(pdu: Pdu)
  {
    pdu.Confirmation? && (pdu.kind == Unsubscribing || (pdu.kind == Subscribing && !pdu.ok))
  }

  function Confirmed(v: View, pdu: Pdu, react: UserCode): Step
    requires pdu.Confirmation?
  {
    if pdu.id !in v.sent then Step(v, true)
    else
      var s := Settled(v, pdu.id, OutcomeOf(pdu), react);
      var channel := v.sent[pdu.id].channel;
      if s.aborted || !Deletes(pdu) then s
      else Step(s.view.(infos := WithoutChannel(s.view.infos, channel)), SearchChannel(s.view.infos, channel).None?)
  }

  function Processed(v: View, pdu: Pdu, react: UserCode): Step
  {
    match pdu
    case Malformed => Step(v, true)
    case Confirmation(_, _, _) => Confirmed(v, pdu, react)
    case Data(channel, messages) =>
      (match SearchChannel(v.infos, channel)
       case None => Step(v, true)
       case Some(d) => Heard(v, d.sub, messages, |messages|, react))
    case SubscriptionError(channel) =>
      match SearchChannel(v.infos, channel)
      case None => Step(v, true)
      case Some(d) => Signalled(v, OnSubscriptionError(d.sub), react)
  }

  function FailedToRead(v: View, status: Status, react: UserCode): Step
  {
    if status == OperationAborted then
      if v.state == PendingStopped then Step(v.(state := Stopped, infos := []), false) else Step(v, true)
    else if status == Failure && v.state == Running then Signalled(v, CommonError, react)
    else Step(v, false)
  }

  /** No write of `id` waits in the queue. */
  predicate Unqueued(id: nat, pending: seq<Request>)
  {
    forall k :: 0 <= k < |pending| && pending[k].Write? ==> pending[k].id != id
  }

  /** Completions answer operations, and a confirmation comes only after the write it answers has completed. */
  predicate Possible(v: View, o: Occurrence)
  {
    match o
    case RequestDone(_) => v.inFlight && v.pending != [] && HasRecord(v.pending[0], v.sent)
    case Incoming(pdu) => pdu.Confirmation? ==> Unqueued(pdu.id, v.pending)
    case _ => true
  }

  function Occurred(v: View, o: Occurrence, react: UserCode): Step
    requires Possible(v, o)
  {
    match o
    case Api(call) => AllMade(v, [call])
    case PingTimer => Step(Enqueued(v.(nextId := v.nextId + 1), Ping(v.nextId), false), false)
    case RequestDone(status) => Completed(v, status, react)
    case Incoming(pdu) => Processed(v, pdu, react)
    case ReadFailed(status) => FailedToRead(v, status, react)
  }

  /** Every run, up to the first failing CHECK; what is impossible does not occur. */
  function AllOccurred(v: View, occurrences: seq<Occurrence>, react: UserCode): Step
    decreases |occurrences|
  {
    if occurrences == [] then Step(v, false)
    else if !Possible(v, occurrences[0]) then AllOccurred(v, occurrences[1..], react)
    else
      var s := Occurred(v, occurrences[0], react);
      if s.aborted then s else AllOccurred(s.view, occurrences[1..], react)
  }
}
