/** The bounded channel: every interleaving of any number of senders and receivers. */
module Channels {
  import opened Wrappers

  type Thread = nat

  /**
   A channel and the threads inside send() and recv(). Such a thread is about to take the
   mutex for the first time (entering), asleep on its condition variable, or signalled and
   about to take the mutex again. `sent` and `received` record every push and every pop.
   */
  datatype Channel<T> = Channel(
    capacity: nat,
    buffer: seq<T>,
    items: map<Thread, T>,
    sendEntering: set<Thread>, sendAsleep: set<Thread>, sendSignalled: set<Thread>,
    recvEntering: set<Thread>, recvAsleep: set<Thread>, recvSignalled: set<Thread>,
    sent: seq<T>,
    received: seq<T>)

  function Fresh<T>(capacity: nat): Channel<T>
  {
    Channel(capacity, [], map[], {}, {}, {}, {}, {}, {}, [], [])
  }

  /**
   One atomic step. A `wakes` is the thread that notify_one picks, if any is asleep.
   SendRuns and RecvRuns are one turn of the wait loop under the mutex.
   */
  datatype Event<T> =
    | CallSend(thread: Thread, item: T)
    | SendRuns(thread: Thread, wakes: Option<Thread>)
    | TrySend(item: T, wakes: Option<Thread>)
    | CallRecv(thread: Thread)
    | RecvRuns(thread: Thread, wakes: Option<Thread>)
    | SpuriousSend(thread: Thread)
    | SpuriousRecv(thread: Thread)
    | Clear

  function Busy<T>(c: Channel<T>): set<Thread>
  {
    c.sendEntering + c.sendAsleep + c.sendSignalled + c.recvEntering + c.recvAsleep + c.recvSignalled
  }

  predicate Full<T>(c: Channel<T>)
  {
    |c.buffer| >= c.capacity
  }

  /** notify_one wakes some sleeper if there is one. */
  predicate Picks(wakes: Option<Thread>, asleep: set<Thread>)
  {
    match wakes
    case None => asleep == {}
    case Some(t) => t in asleep
  }

  predicate Enabled<T>(c: Channel<T>, e: Event<T>)
  {
    match e
    case CallSend(t, _) => t !in Busy(c)
    case SendRuns(t, wakes) =>
      t in c.sendEntering + c.sendSignalled && t in c.items
        && (if Full(c) then wakes.None? else Picks(wakes, c.recvAsleep))
    case TrySend(_, wakes) => if Full(c) then wakes.None? else Picks(wakes, c.recvAsleep)
    case CallRecv(t) => t !in Busy(c)
    case RecvRuns(t, wakes) =>
      t in c.recvEntering + c.recvSignalled && (if c.buffer == [] then wakes.None? else Picks(wakes, c.sendAsleep))
    case SpuriousSend(t) => t in c.sendAsleep
    case SpuriousRecv(t) => t in c.recvAsleep
    case Clear => true
  }

  function Push<T>(c: Channel<T>, item: T, wakes: Option<Thread>): Channel<T>
  {
    var c1 := c.(buffer := c.buffer + [item], sent := c.sent + [item]);
    if wakes.None? then c1
    else c1.(recvAsleep := c.recvAsleep - {wakes.value}, recvSignalled := c.recvSignalled + {wakes.value})
  }

  function Pop<T>(c: Channel<T>, wakes: Option<Thread>): Channel<T>
    requires c.buffer != []
  {
    var c1 := c.(buffer := c.buffer[1..], received := c.received + [c.buffer[0]]);
    if wakes.None? then c1
    else c1.(sendAsleep := c.sendAsleep - {wakes.value}, sendSignalled := c.sendSignalled + {wakes.value})
  }

  function LeaveSend<T>(c: Channel<T>, t: Thread): Channel<T>
  {
    c.(sendEntering := c.sendEntering - {t}, sendSignalled := c.sendSignalled - {t})
  }

  function LeaveRecv<T>(c: Channel<T>, t: Thread): Channel<T>
  {
    c.(recvEntering := c.recvEntering - {t}, recvSignalled := c.recvSignalled - {t})
  }

  function Apply<T>(c: Channel<T>, e: Event<T>): Channel<T>
    requires Enabled(c, e)
  {
    match e
    case CallSend(t, item) => c.(sendEntering := c.sendEntering + {t}, items := c.items[t := item])
    case SendRuns(t, wakes) =>
      var left := LeaveSend(c, t);
      if Full(c) then left.(sendAsleep := left.sendAsleep + {t}) else Push(left, c.items[t], wakes)
    case TrySend(item, wakes) => if Full(c) then c else Push(c, item, wakes)
    case CallRecv(t) => c.(recvEntering := c.recvEntering + {t})
    case RecvRuns(t, wakes) =>
      var left := LeaveRecv(c, t);
      if c.buffer == [] then left.(recvAsleep := left.recvAsleep + {t}) else Pop(left, wakes)
    case SpuriousSend(t) => c.(sendAsleep := c.sendAsleep - {t}, sendSignalled := c.sendSignalled + {t})
    case SpuriousRecv(t) => c.(recvAsleep := c.recvAsleep - {t}, recvSignalled := c.recvSignalled + {t})
    case Clear => c.(buffer := [])
  }

  // ----- runs

  ghost predicate IsRun<T>(c: Channel<T>, events: seq<Event<T>>)
    decreases |events|
  {
    events == [] || (Enabled(c, events[0]) && IsRun(Apply(c, events[0]), events[1..]))
  }

  ghost function Exec<T>(c: Channel<T>, events: seq<Event<T>>): Channel<T>
    requires IsRun(c, events)
    decreases |events|
  {
    if events == [] then c else Exec(Apply(c, events[0]), events[1..])
  }

  ghost predicate WithoutClear<T>(events: seq<Event<T>>)
  {
    forall i :: 0 <= i < |events| ==> !events[i].Clear?
  }

  // ----- what every step keeps

  /** A thread is in one place at a time. */
  ghost predicate Apart<T>(c: Channel<T>)
  {
    && c.sendEntering !! c.sendAsleep !! c.sendSignalled !! c.recvEntering !! c.recvAsleep !! c.recvSignalled
    && c.sendEntering + c.sendAsleep + c.sendSignalled <= c.items.Keys
  }

  /** Everything sent is received or waits in the buffer, in the order of sending. */
  ghost predicate Conserved<T>(c: Channel<T>)
  {
    |c.buffer| <= c.capacity && c.received + c.buffer == c.sent
  }

  /** While a receiver sleeps, each buffered item has a signalled receiver coming for it; dually for free slots. */
  ghost predicate NoLostWakeup<T>(c: Channel<T>)
  {
    && (c.recvAsleep != {} ==> |c.buffer| <= |c.recvSignalled|)
    && (c.sendAsleep != {} ==> c.capacity - |c.buffer| <= |c.sendSignalled|)
  }

  lemma StepKeepsApart<T>(c: Channel<T>, e: Event<T>)
    requires Apart(c) && Enabled(c, e)
    ensures Apart(Apply(c, e))
  {
  }

  lemma StepConserves<T>(c: Channel<T>, e: Event<T>)
    requires Conserved(c) && Enabled(c, e) && !e.Clear?
    ensures Conserved(Apply(c, e))
  {
  }

  lemma Leaving(s: set<Thread>, t: Thread)
    ensures |s| - 1 <= |s - {t}| <= |s|
  {
    if t in s {
      assert |s - {t}| == |s| - 1;
    } else {
      assert s - {t} == s;
    }
  }

  /** A push takes one free slot and sends one sleeping receiver after the new item. */
  lemma PushLosesNoWakeup<T>(c: Channel<T>, item: T, wakes: Option<Thread>)
    requires c.recvAsleep !! c.recvSignalled && Picks(wakes, c.recvAsleep)
    requires c.recvAsleep != {} ==> |c.buffer| <= |c.recvSignalled|
    requires c.sendAsleep != {} ==> c.capacity - |c.buffer| - 1 <= |c.sendSignalled|
    ensures NoLostWakeup(Push(c, item, wakes))
  {
    if wakes.Some? {
      assert |c.recvSignalled + {wakes.value}| == |c.recvSignalled| + 1;
    }
  }

  /** A pop takes one item and sends one sleeping sender after the free slot. */
  lemma PopLosesNoWakeup<T>(c: Channel<T>, wakes: Option<Thread>)
    requires c.buffer != [] && c.sendAsleep !! c.sendSignalled && Picks(wakes, c.sendAsleep)
    requires c.recvAsleep != {} ==> |c.buffer| - 1 <= |c.recvSignalled|
    requires c.sendAsleep != {} ==> c.capacity - |c.buffer| <= |c.sendSignalled|
    ensures NoLostWakeup(Pop(c, wakes))
  {
    if wakes.Some? {
      assert |c.sendSignalled + {wakes.value}| == |c.sendSignalled| + 1;
    }
  }

  lemma StepLosesNoWakeup<T>(c: Channel<T>, e: Event<T>)
    requires c.sendAsleep !! c.sendSignalled && c.recvAsleep !! c.recvSignalled
    requires NoLostWakeup(c) && Enabled(c, e) && !e.Clear?
    ensures NoLostWakeup(Apply(c, e))
  {
    match e
    case CallSend(t, item) =>
    case SendRuns(t, wakes) =>
      Leaving(c.sendSignalled, t);
      if !Full(c) {
        PushLosesNoWakeup(LeaveSend(c, t), c.items[t], wakes);
      }
    case TrySend(item, wakes) =>
      if !Full(c) {
        PushLosesNoWakeup(c, item, wakes);
      }
    case CallRecv(t) =>
    case RecvRuns(t, wakes) =>
      Leaving(c.recvSignalled, t);
      if c.buffer != [] {
        PopLosesNoWakeup(LeaveRecv(c, t), wakes);
      }
    case SpuriousSend(t) =>
      assert |c.sendSignalled + {t}| == |c.sendSignalled| + 1;
    case SpuriousRecv(t) =>
      assert |c.recvSignalled + {t}| == |c.recvSignalled| + 1;
  }

  // ----- who sent what

  /** The items that a thread has called send() with. */
  function HandedOver<T>(events: seq<Event<T>>, t: Thread): seq<T>
  {
    if events == [] then []
    else (if events[0].CallSend? && events[0].thread == t then [events[0].item] else []) + HandedOver(events[1..], t)
  }

  /** The items of the try_send() calls that met a free slot. */
  ghost function Tried<T>(c: Channel<T>, events: seq<Event<T>>): seq<T>
    requires IsRun(c, events)
    decreases |events|
  {
    if events == [] then []
    else
      (if events[0].TrySend? && |c.buffer| < c.capacity then [events[0].item] else [])
      + Tried(Apply(c, events[0]), events[1..])
  }

  /** Who gets an item in at this step, if anybody does. */
  function Sender<T>(c: Channel<T>, e: Event<T>): seq<Option<Thread>>
  {
    if |c.buffer| >= c.capacity then []
    else match e
         case SendRuns(t, _) => [Some(t)]
         case TrySend(_, _) => [None]
         case _ => []
  }

  /** Who got an item in, one after the other: a thread in send(), or, None, somebody in try_send(). */
  ghost function Senders<T>(c: Channel<T>, events: seq<Event<T>>): seq<Option<Thread>>
    requires IsRun(c, events)
    decreases |events|
  {
    if events == [] then []
    else Sender(c, events[0]) + Senders(Apply(c, events[0]), events[1..])
  }

  /** Those of the items that `who` got in. */
  function By<T>(items: seq<T>, senders: seq<Option<Thread>>, who: Option<Thread>): seq<T>
    requires |items| == |senders|
  {
    if items == [] then []
    else (if senders[0] == who then [items[0]] else []) + By(items[1..], senders[1..], who)
  }

  /** What a thread inside send() has not got in yet. */
  function Pending<T>(c: Channel<T>, t: Thread): seq<T>
  {
    if t in c.sendEntering + c.sendAsleep + c.sendSignalled && t in c.items then [c.items[t]] else []
  }

  /**
   What was sent in a run is an interleaving of what the callers sent: thread by thread the items
   of its calls, in order, all but the one it is still inside with; and those of try_send() that
   met a free slot.
   */
  ghost predicate SentByCallers<T>(c: Channel<T>, events: seq<Event<T>>)
    requires IsRun(c, events)
  {
    && c.sent <= Exec(c, events).sent && |SentIn(c, events)| == |Senders(c, events)|
    && (forall t :: SentByThread(c, events, t))
    && By(SentIn(c, events), Senders(c, events), None) == Tried(c, events)
  }

  /** What a run adds to what was sent. */
  ghost function SentIn<T>(c: Channel<T>, events: seq<Event<T>>): seq<T>
    requires IsRun(c, events)
  {
    var sent := Exec(c, events).sent;
    if |c.sent| <= |sent| then sent[|c.sent|..] else []
  }

  ghost predicate SentByThread<T>(c: Channel<T>, events: seq<Event<T>>, t: Thread)
    requires IsRun(c, events) && |SentIn(c, events)| == |Senders(c, events)|
  {
    Pending(c, t) + HandedOver(events, t)
    == By(SentIn(c, events), Senders(c, events), Some(t)) + Pending(Exec(c, events), t)
  }

  /** One step of that. */
  ghost predicate StepSends<T>(c: Channel<T>, e: Event<T>)
    requires Enabled(c, e)
  {
    var next := Apply(c, e);
    match e
    case CallSend(t, item) =>
      next.sent == c.sent && Pending(c, t) == [] && Pending(next, t) == [item]
      && forall s :: s != t ==> Pending(next, s) == Pending(c, s)
    case SendRuns(t, _) =>
      && (forall s :: s != t ==> Pending(next, s) == Pending(c, s))
      && if |c.buffer| >= c.capacity then next.sent == c.sent && Pending(next, t) == Pending(c, t)
         else Pending(next, t) == [] && next.sent == c.sent + Pending(c, t) && |Pending(c, t)| == 1
    case TrySend(item, _) =>
      && (forall s :: Pending(next, s) == Pending(c, s))
      && next.sent == c.sent + if |c.buffer| >= c.capacity then [] else [item]
    case _ => next.sent == c.sent && forall s :: Pending(next, s) == Pending(c, s)
  }

  lemma EveryStepSends<T>(c: Channel<T>, e: Event<T>)
    requires Apart(c) && Enabled(c, e)
    ensures StepSends(c, e)
  {
  }

  lemma ByOneMore<T>(now: seq<T>, later: seq<T>, sender: seq<Option<Thread>>, senders: seq<Option<Thread>>,
                     who: Option<Thread>)
    requires |now| == |sender| <= 1 && |later| == |senders|
    ensures By(now + later, sender + senders, who)
         == (if |now| == 1 && sender[0] == who then now else []) + By(later, senders, who)
  {
    if |now| == 1 {
      assert (now + later)[1..] == later && (sender + senders)[1..] == senders;
    } else {
      assert now + later == later && sender + senders == senders;
    }
  }

  lemma ThreadSends<T>(c: Channel<T>, e: Event<T>, t: Thread)
    requires Apart(c) && Enabled(c, e)
    ensures var next := Apply(c, e);
      && c.sent <= next.sent && |next.sent[|c.sent|..]| == |Sender(c, e)| <= 1
      && Pending(c, t) + (if e.CallSend? && e.thread == t then [e.item] else [])
         == (if Sender(c, e) == [Some(t)] then next.sent[|c.sent|..] else []) + Pending(next, t)
      && (Sender(c, e) == [None] ==> e.TrySend? && next.sent[|c.sent|..] == [e.item])
  {
    EveryStepSends(c, e);
  }

  /** One step in front of a run: its item, if any, in front of the others. */
  lemma SentInOneMore<T>(c: Channel<T>, e: Event<T>, rest: seq<Event<T>>)
    requires Apart(c) && Enabled(c, e) && IsRun(Apply(c, e), rest) && SentByCallers(Apply(c, e), rest)
    ensures var next := Apply(c, e); var events := [e] + rest;
      && events[1..] == rest && IsRun(c, events) && c.sent <= Exec(c, events).sent
      && |SentIn(next, rest)| == |Senders(next, rest)|
      && c.sent <= next.sent && |next.sent[|c.sent|..]| == |Sender(c, e)| <= 1
      && SentIn(c, events) == next.sent[|c.sent|..] + SentIn(next, rest)
      && Senders(c, events) == Sender(c, e) + Senders(next, rest)
      && Exec(c, events) == Exec(next, rest)
  {
    hide Pending, By, Apart, Apply, Enabled, StepSends, Sender, Tried;
    var next := Apply(c, e);
    var events := [e] + rest;
    assert events[1..] == rest;
    ThreadSends(c, e, 0);
    assert Exec(c, events).sent[|c.sent|..] == next.sent[|c.sent|..] + Exec(next, rest).sent[|next.sent|..];
  }

  lemma SentByThreadOneMore<T>(c: Channel<T>, e: Event<T>, rest: seq<Event<T>>, t: Thread)
    requires Apart(c) && Enabled(c, e) && IsRun(Apply(c, e), rest) && SentByCallers(Apply(c, e), rest)
    ensures IsRun(c, [e] + rest) && |SentIn(c, [e] + rest)| == |Senders(c, [e] + rest)|
      && SentByThread(c, [e] + rest, t)
  {
    hide Pending, By, Apart, Apply, Enabled, StepSends, Sender, Tried, Senders, SentIn, Exec;
    var next := Apply(c, e);
    SentInOneMore(c, e, rest);
    ThreadSends(c, e, t);
    assert SentByThread(next, rest, t);
    var now := next.sent[|c.sent|..];
    ByOneMore(now, SentIn(next, rest), Sender(c, e), Senders(next, rest), Some(t));
    var call := if e.CallSend? && e.thread == t then [e.item] else [];
    var mine := if Sender(c, e) == [Some(t)] then now else [];
    var events := [e] + rest;
    assert events[0] == e && HandedOver(events, t) == call + HandedOver(rest, t);
    assert Pending(c, t) + HandedOver(events, t) == (Pending(c, t) + call) + HandedOver(rest, t);
    assert (Pending(c, t) + call) + HandedOver(rest, t) == (mine + Pending(next, t)) + HandedOver(rest, t);
    assert (mine + By(SentIn(next, rest), Senders(next, rest), Some(t))) + Pending(Exec(next, rest), t)
        == mine + (Pending(next, t) + HandedOver(rest, t));
  }

  lemma TriedOneMore<T>(c: Channel<T>, e: Event<T>, rest: seq<Event<T>>)
    requires Apart(c) && Enabled(c, e) && IsRun(Apply(c, e), rest) && SentByCallers(Apply(c, e), rest)
    ensures var events := [e] + rest;
      && IsRun(c, events) && |SentIn(c, events)| == |Senders(c, events)|
      && By(SentIn(c, events), Senders(c, events), None) == Tried(c, events)
  {
    hide Pending, By, Apart, Apply, Enabled, StepSends, Senders, SentIn, Exec;
    var next := Apply(c, e);
    SentInOneMore(c, e, rest);
    ThreadSends(c, e, 0);
    ByOneMore(next.sent[|c.sent|..], SentIn(next, rest), Sender(c, e), Senders(next, rest), None);
  }

  lemma {:induction false} EveryRunIsSentByCallers<T>(c: Channel<T>, events: seq<Event<T>>)
    requires Apart(c) && IsRun(c, events)
    ensures SentByCallers(c, events)
    decreases |events|
  {
    hide Pending, By, Apart, Apply, Enabled, SentByThread, SentIn, Senders, Tried;
    if events == [] {
      NothingSent(c);
    } else {
      var e, rest := events[0], events[1..];
      assert events == [e] + rest;
      StepKeepsApart(c, e);
      EveryRunIsSentByCallers(Apply(c, e), rest);
      SentInOneMore(c, e, rest);
      TriedOneMore(c, e, rest);
      forall t ensures SentByThread(c, events, t) {
        SentByThreadOneMore(c, e, rest, t);
      }
    }
  }

  lemma NothingSent<T>(c: Channel<T>)
    ensures SentByCallers(c, [])
  {
  }

  // ----- who receives

  /** How often a thread has called recv(). */
  function RecvCalls<T>(events: seq<Event<T>>, t: Thread): nat
  {
    if events == [] then 0 else (if events[0] == CallRecv(t) then 1 else 0) + RecvCalls(events[1..], t)
  }

  /** What its calls have returned: the front item whenever it got the mutex with something buffered. */
  ghost function Returns<T>(c: Channel<T>, events: seq<Event<T>>, t: Thread): seq<T>
    requires IsRun(c, events)
    decreases |events|
  {
    if events == [] then []
    else
      (if events[0].RecvRuns? && events[0].thread == t && c.buffer != [] then [c.buffer[0]] else [])
      + Returns(Apply(c, events[0]), events[1..], t)
  }

  predicate InRecv<T>(c: Channel<T>, t: Thread)
  {
    t in c.recvEntering + c.recvAsleep + c.recvSignalled
  }

  /** A call of recv() is inside until it returns an item. */
  lemma {:induction false} RecvReturnsItems<T>(c: Channel<T>, events: seq<Event<T>>, t: Thread)
    requires Apart(c) && IsRun(c, events)
    ensures (if InRecv(c, t) then 1 else 0) + RecvCalls(events, t)
         == |Returns(c, events, t)| + (if InRecv(Exec(c, events), t) then 1 else 0)
    decreases |events|
  {
    if events != [] {
      StepKeepsApart(c, events[0]);
      OneStepReceives(c, events[0], t);
      RecvReturnsItems(Apply(c, events[0]), events[1..], t);
    }
  }

  lemma OneStepReceives<T>(c: Channel<T>, e: Event<T>, t: Thread)
    requires Apart(c) && Enabled(c, e)
    ensures InRecv(Apply(c, e), t) <==>
      e == CallRecv(t) || (InRecv(c, t) && !(e.RecvRuns? && e.thread == t && c.buffer != []))
    ensures e == CallRecv(t) ==> !InRecv(c, t)
    ensures e.RecvRuns? && e.thread == t ==> InRecv(c, t)
    ensures Apply(c, e).received == c.received + (if e.RecvRuns? && c.buffer != [] then [c.buffer[0]] else [])
  {
  }

  /** Over every run without clear(), for any number of threads and any interleaving. */
  lemma {:induction false} EveryRunIsSafe<T>(c: Channel<T>, events: seq<Event<T>>)
    requires Apart(c) && Conserved(c) && NoLostWakeup(c)
    requires IsRun(c, events) && WithoutClear(events)
    ensures var end := Exec(c, events); Apart(end) && Conserved(end) && NoLostWakeup(end)
    ensures SentByCallers(c, events)
    decreases |events|
  {
    hide SentByCallers;
    EveryRunIsSentByCallers(c, events);
    if events != [] {
      StepKeepsApart(c, events[0]);
      StepConserves(c, events[0]);
      StepLosesNoWakeup(c, events[0]);
      EveryRunIsSafe(Apply(c, events[0]), events[1..]);
    }
  }

  /** Nobody is on the way to the mutex. */
  ghost predicate Quiet<T>(c: Channel<T>)
  {
    c.sendEntering == c.sendSignalled == c.recvEntering == c.recvSignalled == {}
  }

  /**
   No deadlock: when every thread inside the channel sleeps, receivers sleep only on an empty
   buffer and senders only on a full one; with a capacity they never sleep on both sides.
   */
  lemma QuietChannelIsStuckOnlyForGoodReason<T>(capacity: nat, events: seq<Event<T>>)
    requires IsRun(Fresh<T>(capacity), events) && WithoutClear(events)
    requires Quiet(Exec(Fresh<T>(capacity), events))
    ensures var end := Exec(Fresh<T>(capacity), events);
      && (end.recvAsleep != {} ==> end.buffer == [])
      && (end.sendAsleep != {} ==> |end.buffer| == capacity)
      && (0 < capacity ==> end.recvAsleep == {} || end.sendAsleep == {})
  {
    EveryRunIsSafe(Fresh<T>(capacity), events);
    CapacityIsFixed(Fresh<T>(capacity), events);
  }

  lemma {:induction false} CapacityIsFixed<T>(c: Channel<T>, events: seq<Event<T>>)
    requires IsRun(c, events)
    ensures Exec(c, events).capacity == c.capacity
    decreases |events|
  {
    if events != [] {
      CapacityIsFixed(Apply(c, events[0]), events[1..]);
    }
  }

  // ----- clear()

  /** A sender sleeps although there is a free slot, and nobody is on the way to change that. */
  ghost predicate Stuck<T>(c: Channel<T>)
  {
    Quiet(c) && c.sendAsleep != {} && !Full(c)
  }

  /** Receivers inside the channel. */
  function Receivers<T>(c: Channel<T>): nat
  {
    |c.recvEntering| + |c.recvAsleep| + |c.recvSignalled|
  }

  /** Senders on the way to the mutex. */
  function Way<T>(c: Channel<T>): nat
  {
    |c.sendEntering| + |c.sendSignalled|
  }

  /**
   Some sender sleeps, more slots are free than senders are on the way to them, and receivers
   cannot wake all sleepers: there is nothing for them to receive, or there are too few.
   */
  predicate Stranded<T>(c: Channel<T>)
  {
    StrandedBy(c.capacity, |c.buffer|, Way(c), |c.sendAsleep|, Receivers(c))
  }

  predicate StrandedBy(capacity: nat, buffered: nat, way: nat, asleep: nat, receivers: nat)
  {
    && 0 < asleep
    && buffered + way < capacity
    && (buffered + way == 0 || receivers < asleep)
  }

  /** What every step keeps, clear() included: the receivers' half of the wake-up invariant. */
  ghost predicate Sound<T>(c: Channel<T>)
  {
    && Apart(c) && |c.buffer| <= c.capacity
    && (c.recvAsleep != {} ==> |c.buffer| <= |c.recvSignalled|)
  }

  lemma Moved(s: set<Thread>, t: Thread)
    ensures t in s ==> |s - {t}| == |s| - 1
    ensures t !in s ==> |s - {t}| == |s| && |s + {t}| == |s| + 1
  {
    if t !in s {
      assert s - {t} == s;
    }
  }

  lemma PushKeepsSound<T>(c: Channel<T>, item: T, wakes: Option<Thread>)
    requires Apart(c) && |c.buffer| < c.capacity && Picks(wakes, c.recvAsleep)
    requires c.recvAsleep != {} ==> |c.buffer| <= |c.recvSignalled|
    ensures Sound(Push(c, item, wakes))
    ensures Receivers(Push(c, item, wakes)) == Receivers(c)
  {
    if wakes.Some? {
      Moved(c.recvAsleep, wakes.value);
      Moved(c.recvSignalled, wakes.value);
    }
  }

  lemma PopKeepsSound<T>(c: Channel<T>, wakes: Option<Thread>)
    requires Apart(c) && |c.buffer| <= c.capacity && c.buffer != [] && Picks(wakes, c.sendAsleep)
    requires c.recvAsleep != {} ==> |c.buffer| - 1 <= |c.recvSignalled|
    ensures Sound(Pop(c, wakes))
    ensures var p := Pop(c, wakes);
      if wakes.Some? then |p.sendAsleep| == |c.sendAsleep| - 1 && |p.sendSignalled| == |c.sendSignalled| + 1
      else p.sendAsleep == {} && p.sendSignalled == c.sendSignalled
  {
    if wakes.Some? {
      Moved(c.sendAsleep, wakes.value);
      Moved(c.sendSignalled, wakes.value);
    }
  }

  lemma StepKeepsSound<T>(c: Channel<T>, e: Event<T>)
    requires Sound(c) && Enabled(c, e)
    ensures Sound(Apply(c, e))
  {
    StepKeepsApart(c, e);
    match e
    case CallSend(t, item) =>
    case SendRuns(t, wakes) =>
      if !Full(c) {
        PushKeepsSound(LeaveSend(c, t), c.items[t], wakes);
      }
    case TrySend(item, wakes) =>
      if !Full(c) {
        PushKeepsSound(c, item, wakes);
      }
    case CallRecv(t) =>
    case RecvRuns(t, wakes) =>
      Moved(c.recvSignalled, t);
      if c.buffer != [] {
        PopKeepsSound(LeaveRecv(c, t), wakes);
      }
    case SpuriousSend(t) =>
    case SpuriousRecv(t) =>
      Moved(c.recvSignalled, t);
    case Clear =>
  }

  /** The thread that runs next is no longer counted among those on the way. */
  lemma OneLeavesSend<T>(c: Channel<T>, t: Thread)
    requires Apart(c) && t in c.sendEntering + c.sendSignalled
    ensures var left := LeaveSend(c, t);
      && Apart(left) && t !in Busy(left)
      && Way(left) == Way(c) - 1
  {
    Moved(c.sendEntering, t);
    Moved(c.sendSignalled, t);
  }

  lemma OneLeavesRecv<T>(c: Channel<T>, t: Thread)
    requires Apart(c) && t in c.recvEntering + c.recvSignalled
    ensures var left := LeaveRecv(c, t);
      && Apart(left) && t !in Busy(left) && t !in left.recvAsleep
      && |left.recvEntering| + |left.recvSignalled| == |c.recvEntering| + |c.recvSignalled| - 1
      && |left.recvAsleep + {t}| == |left.recvAsleep| + 1
  {
    Moved(c.recvEntering, t);
    Moved(c.recvSignalled, t);
    Moved(c.recvAsleep, t);
  }

  /** A push by one of the senders on the way, out of the way already, changes the counts so. */
  lemma PushCounts<T>(c: Channel<T>, item: T, wakes: Option<Thread>)
    requires c.recvAsleep !! c.recvSignalled && Picks(wakes, c.recvAsleep)
    ensures var p := Push(c, item, wakes);
      && Way(p) == Way(c) && p.sendAsleep == c.sendAsleep && p.capacity == c.capacity
      && |p.buffer| == |c.buffer| + 1 && Receivers(p) == Receivers(c)
  {
    if wakes.Some? {
      Moved(c.recvAsleep, wakes.value);
      Moved(c.recvSignalled, wakes.value);
    }
  }

  function Inside<T>(c: Channel<T>): nat
  {
    Receivers(c) + Way(c) + |c.sendAsleep|
  }

  function OnTheWay<T>(c: Channel<T>): nat
  {
    Way(c) + |c.recvEntering| + |c.recvSignalled|
  }

  lemma SendStrandsNobody<T>(c: Channel<T>, t: Thread, wakes: Option<Thread>)
    requires Sound(c) && Enabled(c, SendRuns(t, wakes))
    ensures !Full(c) ==>
      (var next := Apply(c, SendRuns(t, wakes)); (Stranded(next) <==> Stranded(c)) && Inside(next) == Inside(c) - 1)
    ensures Full(c) ==> !Stranded(Apply(c, SendRuns(t, wakes)))
  {
    OneLeavesSend(c, t);
    hide Apart, Push;
    if !Full(c) {
      PushCounts(LeaveSend(c, t), c.items[t], wakes);
    }
  }

  lemma PopCounts<T>(c: Channel<T>, wakes: Option<Thread>)
    requires c.buffer != [] && c.sendAsleep !! c.sendSignalled && Picks(wakes, c.sendAsleep)
    ensures var p := Pop(c, wakes);
      && Receivers(p) == Receivers(c) && |p.recvEntering| + |p.recvSignalled| == |c.recvEntering| + |c.recvSignalled|
      && p.capacity == c.capacity && |p.buffer| == |c.buffer| - 1
      && (if wakes.Some? then 0 < |c.sendAsleep| && |p.sendAsleep| == |c.sendAsleep| - 1 && Way(p) == Way(c) + 1
          else |c.sendAsleep| == 0 && |p.sendAsleep| == 0 && Way(p) == Way(c))
  {
    if wakes.Some? {
      Moved(c.sendAsleep, wakes.value);
      Moved(c.sendSignalled, wakes.value);
    }
  }

  lemma RecvStrandsNobody<T>(c: Channel<T>, t: Thread, wakes: Option<Thread>)
    requires Sound(c) && Enabled(c, RecvRuns(t, wakes))
    ensures var next := Apply(c, RecvRuns(t, wakes));
      && (Stranded(next) <==> Stranded(c))
      && (if c.buffer == [] then Inside(next) == Inside(c) && OnTheWay(next) == OnTheWay(c) - 1
          else Inside(next) == Inside(c) - 1)
  {
    OneLeavesRecv(c, t);
    hide Apart, Sound, Pop;
    if c.buffer != [] {
      PopCounts(LeaveRecv(c, t), wakes);
    }
  }

  /** Without clear() nobody gets stranded. */
  lemma StepStrandsNobody<T>(c: Channel<T>, e: Event<T>)
    requires Sound(c) && Enabled(c, e) && !e.Clear? && !Stranded(c)
    ensures !Stranded(Apply(c, e))
  {
    match e
    case CallSend(t, item) =>
      Moved(c.sendEntering, t);
    case SendRuns(t, wakes) =>
      SendStrandsNobody(c, t, wakes);
    case TrySend(item, wakes) =>
      if !Full(c) {
        PushCounts(c, item, wakes);
      }
    case CallRecv(t) =>
      Moved(c.recvEntering, t);
    case RecvRuns(t, wakes) =>
      RecvStrandsNobody(c, t, wakes);
    case SpuriousSend(t) =>
      Moved(c.sendAsleep, t);
      Moved(c.sendSignalled, t);
    case SpuriousRecv(t) =>
      Moved(c.recvAsleep, t);
      Moved(c.recvSignalled, t);
  }

  lemma StuckIsStranded<T>(c: Channel<T>)
    requires Sound(c) && Stuck(c)
    ensures Stranded(c)
  {
  }

  /** One of the threads on the way runs on. */
  lemma SomeoneRuns<T>(c: Channel<T>) returns (e: Event<T>)
    requires Sound(c) && Stranded(c) && !Quiet(c)
    ensures Enabled(c, e) && !e.Clear? && Stranded(Apply(c, e))
    ensures var next := Apply(c, e);
      Inside(next) < Inside(c) || (Inside(next) == Inside(c) && OnTheWay(next) < OnTheWay(c))
  {
    hide Inside, OnTheWay;
    var receivers, senders := c.recvEntering + c.recvSignalled, c.sendEntering + c.sendSignalled;
    if receivers != {} {
      var t :| t in receivers;
      assert 0 < |c.sendAsleep|;
      var s :| s in c.sendAsleep;
      var wakes := if c.buffer == [] then None else Some(s);
      RecvStrandsNobody(c, t, wakes);
      e := RecvRuns(t, wakes);
    } else {
      assert senders != {};
      var t :| t in senders;
      var wakes: Option<Thread> := None;
      if r :| r in c.recvAsleep {
        wakes := Some(r);
      }
      assert !Full(c);
      SendStrandsNobody(c, t, wakes);
      e := SendRuns(t, wakes);
    }
  }

  lemma QuietAndStrandedIsStuck<T>(c: Channel<T>)
    requires Stranded(c) && Quiet(c)
    ensures Stuck(c)
  {
  }

  lemma OneMoreEvent<T>(c: Channel<T>, e: Event<T>, rest: seq<Event<T>>)
    requires Enabled(c, e) && IsRun(Apply(c, e), rest)
    ensures IsRun(c, [e] + rest) && Exec(c, [e] + rest) == Exec(Apply(c, e), rest)
    ensures !e.Clear? && WithoutClear(rest) ==> WithoutClear([e] + rest)
  {
    assert ([e] + rest)[1..] == rest;
  }

  /** From a stranded state it is enough that the threads inside run on. */
  lemma {:induction false} StrandedGetsStuck<T>(c: Channel<T>) returns (events: seq<Event<T>>)
    requires Sound(c) && Stranded(c)
    ensures IsRun(c, events) && WithoutClear(events) && Stuck(Exec(c, events))
    decreases Inside(c), OnTheWay(c)
  {
    hide Sound, Stranded, Inside, OnTheWay, Apply, Enabled, Quiet, Stuck;
    if Quiet(c) {
      QuietAndStrandedIsStuck(c);
      events := [];
    } else {
      var e := SomeoneRuns(c);
      StepKeepsSound(c, e);
      events := StrandedGetsStuck(Apply(c, e));
      OneMoreEvent(c, e, events);
      events := [e] + events;
    }
  }

  lemma {:induction false} NeverStranded<T>(c: Channel<T>, events: seq<Event<T>>)
    requires Sound(c) && !Stranded(c) && IsRun(c, events) && WithoutClear(events)
    ensures Sound(Exec(c, events)) && !Stranded(Exec(c, events))
    decreases |events|
  {
    if events != [] {
      StepKeepsSound(c, events[0]);
      StepStrandsNobody(c, events[0]);
      NeverStranded(Apply(c, events[0]), events[1..]);
    }
  }

  /** Some sender can end up asleep for good beside a free slot. */
  ghost predicate CanGetStuck<T(!new)>(c: Channel<T>)
  {
    exists events :: IsRun(c, events) && WithoutClear(events) && Stuck(Exec(c, events))
  }

  /** The exact condition, on counts alone, for any number of threads and any interleaving. */
  lemma CanGetStuckExactlyWhenStranded<T(!new)>(c: Channel<T>)
    requires Sound(c)
    ensures CanGetStuck(c) <==> Stranded(c)
  {
    if Stranded(c) {
      var events := StrandedGetsStuck(c);
    } else {
      forall events | IsRun(c, events) && WithoutClear(events) ensures !Stuck(Exec(c, events)) {
        NeverStranded(c, events);
        if Stuck(Exec(c, events)) {
          StuckIsStranded(Exec(c, events));
        }
      }
    }
  }

  lemma {:induction false} EveryRunIsSound<T>(c: Channel<T>, events: seq<Event<T>>)
    requires Sound(c) && IsRun(c, events)
    ensures Sound(Exec(c, events))
    decreases |events|
  {
    if events != [] {
      StepKeepsSound(c, events[0]);
      EveryRunIsSound(Apply(c, events[0]), events[1..]);
    }
  }

  /**
   What a caller of clear() must know: afterwards a sender can sleep for good if and only if one
   sleeps now, the channel has more slots than senders on the way, and those on the way are none
   or the sleepers outnumber the receivers inside.
   */
  lemma ClearStrandsExactlyWhen<T(!new)>(capacity: nat, before: seq<Event<T>>)
    requires IsRun(Fresh<T>(capacity), before)
    ensures var c := Exec(Fresh<T>(capacity), before);
      CanGetStuck(Apply(c, Clear)) <==>
        0 < |c.sendAsleep| && Way(c) < capacity && (Way(c) == 0 || Receivers(c) < |c.sendAsleep|)
  {
    EveryRunIsSound(Fresh<T>(capacity), before);
    CapacityIsFixed(Fresh<T>(capacity), before);
    var c := Exec(Fresh<T>(capacity), before);
    StepKeepsSound(c, Clear);
    CanGetStuckExactlyWhenStranded(Apply(c, Clear));
  }

  lemma NoEvents<T>(c: Channel<T>)
    ensures IsRun(c, []) && Exec(c, []) == c
  {
  }

  /** A wake-up lost to clear() need not strand anybody: here a sender on the way takes the only slot. */
  lemma LostWakeupCanBeHarmless<T(!new)>(x: T) returns (events: seq<Event<T>>)
    ensures IsRun(Fresh<T>(1), events)
    ensures var end := Exec(Fresh<T>(1), events); !NoLostWakeup(end) && !CanGetStuck(end)
  {
    hide IsRun, Exec, CanGetStuck, Stranded, Sound, Apart;
    var c0 := Fresh<T>(1);
    var c1 := Apply(c0, TrySend(x, None));
    var c2 := Apply(c1, CallSend(0, x));
    var c3 := Apply(c2, SendRuns(0, None));
    var c4 := Apply(c3, CallSend(1, x));
    var c5 := Apply(c4, Clear);
    NoEvents(c5);
    OneMoreEvent(c4, Clear, []);
    events := [Clear] + [];
    OneMoreEvent(c3, CallSend(1, x), events);
    events := [CallSend(1, x)] + events;
    OneMoreEvent(c2, SendRuns(0, None), events);
    events := [SendRuns(0, None)] + events;
    OneMoreEvent(c1, CallSend(0, x), events);
    events := [CallSend(0, x)] + events;
    OneMoreEvent(c0, TrySend(x, None), events);
    events := [TrySend(x, None)] + events;
    FreshIsSound<T>(1);
    EveryRunIsSound(c0, events);
    assert c5.sendAsleep == {0} && c5.sendEntering == {1} && c5.sendSignalled == {};
    NobodyStranded(c5);
    CanGetStuckExactlyWhenStranded(c5);
  }

  lemma FreshIsSound<T>(capacity: nat)
    ensures Sound(Fresh<T>(capacity))
  {
  }

  lemma NobodyStranded<T>(c: Channel<T>)
    requires c.capacity - |c.buffer| <= |c.sendEntering|
    ensures !Stranded(c)
  {
  }

  /** Every clear() of the run leaves nobody stranded. */
  ghost predicate ClearsWithCare<T>(c: Channel<T>, events: seq<Event<T>>)
    requires IsRun(c, events)
    decreases |events|
  {
    events != [] ==>
      && (events[0].Clear? ==> !Stranded(Apply(c, events[0])))
      && ClearsWithCare(Apply(c, events[0]), events[1..])
  }

  /** Then nobody ever is, over the whole run. */
  lemma {:induction false} CarefulRunsNeverGetStuck<T(!new)>(c: Channel<T>, events: seq<Event<T>>)
    requires Sound(c) && !Stranded(c) && IsRun(c, events) && ClearsWithCare(c, events)
    ensures !Stuck(Exec(c, events)) && !CanGetStuck(Exec(c, events))
    decreases |events|
  {
    if events == [] {
      CanGetStuckExactlyWhenStranded(c);
      if Stuck(c) {
        StuckIsStranded(c);
      }
    } else {
      StepKeepsSound(c, events[0]);
      if !events[0].Clear? {
        StepStrandsNobody(c, events[0]);
      }
      CarefulRunsNeverGetStuck(Apply(c, events[0]), events[1..]);
    }
  }

  /** A run that ends with a sender asleep forever beside an empty buffer. */
  lemma ClearLosesAWakeup<T>(x: T)
    ensures var events := [TrySend(x, None), CallSend(0, x), SendRuns(0, None), Clear];
      && IsRun(Fresh<T>(1), events)
      && var end := Exec(Fresh<T>(1), events);
         Quiet(end) && end.sendAsleep == {0} && end.buffer == []
  {
    var c0 := Fresh<T>(1);
    var c1 := Apply(c0, TrySend(x, None));
    var c2 := Apply(c1, CallSend(0, x));
    var c3 := Apply(c2, SendRuns(0, None));
    var c4 := Apply(c3, Clear);
    var e0: seq<Event<T>> := [];
    var e1 := [Clear] + e0;
    var e2 := [SendRuns(0, None)] + e1;
    var e3 := [CallSend(0, x)] + e2;
    assert IsRun(c4, e0) && IsRun(c3, e1) && IsRun(c2, e2) && IsRun(c1, e3);
    assert [TrySend(x, None), CallSend(0, x), SendRuns(0, None), Clear] == [TrySend(x, None)] + e3;
    assert Exec(c3, e1) == c4 && Exec(c2, e2) == c4 && Exec(c1, e3) == c4;
  }
}
