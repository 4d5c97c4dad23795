/** What the delay operator does, as a function of its state, its source, its timers and its sink. */
module DelayReference {
  import opened Histories
  import opened Demand

  /** _buffer_low_watermark. */
  const WATERMARK: int := 20

  /** How the program stands: a failing CHECK ends it. */
  datatype Fate = Fine | Overflow | Overdrawn

  /** Everything outside of the operator that it cannot choose. */
  datatype World<!T> = World(
    script: Script<T>,
    goesOn: (Log<T>, nat) -> bool,
    immediate: (Log<T>, T) -> bool,
    react: Subscriber<T>)

  /** The timer of the item in front; it has failed when it reported an error instead of calling on_timer. */
  datatype Timer = Off | Running | Failed

  /** _active, _cancelled, _error, and: is the sink's on_next on the stack, is the operator deleted. */
  datatype Flags = Flags(active: bool, cancelled: bool, error: bool, timer: Timer, delivering: bool, deleted: bool)

  /** `rash` remembers whether maybe_request has ever asked when it was rash to. */
  datatype Delaying<T> = Delaying(
    log: Log<T>, buffer: seq<T>, needs: nat, waiting: nat, sent: nat, granted: nat, flags: Flags, fate: Fate,
        rash: bool)

  function FreshDelay<T>(): Delaying<T>
  {
    Delaying(Start, [], 0, 0, 0, 0, Flags(true, false, false, Off, false, false), Fine, false)
  }

  datatype Occurrence = SinkRequests(n: pos) | SinkCancels | SourceSignals | TimerFires | TimerFails

  /** Items that the sink has not been handed. */
  function Undelivered<T>(s: Delaying<T>): seq<T>
  {
    if s.flags.delivering && s.buffer != [] then s.buffer[1..] else s.buffer
  }

  function Unsent<T>(w: World<T>, s: Delaying<T>): nat
  {
    if s.sent <= |w.script.items| then |w.script.items| - s.sent else 0
  }

  function Total<T>(w: World<T>, s: Delaying<T>): nat
  {
    Unsent(w, s) + |Undelivered(s)|
  }

  /** What calls from inside calls leave: no item more, and what the sink is being handed stays in front. */
  ghost predicate Leaves<T>(w: World<T>, s: Delaying<T>, t: Delaying<T>)
  {
    && Total(w, t) <= Total(w, s) && s.sent <= t.sent
    && (s.flags.delivering ==> t.flags.delivering && s.buffer <= t.buffer)
  }

  /** How much maybe_request asks for; 0 for its early returns. */
  function Requesting(needs: nat, buffered: nat, waiting: nat): (m: nat)
    ensures m <= needs && (buffered + waiting <= WATERMARK ==> buffered + waiting + m <= WATERMARK)
    ensures 0 < needs ==> 0 < buffered + waiting + m
  {
    if needs == 0 || buffered + waiting >= WATERMARK then 0
    else if WATERMARK - buffered - waiting < needs then WATERMARK - buffered - waiting else needs
  }

  /**
   Asking now brings the sink more than it wants: something is on its way, and the sink wants
   fewer than the watermark. An item being delivered still counts as buffered.
   */
  predicate Rash(needs: nat, buffered: nat, waiting: nat, delivering: bool)
  {
    && 0 < needs && buffered + waiting < WATERMARK
    && var front := if delivering then 1 else 0;
       front < buffered + waiting && needs < WATERMARK - front
  }

  // ----- the source's side

  function Pushed<T>(w: World<T>, s: Delaying<T>): Delaying<T>
    requires s.sent < |w.script.items| && 0 < s.waiting
  {
    s.(waiting := s.waiting - 1, sent := s.sent + 1, buffer := s.buffer + [w.script.items[s.sent]])
  }

  function SourceEnded<T>(w: World<T>, s: Delaying<T>): Delaying<T>
  {
    if s.buffer == [] then s.(log := After(s.log, Ended(w.script.ending)), flags := s.flags.(deleted := true))
    else s.(flags := s.flags.(active := false, error := w.script.ending.Failure?))
  }

  predicate CanSignal<T>(w: World<T>, s: Delaying<T>)
  {
    s.flags.active && (s.sent == |w.script.items| || (s.sent < |w.script.items| && 0 < s.waiting))
  }

  function Signalled<T>(w: World<T>, s: Delaying<T>): (t: Delaying<T>)
    requires CanSignal(w, s)
    ensures Leaves(w, s, t)
    ensures Unsent(w, t) < Unsent(w, s) || (Unsent(w, t) == Unsent(w, s) && (!t.flags.active || t.flags.deleted))
    decreases Total(w, s), 4, 0, 0
  {
    if s.sent == |w.script.items| then SourceEnded(w, s)
    else
      var p := Pushed(w, s);
      if |p.buffer| == 1 && !p.flags.delivering then Scheduled(w, p) else p
  }

  /** Inside its request the source may signal at once, and more than once. */
  function SourceSignalled<T>(w: World<T>, s: Delaying<T>): (t: Delaying<T>)
    ensures Leaves(w, s, t)
    decreases Total(w, s), 5, Unsent(w, s), if s.flags.active && !s.flags.deleted then 1 else 0
  {
    if !s.flags.deleted && s.fate == Fine && CanSignal(w, s) && w.goesOn(s.log, s.sent)
    then SourceSignalled(w, Signalled(w, s)) else s
  }

  // ----- the timer

  function Scheduled<T>(w: World<T>, s: Delaying<T>): (t: Delaying<T>)
    requires s.buffer != [] && !s.flags.delivering
    ensures Leaves(w, s, t)
    decreases Total(w, s), 3, 0, 0
  {
    if w.immediate(s.log, s.buffer[0]) then Fired(w, s) else s.(flags := s.flags.(timer := Running))
  }

  function Fired<T>(w: World<T>, s: Delaying<T>): (t: Delaying<T>)
    requires s.buffer != [] && !s.flags.delivering
    ensures Leaves(w, s, t)
    decreases Total(w, s), 2, 0, 0
  {
    if s.flags.cancelled then s.(flags := s.flags.(deleted := true))
    else if s.needs == 0 then s.(fate := Overdrawn)
    else
      var d := Delivered(w, s);
      if d.fate != Fine then d else AfterDelivery(w, d)
  }

  function Handed<T>(s: Delaying<T>): Delaying<T>
    requires s.buffer != [] && 0 < s.needs
  {
    s.(needs := s.needs - 1, flags := s.flags.(delivering := true), log := After(s.log, Next(s.buffer[0])))
  }

  /** The front item is handed over, and only then leaves the buffer. */
  function Delivered<T>(w: World<T>, s: Delaying<T>): (t: Delaying<T>)
    requires s.buffer != [] && !s.flags.delivering && 0 < s.needs
    ensures Total(w, t) < Total(w, s) && s.sent <= t.sent
    decreases Total(w, s), 1, 0, 0
  {
    var d := SinkRan(w, Handed(s));
    if d.fate != Fine || d.buffer == [] then d else d.(flags := d.flags.(delivering := false), buffer := d.buffer[1..])
  }

  /** The rest of on_timer, with the item out of the buffer. */
  function AfterDelivery<T>(w: World<T>, s: Delaying<T>): (t: Delaying<T>)
    ensures Leaves(w, s, t)
    decreases Total(w, s), 8, 0, 0
  {
    if s.flags.cancelled then s.(flags := s.flags.(deleted := true))
    else if s.buffer != [] then (if s.flags.delivering then s else Scheduled(w, s))
    else if s.flags.active then ToppedUp(w, s)
    else s.(log := After(s.log, Ended(if s.flags.error then w.script.ending else Complete)),
            flags := s.flags.(deleted := true))
  }

  // ----- the sink's side

  /** The sink's on_next: it requests and cancels from there. */
  function SinkRan<T>(w: World<T>, s: Delaying<T>): (t: Delaying<T>)
    ensures Leaves(w, s, t)
    decreases Total(w, s), 10, 0, 0
  {
    var r := w.react(s.log);
    var asked := Asking(w, s, r.requests);
    if r.cancels && asked.fate == Fine then Cancelling(asked) else asked
  }

  /** The requests that the sink makes from its on_next. */
  function Asking<T>(w: World<T>, s: Delaying<T>, requests: seq<pos>): (t: Delaying<T>)
    ensures Leaves(w, s, t)
    decreases Total(w, s), 9, |requests|, 0
  {
    if requests == [] || s.fate != Fine then s else Asking(w, RequestMade(w, s, requests[0]), requests[1..])
  }

  function RequestMade<T>(w: World<T>, s: Delaying<T>, n: pos): (t: Delaying<T>)
    ensures Leaves(w, s, t)
    decreases Total(w, s), 7, 0, 0
  {
    var log := After(s.log, Requested(n));
    if !s.flags.active then s.(log := log)
    else if n > INT_MAX - s.needs then s.(log := log, fate := Overflow)
    else ToppedUp(w, s.(log := log, needs := s.needs + n))
  }

  /** maybe_request. */
  function ToppedUp<T>(w: World<T>, s: Delaying<T>): (t: Delaying<T>)
    ensures Leaves(w, s, t)
    decreases Total(w, s), 6, 0, 0
  {
    var m := Requesting(s.needs, |s.buffer|, s.waiting);
    var r := s.(rash := s.rash || Rash(s.needs, |s.buffer|, s.waiting, s.flags.delivering));
    if m == 0 then r else SourceSignalled(w, r.(waiting := s.waiting + m, granted := s.granted + m))
  }

  function Cancelling<T>(s: Delaying<T>): Delaying<T>
  {
    s.(log := After(s.log, Cancelled),
       flags := s.flags.(active := false, cancelled := true, deleted := s.flags.deleted || s.buffer == []))
  }

  // ----- whole runs

  /** One event, if it can happen now. */
  function Occurred<T>(w: World<T>, s: Delaying<T>, o: Occurrence): Delaying<T>
  {
    match o
    case SinkRequests(n) => if Closed(s.log) then s else RequestMade(w, s, n)
    case SinkCancels => if Closed(s.log) then s else Cancelling(s)
    case SourceSignals => if CanSignal(w, s) then Signalled(w, s) else s
    case TimerFires =>
      if s.flags.timer.Running? && s.buffer != [] && !s.flags.delivering
      then Fired(w, s.(flags := s.flags.(timer := Off))) else s
    case TimerFails => if s.flags.timer.Running? then s.(flags := s.flags.(timer := Failed)) else s
  }

  function AllOccurred<T>(w: World<T>, s: Delaying<T>, occurrences: seq<Occurrence>): Delaying<T>
    decreases |occurrences|
  {
    if occurrences == [] || s.fate != Fine || s.flags.deleted then s
    else AllOccurred(w, Occurred(w, s, occurrences[0]), occurrences[1..])
  }
}
