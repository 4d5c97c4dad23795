/** What merge does, as a function of its state, its upstreams and its sink. */
module MergeReference {
  import opened Histories
  import opened Demand

  /** An item and the upstream it came from. */
  datatype Tagged<T> = From(upstream: nat, item: T)

  function Untag<T>(s: seq<Tagged<T>>): (r: seq<T>)
    ensures |r| == |s|
  {
    if s == [] then [] else Untag(s[..|s| - 1]) + [s[|s| - 1].item]
  }

  /** What one upstream contributed. */
  function Of<T>(s: seq<Tagged<T>>, u: nat): seq<T>
  {
    if s == [] then []
    else Of(s[..|s| - 1], u) + (if s[|s| - 1].upstream == u then [s[|s| - 1].item] else [])
  }

  lemma OneMoreArrival<T>(s: seq<Tagged<T>>, t: Tagged<T>)
    ensures Untag(s + [t]) == Untag(s) + [t.item]
    ensures forall u: nat :: Of(s + [t], u) == if u == t.upstream then Of(s, u) + [t.item] else Of(s, u)
  {
    assert (s + [t])[..|s|] == s;
  }

  /**
   Everything outside of merge that it cannot choose: lists that signal on demand, for as long as
   `goesOn` says, and a sink.
   */
  datatype World<!T> = World(scripts: seq<Script<T>>, goesOn: (nat, Log<T>, nat) -> bool, react: Subscriber<T>)

  datatype Occurrence = SinkRequests(n: pos) | SinkCancels | Signals(upstream: nat)

  // ----- the state

  /** Per upstream: subscribed still, items sent, items asked for, and requests that frames on the stack owe it. */
  datatype Upstreams = Upstreams(active: seq<bool>, sent: seq<nat>, granted: seq<nat>, owed: seq<int>)

  datatype Merging<T> = Merging(
    log: Log<T>, arrived: seq<Tagged<T>>, items: seq<T>, needed: int, sinkAlive: bool, up: Upstreams)

  predicate Shape<T>(scripts: seq<Script<T>>, up: Upstreams)
  {
    && |up.active| == |up.sent| == |up.granted| == |up.owed| == |scripts|
    && forall u :: 0 <= u < |scripts| ==> up.sent[u] <= |scripts[u].items| && up.sent[u] <= up.granted[u]
  }

  /** How many items the first `k` upstreams have still to send. */
  function Left<T>(scripts: seq<Script<T>>, up: Upstreams, k: nat): nat
    requires Shape(scripts, up) && k <= |scripts|
  {
    if k == 0 then 0 else Left(scripts, up, k - 1) + |scripts[k - 1].items| - up.sent[k - 1]
  }

  /** Items not yet taken from the buffer. */
  function Total<T>(scripts: seq<Script<T>>, s: Merging<T>): nat
    requires Shape(scripts, s.up)
  {
    Left(scripts, s.up, |scripts|) + |s.items|
  }

  predicate AllDone(up: Upstreams)
  {
    forall u :: 0 <= u < |up.active| ==> !up.active[u]
  }

  predicate Settled<T>(s: Merging<T>)
  {
    s.needed == 0 || s.items == []
  }

  function FreshMerging<T>(scripts: seq<Script<T>>): Merging<T>
  {
    var n := |scripts|;
    Merging(Start, [], [], 0, true, Upstreams(seq(n, _ => true), seq(n, _ => 0), seq(n, _ => 0), seq(n, _ => 0)))
  }

  lemma {:induction false} LeftIgnoresOwed<T>(scripts: seq<Script<T>>, a: Upstreams, b: Upstreams, k: nat)
    requires Shape(scripts, a) && Shape(scripts, b) && a.sent == b.sent && k <= |scripts|
    ensures Left(scripts, a, k) == Left(scripts, b, k)
  {
    if k > 0 {
      LeftIgnoresOwed(scripts, a, b, k - 1);
    }
  }

  lemma {:induction false} SendingLeavesLess<T>(scripts: seq<Script<T>>, up: Upstreams, u: nat, k: nat)
    requires Shape(scripts, up) && CanSend(scripts, up, u) && k <= |scripts|
    ensures Left(scripts, up.(sent := up.sent[u := up.sent[u] + 1]), k)
      == Left(scripts, up, k) - (if u < k then 1 else 0)
  {
    if k > 0 {
      SendingLeavesLess(scripts, up, u, k - 1);
    }
  }

  lemma SameTotal<T>(scripts: seq<Script<T>>, a: Merging<T>, b: Merging<T>)
    requires Shape(scripts, a.up) && Shape(scripts, b.up) && a.up.sent == b.up.sent && a.items == b.items
    ensures Total(scripts, a) == Total(scripts, b)
  {
    LeftIgnoresOwed(scripts, a.up, b.up, |scripts|);
  }

  // ----- single steps

  function Shifted(owed: seq<int>, d: int): (r: seq<int>)
    ensures |r| == |owed| && forall u :: 0 <= u < |owed| ==> r[u] == owed[u] + d
  {
    seq(|owed|, u requires 0 <= u < |owed| => owed[u] + d)
  }

  predicate CanSend<T>(scripts: seq<Script<T>>, up: Upstreams, u: nat)
    requires Shape(scripts, up)
  {
    u < |scripts| && up.active[u] && up.sent[u] < |scripts[u].items| && up.sent[u] < up.granted[u]
  }

  function Pushed<T>(scripts: seq<Script<T>>, s: Merging<T>, u: nat): Merging<T>
    requires Shape(scripts, s.up) && CanSend(scripts, s.up, u)
  {
    var t := scripts[u].items[s.up.sent[u]];
    s.(arrived := s.arrived + [From(u, t)], items := s.items + [t],
       up := s.up.(sent := s.up.sent[u := s.up.sent[u] + 1]))
  }

  /** The front item leaves the buffer; `d` of what this frame owes upstream is met by it. */
  function Popped<T>(s: Merging<T>, d: int): Merging<T>
    requires s.items != []
  {
    s.(log := if s.sinkAlive then After(s.log, Next(s.items[0])) else s.log,
       items := s.items[1..], needed := s.needed - 1, up := s.up.(owed := Shifted(s.up.owed, -d)))
  }

  function Asking<T>(s: Merging<T>, n: pos): Merging<T>
  {
    s.(log := After(s.log, Requested(n)), needed := s.needed + n, up := s.up.(owed := Shifted(s.up.owed, n)))
  }

  lemma PushTotal<T>(scripts: seq<Script<T>>, s: Merging<T>, u: nat)
    requires Shape(scripts, s.up) && CanSend(scripts, s.up, u)
    ensures Shape(scripts, Pushed(scripts, s, u).up) && Total(scripts, Pushed(scripts, s, u)) == Total(scripts, s)
  {
    SendingLeavesLess(scripts, s.up, u, |scripts|);
  }

  lemma PopTotal<T>(scripts: seq<Script<T>>, s: Merging<T>, d: int)
    requires Shape(scripts, s.up) && s.items != []
    ensures Shape(scripts, Popped(s, d).up) && Total(scripts, Popped(s, d)) == Total(scripts, s) - 1
  {
    LeftIgnoresOwed(scripts, s.up, Popped(s, d).up, |scripts|);
  }

  lemma AskTotal<T>(scripts: seq<Script<T>>, s: Merging<T>, n: pos)
    requires Shape(scripts, s.up)
    ensures Shape(scripts, Asking(s, n).up) && Total(scripts, Asking(s, n)) == Total(scripts, s)
  {
    LeftIgnoresOwed(scripts, s.up, Asking(s, n).up, |scripts|);
  }

  /** s->request(left) as the upstream counts it. */
  function Granting<T>(s: Merging<T>, u: nat, left: pos): Merging<T>
    requires u < |s.up.granted| && u < |s.up.owed|
  {
    s.(up := s.up.(granted := s.up.granted[u := s.up.granted[u] + left], owed := s.up.owed[u := s.up.owed[u] - left]))
  }

  function Skipping<T>(s: Merging<T>, u: nat, left: int): Merging<T>
    requires u < |s.up.owed|
  {
    s.(up := s.up.(owed := s.up.owed[u := s.up.owed[u] - left]))
  }

  function Owing<T>(s: Merging<T>, owed: seq<int>): Merging<T>
  {
    s.(up := s.up.(owed := owed))
  }

  function Alone<T>(s: Merging<T>): Merging<T>
  {
    s.(up := s.up.(active := seq(|s.up.active|, _ => false)))
  }

  /** destroy_if_possible: the terminal signal, once. */
  function EndHeard<T>(s: Merging<T>, ending: Ending): Merging<T>
  {
    if s.sinkAlive then s.(log := After(s.log, Ended(ending)), sinkAlive := false) else s
  }

  /** The end of every frame but cancel's. */
  function Returned<T>(s: Merging<T>): Merging<T>
  {
    if AllDone(s.up) && s.items == [] then EndHeard(s, Complete) else s
  }

  function Cancelling<T>(s: Merging<T>): Merging<T>
  {
    Alone(s).(log := After(s.log, Cancelled), sinkAlive := false)
  }

  // ----- calls inside calls

  /** What they leave: no item more, and nothing unsent. */
  ghost predicate Leaves<T>(scripts: seq<Script<T>>, s: Merging<T>, t: Merging<T>)
  {
    && Shape(scripts, s.up) && Shape(scripts, t.up)
    && Total(scripts, t) <= Total(scripts, s)
    && forall u :: 0 <= u < |scripts| ==> s.up.sent[u] <= t.up.sent[u]
  }


  /** What a drain loop leaves, and what the buffer has not met of the request. */
  datatype Drained<T> = Drained(s: Merging<T>, left: int)

  /** Both drain loops; `d` of what the frame owes upstream is met by each item. */
  function Draining<T>(w: World<T>, s: Merging<T>, d: int, left: int): (r: Drained<T>)
    requires Shape(w.scripts, s.up)
    ensures Leaves(w.scripts, s, r.s)
    decreases Total(w.scripts, s), 2, 0, 0
  {
    if s.needed > 0 && s.items != [] then Draining(w, FrontDelivered(w, s, d), d, left - d) else Drained(s, left)
  }

  function FrontDelivered<T>(w: World<T>, s: Merging<T>, d: int): (t: Merging<T>)
    requires Shape(w.scripts, s.up) && s.items != []
    ensures Leaves(w.scripts, s, t) && Total(w.scripts, t) < Total(w.scripts, s)
    decreases Total(w.scripts, s), 1, 0, 0
  {
    PopTotal(w.scripts, s, d);
    if s.sinkAlive then SinkRan(w, Popped(s, d)) else Popped(s, d)
  }

  /** The sink's on_next: it requests and cancels from there. */
  function SinkRan<T>(w: World<T>, s: Merging<T>): (t: Merging<T>)
    requires Shape(w.scripts, s.up)
    ensures Leaves(w.scripts, s, t)
    decreases Total(w.scripts, s), 9, 0, 0
  {
    var r := w.react(s.log);
    var t := RequestsMade(w, s, r.requests);
    if r.cancels && !Closed(t.log) then
      SameTotal(w.scripts, t, Cancelling(t));
      Cancelling(t)
    else t
  }

  function RequestsMade<T>(w: World<T>, s: Merging<T>, requests: seq<pos>): (t: Merging<T>)
    requires Shape(w.scripts, s.up)
    ensures Leaves(w.scripts, s, t)
    decreases Total(w.scripts, s), 8, |requests|, 0
  {
    if requests == [] || Closed(s.log) then s else RequestsMade(w, RequestMade(w, s, requests[0]), requests[1..])
  }

  function RequestMade<T>(w: World<T>, s: Merging<T>, n: pos): (t: Merging<T>)
    requires Shape(w.scripts, s.up)
    ensures Leaves(w.scripts, s, t)
    decreases Total(w.scripts, s), 7, 0, 0
  {
    SameTotal(w.scripts, s, Asking(s, n));
    var d := Draining(w, Asking(s, n), 1, n);
    var p := if d.left > 0 then PassedOn(w, d.s, d.left, 0) else Owing(d.s, Shifted(d.s.up.owed, -d.left));
    SameTotal(w.scripts, d.s, Owing(d.s, Shifted(d.s.up.owed, -d.left)));
    SameTotal(w.scripts, p, Returned(p));
    Returned(p)
  }

  /** What the buffer did not meet is asked of every live upstream, from number `u` on. */
  function PassedOn<T>(w: World<T>, s: Merging<T>, left: pos, u: nat): (t: Merging<T>)
    requires Shape(w.scripts, s.up) && u <= |w.scripts|
    ensures Leaves(w.scripts, s, t)
    decreases Total(w.scripts, s), 6, |w.scripts| - u, 0
  {
    if u == |w.scripts| then s else PassedOn(w, PassedTo(w, s, left, u), left, u + 1)
  }

  function PassedTo<T>(w: World<T>, s: Merging<T>, left: pos, u: nat): (t: Merging<T>)
    requires Shape(w.scripts, s.up) && u < |w.scripts|
    ensures Leaves(w.scripts, s, t)
    decreases Total(w.scripts, s), 5, 0, 0
  {
    SameTotal(w.scripts, s, Skipping(s, u, left));
    SameTotal(w.scripts, s, Granting(s, u, left));
    if s.up.active[u] then Signalling(w, Granting(s, u, left), u) else Skipping(s, u, left)
  }

  predicate CanSignal<T>(scripts: seq<Script<T>>, up: Upstreams, u: nat)
    requires Shape(scripts, up)
  {
    u < |scripts| && up.active[u] && (up.sent[u] == |scripts[u].items| || up.sent[u] < up.granted[u])
  }

  /** An upstream signals inside its request, for as long as it likes. */
  function Signalling<T>(w: World<T>, s: Merging<T>, u: nat): (t: Merging<T>)
    requires Shape(w.scripts, s.up) && u < |w.scripts|
    ensures Leaves(w.scripts, s, t)
    decreases Total(w.scripts, s), 4, |w.scripts[u].items| - s.up.sent[u], if s.up.active[u] then 1 else 0
  {
    if CanSignal(w.scripts, s.up, u) && w.goesOn(u, s.log, s.up.sent[u]) then Signalling(w, Signalled(w, s, u), u)
      else s
  }

  /** It sends its next item, or ends; an error cancels the others and overtakes what is buffered. */
  function Signalled<T>(w: World<T>, s: Merging<T>, u: nat): (t: Merging<T>)
    requires Shape(w.scripts, s.up) && CanSignal(w.scripts, s.up, u)
    ensures Leaves(w.scripts, s, t)
    ensures if s.up.sent[u] < |w.scripts[u].items| then s.up.sent[u] < t.up.sent[u]
      else t.up.sent[u] == s.up.sent[u] && !t.up.active[u]
    decreases Total(w.scripts, s), 3, 0, 0
  {
    if s.up.sent[u] < |w.scripts[u].items| then
      PushTotal(w.scripts, s, u);
      var d := Draining(w, Pushed(w.scripts, s, u), 0, 0).s;
      SameTotal(w.scripts, d, Returned(d));
      Returned(d)
    else if w.scripts[u].ending == Complete then
      var c := s.(up := s.up.(active := s.up.active[u := false]));
      SameTotal(w.scripts, s, Returned(c));
      Returned(c)
    else
      SameTotal(w.scripts, s, EndHeard(Alone(s), w.scripts[u].ending));
      EndHeard(Alone(s), w.scripts[u].ending)
  }

  // ----- whole runs

  function Occurred<T>(w: World<T>, s: Merging<T>, o: Occurrence): (t: Merging<T>)
    requires Shape(w.scripts, s.up)
    ensures Shape(w.scripts, t.up)
  {
    match o
    case SinkRequests(n) => if Closed(s.log) then s else RequestMade(w, s, n)
    case SinkCancels => if Closed(s.log) then s else Cancelling(s)
    case Signals(u) => if CanSignal(w.scripts, s.up, u) then Signalled(w, s, u) else s
  }

  function AllOccurred<T>(w: World<T>, s: Merging<T>, occurrences: seq<Occurrence>): (t: Merging<T>)
    requires Shape(w.scripts, s.up)
    ensures Shape(w.scripts, t.up)
    decreases |occurrences|
  {
    if occurrences == [] then s else AllOccurred(w, Occurred(w, s, occurrences[0]), occurrences[1..])
  }
}
