/** deferred: one-shot values, chained with map and then. */
module Deferreds {
  import opened Wrappers
  import opened Histories

  datatype Result<V> = Ok(value: V) | Err(code: int)

  /** Where a deferred comes from. `then`'s function returns a deferred, known by its number. */
  datatype Origin<!V> = Source | MapOf(s: nat, f: V -> V) | ThenOf(s: nat, g: V -> nat)

  /** Whom a deferred tells: user code, or the deferred made from it. */
  datatype Callback = Nothing | User | ToMap(c: nat) | ToThen(c: nat) | Forward(c: nat)

  datatype Phase = Idle | Running | Done

  datatype Cell<!V> = Cell(origin: Origin<V>, resolved: bool, value: Result<V>, callback: Callback, phase: Phase)

  /**
   User code is called with a result; a function given to map or then is called with a value.
   Somebody tries to register a callback with `x`, or to resolve it; a second try fails a CHECK.
   */
  datatype Event<V> =
    | Called(x: nat, result: Result<V>)
    | Applied(c: nat, argument: V)
    | Listening(x: nat)
    | Settling(x: nat)

  type Log<V> = History<Event<V>>

  function Times<V(==)>(log: Log<V>, e: Event<V>): nat
  {
    if log.Start? then 0 else Times(log.before, e) + if log.event == e then 1 else 0
  }

  // ----- the pure error monad

  function Mapped<V>(r: Result<V>, f: V -> V): Result<V>
  {
    match r
    case Ok(v) => Ok(f(v))
    case Err(code) => Err(code)
  }

  // ----- what holds of the cells

  /** Told, or being told. */
  predicate Started<V>(cell: Cell<V>)
  {
    cell.phase != Idle
  }

  /** A callback is run when there is a value and a callback, whichever came last. */
  ghost predicate Prompt<V>(cell: Cell<V>)
  {
    Started(cell) <==> cell.resolved && cell.callback != Nothing
  }

  /** A mapped cell gets its value from its source, when the source's callback runs. */
  ghost predicate MapHolds<V>(cells: seq<Cell<V>>, c: nat)
    requires c < |cells| && cells[c].origin.MapOf?
  {
    var s := cells[c].origin.s;
    && s < |cells| && cells[s].callback == ToMap(c)
    && (cells[s].phase == Done ==> cells[c].resolved)
    && (cells[c].resolved ==> Started(cells[s]) && cells[c].value == Mapped(cells[s].value, cells[c].origin.f))
  }

  /** A chained cell gets the error of its source, or the result of the deferred its function returned. */
  ghost predicate ThenHolds<V>(cells: seq<Cell<V>>, c: nat)
    requires c < |cells| && cells[c].origin.ThenOf?
  {
    var s := cells[c].origin.s;
    && s < |cells| && cells[s].callback == ToThen(c)
    && (cells[c].resolved ==> Started(cells[s]))
    && match cells[s].value
       case Err(code) =>
         && (cells[s].phase == Done ==> cells[c].resolved)
         && (cells[c].resolved ==> cells[c].value == Err(code))
       case Ok(v) =>
         var u := cells[c].origin.g(v);
         && u < |cells|
         && (cells[s].phase == Done ==> cells[u].callback == Forward(c))
         && (cells[u].callback == Forward(c) && cells[u].phase == Done ==> cells[c].resolved)
         && (cells[c].resolved ==>
               && cells[u].callback == Forward(c) && Started(cells[u])
               && cells[c].value == cells[u].value)
  }

  ghost predicate OriginHolds<V>(cells: seq<Cell<V>>, c: nat)
    requires c < |cells|
  {
    match cells[c].origin
    case Source => true
    case MapOf(_, _) => MapHolds(cells, c)
    case ThenOf(_, _) => ThenHolds(cells, c)
  }

  /** Callbacks between cells lead to the cells made from them. */
  ghost predicate CallbackHolds<V>(cells: seq<Cell<V>>, x: nat)
    requires x < |cells|
  {
    match cells[x].callback
    case Nothing => true
    case User => true
    case ToMap(c) => c < |cells| && cells[c].origin.MapOf? && cells[c].origin.s == x
    case ToThen(c) => c < |cells| && cells[c].origin.ThenOf? && cells[c].origin.s == x
    case Forward(c) =>
      && c < |cells| && cells[c].origin.ThenOf?
      && var s := cells[c].origin.s;
         s < |cells| && Started(cells[s]) && cells[s].value.Ok? && cells[c].origin.g(cells[s].value.value) == x
  }

  /** Deferreds are made from earlier ones, and a function returns one that was there before. */
  ghost predicate Known<V(!new)>(cells: seq<Cell<V>>)
  {
    && (forall c :: 0 <= c < |cells| && !cells[c].origin.Source? ==> cells[c].origin.s < c)
    && (forall c, v :: 0 <= c < |cells| && cells[c].origin.ThenOf? ==> cells[c].origin.g(v) < c)
  }

  ghost predicate CellHolds<V>(cells: seq<Cell<V>>, x: nat)
    requires x < |cells|
  {
    Prompt(cells[x]) && OriginHolds(cells, x) && CallbackHolds(cells, x)
  }

  ghost predicate CellsHold<V>(cells: seq<Cell<V>>)
  {
    forall x :: 0 <= x < |cells| ==> CellHolds(cells, x)
  }

  /** User code has heard each result it waits for once, and nothing else. */
  ghost predicate HeardResults<V(!new)>(cells: seq<Cell<V>>, log: Log<V>)
  {
    forall x: nat, r :: Times(log, Called(x, r)) ==
      if x < |cells| && cells[x].callback == User && Started(cells[x]) && cells[x].value == r then 1 else 0
  }

  /** A function has been called once with the value of its source, and with nothing else. */
  ghost predicate HeardValues<V(!new)>(cells: seq<Cell<V>>, log: Log<V>)
  {
    forall c: nat, v :: Times(log, Applied(c, v)) ==
      if c < |cells| && !cells[c].origin.Source? && cells[c].origin.s < |cells|
         && Started(cells[cells[c].origin.s]) && cells[cells[c].origin.s].value == Ok(v) then 1 else 0
  }

  /** Each callback and each value has been tried once. */
  ghost predicate HeardTries<V(!new)>(cells: seq<Cell<V>>, log: Log<V>)
  {
    && (forall x: nat :: Times(log, Listening(x)) == if x < |cells| && cells[x].callback != Nothing then 1 else 0)
    && (forall x: nat :: Times(log, Settling(x)) == if x < |cells| && cells[x].resolved then 1 else 0)
  }

  ghost predicate Heard<V(!new)>(cells: seq<Cell<V>>, log: Log<V>)
  {
    HeardResults(cells, log) && HeardValues(cells, log) && HeardTries(cells, log)
  }

  ghost predicate Inv<V(!new)>(cells: seq<Cell<V>>, log: Log<V>)
  {
    Known(cells) && CellsHold(cells) && Heard(cells, log)
  }

  // ----- steps

  function Awake(resolved: bool, callback: Callback): Phase
  {
    if resolved && callback != Nothing then Running else Idle
  }

  function Resolving<V>(cells: seq<Cell<V>>, c: nat, r: Result<V>): seq<Cell<V>>
    requires c < |cells|
  {
    cells[c := cells[c].(resolved := true, value := r, phase := Awake(true, cells[c].callback))]
  }

  function Attaching<V>(cells: seq<Cell<V>>, x: nat, callback: Callback): seq<Cell<V>>
    requires x < |cells|
  {
    cells[x := cells[x].(callback := callback, phase := Awake(cells[x].resolved, callback))]
  }

  function Finishing<V>(cells: seq<Cell<V>>, x: nat): seq<Cell<V>>
    requires x < |cells|
  {
    cells[x := cells[x].(phase := Done)]
  }

  /** What is heard when the callback of `x` starts. */
  function Entering<V>(cells: seq<Cell<V>>, x: nat, log: Log<V>): Log<V>
    requires x < |cells|
  {
    if cells[x].phase != Running then log else
    match cells[x].callback
    case Nothing => log
    case User => After(log, Called(x, cells[x].value))
    case ToMap(c) => if cells[x].value.Ok? then After(log, Applied(c, cells[x].value.value)) else log
    case ToThen(c) => if cells[x].value.Ok? then After(log, Applied(c, cells[x].value.value)) else log
    case Forward(_) => log
  }

  /** `r` is what `c` is due: anything for a source, else what its origin gives. */
  ghost predicate Due<V>(cells: seq<Cell<V>>, c: nat, r: Result<V>)
    requires c < |cells|
  {
    match cells[c].origin
    case Source => true
    case MapOf(s, f) => s < |cells| && Started(cells[s]) && r == Mapped(cells[s].value, f)
    case ThenOf(s, g) =>
      s < |cells| && Started(cells[s]) &&
      match cells[s].value
      case Err(code) => r == Err(code)
      case Ok(v) =>
          && g(v) < |cells| && cells[g(v)].callback == Forward(c) && Started(cells[g(v)])
          && r == cells[g(v)].value
  }

  /** The callback of `x` is about to run, and its work is not done yet. */
  ghost predicate Ready<V>(cells: seq<Cell<V>>, x: nat)
    requires x < |cells|
  {
    && cells[x].phase == Running
    && match cells[x].callback
       case Nothing => false
       case User => true
       case ToMap(c) => c < |cells| && !cells[c].resolved
       case ToThen(c) => c < |cells| && !cells[c].resolved
       case Forward(c) => c < |cells| && !cells[c].resolved
  }

  /** The callback of `x` has done its work. */
  ghost predicate Handled<V>(cells: seq<Cell<V>>, x: nat)
    requires x < |cells|
  {
    && cells[x].phase == Running
    && match cells[x].callback
       case Nothing => false
       case User => true
       case ToMap(c) => c < |cells| && cells[c].resolved
       case ToThen(c) =>
         && c < |cells| && cells[c].origin.ThenOf?
         && if cells[x].value.Ok?
            then cells[c].origin.g(cells[x].value.value) < |cells|
              && cells[cells[c].origin.g(cells[x].value.value)].callback == Forward(c)
            else cells[c].resolved
       case Forward(c) => c < |cells| && cells[c].resolved
  }

  lemma ResolvingKeepsOrigin<V(!new)>(cells: seq<Cell<V>>, c: nat, r: Result<V>, d: nat)
    requires Known(cells) && CellsHold(cells) && c < |cells| && !cells[c].resolved && Due(cells, c, r) && d < |cells|
    ensures OriginHolds(Resolving(cells, c, r), d)
  {
    assert CellHolds(cells, c) && CellHolds(cells, d);
    var next := Resolving(cells, c, r);
    match cells[d].origin
    case Source =>
    case MapOf(s, f) =>
    case ThenOf(s, g) =>
      if s == c && r.Ok? {
        assert g(r.value) < |cells|;
        assert CellHolds(cells, g(r.value));
      }
  }

  lemma ResolvingKeepsCallback<V(!new)>(cells: seq<Cell<V>>, c: nat, r: Result<V>, x: nat)
    requires CellsHold(cells) && c < |cells| && !cells[c].resolved && x < |cells|
    ensures CallbackHolds(Resolving(cells, c, r), x)
  {
    assert CellHolds(cells, c) && CellHolds(cells, x);
  }

  lemma ResolvingHolds<V(!new)>(cells: seq<Cell<V>>, c: nat, r: Result<V>)
    requires Known(cells) && CellsHold(cells) && c < |cells| && !cells[c].resolved && Due(cells, c, r)
    ensures var next := Resolving(cells, c, r);
      Known(next) && CellsHold(next) && (cells[c].callback != Nothing ==> Ready(next, c))
  {
    hide OriginHolds;
    var next := Resolving(cells, c, r);
    forall x | 0 <= x < |next| ensures CellHolds(next, x) {
      assert CellHolds(cells, x);
      ResolvingKeepsOrigin(cells, c, r, x);
      ResolvingKeepsCallback(cells, c, r, x);
    }
    NotItsOwnTarget(cells, c, r);
    assert CellHolds(cells, c);
    ReadyWhenAwake(cells, next, c);
  }

  predicate LeadsTo(callback: Callback, c: nat)
  {
    callback == ToMap(c) || callback == ToThen(c) || callback == Forward(c)
  }

  lemma NotItsOwnTarget<V(!new)>(cells: seq<Cell<V>>, c: nat, r: Result<V>)
    requires CellsHold(cells) && c < |cells| && !cells[c].resolved && Due(cells, c, r)
    ensures !LeadsTo(cells[c].callback, c)
  {
    assert CellHolds(cells, c);
  }

  /** What a callback not yet run leads to is not resolved. */
  lemma ReadyWhenAwake<V(!new)>(cells: seq<Cell<V>>, next: seq<Cell<V>>, x: nat)
    requires CellsHold(cells) && x < |cells| == |next| && !Started(cells[x]) && next[x].callback == cells[x].callback
    requires !LeadsTo(cells[x].callback, x)
    requires forall y :: 0 <= y < |cells| && y != x ==> next[y] == cells[y]
    requires cells[x].callback != Nothing ==> next[x].phase == Running
    ensures cells[x].callback != Nothing ==> Ready(next, x)
  {
    assert CellHolds(cells, x);
    match cells[x].callback
    case Nothing =>
    case User =>
    case ToMap(c) => assert CellHolds(cells, c);
    case ToThen(c) => assert CellHolds(cells, c);
    case Forward(c) => assert CellHolds(cells, c);
  }

  lemma FinishingHolds<V(!new)>(cells: seq<Cell<V>>, x: nat)
    requires Known(cells) && CellsHold(cells) && x < |cells| && Handled(cells, x)
    ensures var next := Finishing(cells, x); Known(next) && CellsHold(next)
  {
    var next := Finishing(cells, x);
    forall y | 0 <= y < |next| ensures CellHolds(next, y) {
      assert CellHolds(cells, x) && CellHolds(cells, y);
      FinishingKeepsOrigin(cells, x, y);
    }
  }

  lemma FinishingKeepsOrigin<V(!new)>(cells: seq<Cell<V>>, x: nat, d: nat)
    requires Known(cells) && CellsHold(cells) && x < |cells| && Handled(cells, x) && d < |cells|
    ensures OriginHolds(Finishing(cells, x), d)
  {
    assert CellHolds(cells, x) && CellHolds(cells, d);
  }

  /** May `callback` be registered with `x`? Either by user code, or by a `then` whose function returned `x`. */
  ghost predicate Attachable<V>(cells: seq<Cell<V>>, x: nat, callback: Callback)
    requires x < |cells|
  {
    && cells[x].callback == Nothing
    && match callback
       case User => true
       case Forward(c) =>
         && c < |cells| && !cells[c].resolved && cells[c].origin.ThenOf?
         && var s := cells[c].origin.s;
            s < |cells| && Started(cells[s]) && cells[s].value.Ok? && cells[c].origin.g(cells[s].value.value) == x
       case _ => false
  }

  lemma AttachingHolds<V(!new)>(cells: seq<Cell<V>>, x: nat, callback: Callback)
    requires Known(cells) && CellsHold(cells) && x < |cells| && Attachable(cells, x, callback)
    ensures var next := Attaching(cells, x, callback);
      Known(next) && CellsHold(next) && (cells[x].resolved ==> Ready(next, x))
  {
    var next := Attaching(cells, x, callback);
    forall y | 0 <= y < |next| ensures CellHolds(next, y) {
      assert CellHolds(cells, x) && CellHolds(cells, y);
      AttachingKeepsOrigin(cells, x, callback, y);
    }
  }

  lemma AttachingKeepsOrigin<V(!new)>(cells: seq<Cell<V>>, x: nat, callback: Callback, d: nat)
    requires Known(cells) && CellsHold(cells) && x < |cells| && Attachable(cells, x, callback) && d < |cells|
    ensures OriginHolds(Attaching(cells, x, callback), d)
  {
    assert CellHolds(cells, x) && CellHolds(cells, d);
  }

  /** map and then: a new cell, and the callback that leads to it. */
  function Deriving<V>(cells: seq<Cell<V>>, x: nat, origin: Origin<V>): seq<Cell<V>>
    requires x < |cells|
  {
    Attaching(cells, x, if origin.MapOf? then ToMap(|cells|) else ToThen(|cells|)) + [Unresolved(origin)]
  }

  const NOT_INITIALIZED := 1

  function Unresolved<V>(origin: Origin<V>): Cell<V>
  {
    Cell(origin, false, Err(NOT_INITIALIZED), Nothing, Idle)
  }

  ghost predicate Derives<V(!new)>(cells: seq<Cell<V>>, x: nat, origin: Origin<V>)
  {
    match origin
    case Source => false
    case MapOf(s, _) => s == x
    case ThenOf(s, g) => s == x && forall v :: g(v) < |cells|
  }

  lemma DerivingHolds<V(!new)>(cells: seq<Cell<V>>, x: nat, origin: Origin<V>)
    requires Known(cells) && CellsHold(cells) && x < |cells| && cells[x].callback == Nothing
      && Derives(cells, x, origin)
    ensures var next := Deriving(cells, x, origin);
      Known(next) && CellsHold(next) && (cells[x].resolved ==> Ready(next, x))
  {
    var next := Deriving(cells, x, origin);
    forall y | 0 <= y < |next| ensures CellHolds(next, y) {
      assert CellHolds(cells, x);
      DerivingKeepsOrigin(cells, x, origin, y);
      if y < |cells| {
        assert CellHolds(cells, y);
      }
    }
  }

  lemma DerivingKeepsOrigin<V(!new)>(cells: seq<Cell<V>>, x: nat, origin: Origin<V>, d: nat)
    requires Known(cells) && CellsHold(cells) && x < |cells| && cells[x].callback == Nothing
      && Derives(cells, x, origin)
    requires d <= |cells|
    ensures OriginHolds(Deriving(cells, x, origin), d)
  {
    assert CellHolds(cells, x);
    if d < |cells| {
      assert CellHolds(cells, d);
    } else if origin.ThenOf? && cells[x].value.Ok? {
      assert CellHolds(cells, origin.g(cells[x].value.value));
    }
  }

  /** The one try that a step of `x` is: to register a callback or to resolve. */
  ghost predicate Tries<V>(was: Cell<V>, now: Cell<V>, x: nat, e: Event<V>)
  {
    || (e == Listening(x) && was.callback == Nothing && now.callback != Nothing && now.resolved == was.resolved)
    || (e == Settling(x) && !was.resolved && now.resolved && now.callback == was.callback)
  }

  /** Only `x` has moved, by `e`; new cells are untouched, and made from `x` if from anything. */
  ghost predicate Moves<V>(cells: seq<Cell<V>>, next: seq<Cell<V>>, x: nat, e: Event<V>)
  {
    && x < |cells| <= |next|
    && !Started(cells[x]) && next[x].origin == cells[x].origin && next[x].phase != Done
      && Tries(cells[x], next[x], x, e)
    && (forall y :: 0 <= y < |cells| && y != x ==> next[y] == cells[y])
    && (forall y :: |cells| <= y < |next| ==>
          !Started(next[y]) && !next[y].resolved && next[y].callback == Nothing
            && (next[y].origin.Source? || next[y].origin.s == x))
  }

  lemma TriesAreHeard<V(!new)>(cells: seq<Cell<V>>, next: seq<Cell<V>>, x: nat, log: Log<V>, e: Event<V>)
    requires HeardTries(cells, log) && Moves(cells, next, x, e)
    ensures HeardTries(next, Entering(next, x, After(log, e)))
  {
  }

  lemma ResultsAreHeard<V(!new)>(cells: seq<Cell<V>>, next: seq<Cell<V>>, x: nat, log: Log<V>, e: Event<V>)
    requires HeardResults(cells, log) && Moves(cells, next, x, e)
    ensures HeardResults(next, Entering(next, x, After(log, e)))
  {
  }

  lemma ValuesAreHeard<V(!new)>(cells: seq<Cell<V>>, next: seq<Cell<V>>, x: nat, log: Log<V>, e: Event<V>)
    requires HeardValues(cells, log) && Moves(cells, next, x, e) && CellsHold(next)
    ensures HeardValues(next, Entering(next, x, After(log, e)))
  {
    var after := Entering(next, x, After(log, e));
    assert CellHolds(next, x);
    forall c: nat, v ensures Times(after, Applied(c, v)) ==
      if c < |next| && !next[c].origin.Source? && next[c].origin.s < |next|
         && Started(next[next[c].origin.s]) && next[next[c].origin.s].value == Ok(v) then 1 else 0 {
      if c < |next| {
        assert CellHolds(next, c);
      }
    }
  }

  /** When `x` gets its callback or its value, what is heard is that, and what its callback's start makes heard. */
  lemma EnteringIsHeard<V(!new)>(cells: seq<Cell<V>>, next: seq<Cell<V>>, x: nat, log: Log<V>, e: Event<V>)
    requires Heard(cells, log) && CellsHold(next) && Moves(cells, next, x, e)
    ensures x < |next| && Heard(next, Entering(next, x, After(log, e)))
  {
    hide Moves, HeardTries, HeardResults, HeardValues, Entering, CellsHold;
    MovesIsThere(cells, next, x, e);
    TriesAreHeard(cells, next, x, log, e);
    ResultsAreHeard(cells, next, x, log, e);
    ValuesAreHeard(cells, next, x, log, e);
  }

  lemma MovesIsThere<V(!new)>(cells: seq<Cell<V>>, next: seq<Cell<V>>, x: nat, e: Event<V>)
    requires Moves(cells, next, x, e)
    ensures x < |next|
  {
  }

  lemma FinishingIsHeard<V(!new)>(cells: seq<Cell<V>>, x: nat, log: Log<V>)
    requires Heard(cells, log) && x < |cells| && cells[x].phase == Running
    ensures Heard(Finishing(cells, x), log)
  {
  }

  lemma NewSourceHolds<V(!new)>(cells: seq<Cell<V>>, log: Log<V>)
    requires Inv(cells, log)
    ensures Inv(cells + [Unresolved(Source)], log)
  {
    var next := cells + [Unresolved(Source)];
    forall y | 0 <= y < |next| ensures CellHolds(next, y) {
      assert y < |cells| ==> CellHolds(cells, y);
    }
    assert forall c :: 0 <= c < |cells| ==> CellHolds(cells, c);
  }

  // ----- what calls from inside calls may change

  /** Values and callbacks stay; a callback that was running still is, and no other is. */
  ghost predicate Grew<V>(was: seq<Cell<V>>, now: seq<Cell<V>>)
  {
    && |now| == |was| && Left(now, |now|) <= Left(was, |was|)
    && forall x :: 0 <= x < |was| ==> CellGrew(was[x], now[x])
  }

  ghost predicate CellGrew<V>(was: Cell<V>, now: Cell<V>)
  {
    && now.origin == was.origin
    && (was.resolved ==> now.resolved && now.value == was.value)
    && (was.callback != Nothing ==> now.callback == was.callback)
    && (was.phase == Running <==> now.phase == Running)
    && (was.phase == Done ==> now.phase == Done)
  }

  lemma GrewTwice<V>(a: seq<Cell<V>>, b: seq<Cell<V>>, c: seq<Cell<V>>)
    requires Grew(a, b) && Grew(b, c)
    ensures Grew(a, c)
  {
    forall x | 0 <= x < |a| ensures CellGrew(a[x], c[x]) {
      assert CellGrew(a[x], b[x]) && CellGrew(b[x], c[x]);
    }
  }

  /** How many values and callbacks are still missing. */
  function Left<V>(cells: seq<Cell<V>>, k: nat): nat
    requires k <= |cells|
  {
    if k == 0 then 0
    else
      Left(cells, k - 1) + (if cells[k - 1].resolved then 0 else 1) + (if cells[k - 1].callback.Nothing? then 1 else 0)
  }

  lemma {:induction false} LeftAfter<V>(cells: seq<Cell<V>>, x: nat, cell: Cell<V>, k: nat)
    requires k <= |cells| && x < |cells|
    requires cells[x].resolved ==> cell.resolved
    requires cells[x].callback != Nothing ==> cell.callback != Nothing
    ensures Left(cells[x := cell], k) <= Left(cells, k)
    ensures x < k && (cells[x].resolved != cell.resolved || cells[x].callback.Nothing? != cell.callback.Nothing?) ==>
              Left(cells[x := cell], k) < Left(cells, k)
  {
    if k > 0 {
      LeftAfter(cells, x, cell, k - 1);
    }
  }

  lemma {:induction false} LeftIgnoresPhase<V>(cells: seq<Cell<V>>, x: nat, k: nat)
    requires x < |cells| && k <= |cells|
    ensures Left(Finishing(cells, x), k) == Left(cells, k)
  {
    if k > 0 {
      LeftIgnoresPhase(cells, x, k - 1);
    }
  }

  // ----- what it means

  function Outcome<V>(cell: Cell<V>): Option<Result<V>>
  {
    if cell.resolved then Some(cell.value) else None
  }

  ghost predicate AllRest<V>(cells: seq<Cell<V>>)
  {
    forall x :: 0 <= x < |cells| ==> cells[x].phase != Running
  }

  /** The pure chain: what `c` should be, from what the sources are so far. */
  ghost function Meaning<V(!new)>(cells: seq<Cell<V>>, c: nat): Option<Result<V>>
    requires Known(cells) && c < |cells|
    decreases c
  {
    match cells[c].origin
    case Source => Outcome(cells[c])
    case MapOf(s, f) =>
      (match Meaning(cells, s)
       case None => None
       case Some(Ok(v)) => Some(Ok(f(v)))
       case Some(Err(code)) => Some(Err(code)))
    case ThenOf(s, g) =>
      match Meaning(cells, s)
      case None => None
      case Some(Err(code)) => Some(Err(code))
      case Some(Ok(v)) => Meaning(cells, g(v))
  }

  /** Between calls every deferred is what the pure chain says, whatever the order of calls has been. */
  lemma {:induction false} EveryDeferredIsItsMeaning<V(!new)>(cells: seq<Cell<V>>, c: nat)
    requires Known(cells) && CellsHold(cells) && AllRest(cells) && c < |cells|
    ensures Outcome(cells[c]) == Meaning(cells, c)
    decreases c
  {
    assert CellHolds(cells, c);
    match cells[c].origin
    case Source =>
    case MapOf(s, f) =>
      EveryDeferredIsItsMeaning(cells, s);
      assert CellHolds(cells, s);
    case ThenOf(s, g) =>
      EveryDeferredIsItsMeaning(cells, s);
      assert CellHolds(cells, s);
      if cells[s].resolved && cells[s].value.Ok? {
        var u := g(cells[s].value.value);
        EveryDeferredIsItsMeaning(cells, u);
        assert CellHolds(cells, u);
      }
  }

  /** User code has heard what the pure chain says, once, and heard of nothing else. */
  lemma UserHearsTheMeaning<V(!new)>(cells: seq<Cell<V>>, log: Log<V>, x: nat, r: Result<V>)
    requires Inv(cells, log) && AllRest(cells) && x < |cells|
    ensures Times(log, Called(x, r)) == if cells[x].callback == User && Meaning(cells, x) == Some(r) then 1 else 0
  {
    assert CellHolds(cells, x);
    EveryDeferredIsItsMeaning(cells, x);
  }

  /** A function given to map or then is called once, with the value of its source, and never for an error. */
  lemma FunctionsSeeTheMeaning<V(!new)>(cells: seq<Cell<V>>, log: Log<V>, c: nat, v: V)
    requires Inv(cells, log) && AllRest(cells) && c < |cells| && !cells[c].origin.Source?
    ensures Times(log, Applied(c, v)) == if Meaning(cells, cells[c].origin.s) == Some(Ok(v)) then 1 else 0
  {
    var s := cells[c].origin.s;
    assert CellHolds(cells, c) && CellHolds(cells, s);
    EveryDeferredIsItsMeaning(cells, s);
  }

  // ----- the reference: what a program does

  datatype Call<V> = CallOn(x: nat) | CallResolve(x: nat, result: Result<V>)

  datatype Command<!V> = New | Map(x: nat, f: V -> V) | Then(x: nat, g: V -> nat) | Use(call: Call<V>)

  /** The CHECKs that a program can make fail: a second listener, a second resolution. */
  datatype Fault = NoFault | ListenedTwice(x: nat) | ResolvedTwice(x: nat)

  datatype Store<!V> = Store(cells: seq<Cell<V>>, log: Log<V>, fault: Fault)

  type UserCode<!V> = Log<V> -> seq<Call<V>>

  /** A failed CHECK ends the run; a step on a deferred that is not there does not happen. */
  function Resolved<V>(s: Store<V>, c: nat, r: Result<V>, react: UserCode<V>): (t: Store<V>)
    ensures |t.cells| == |s.cells| && Left(t.cells, |t.cells|) <= Left(s.cells, |s.cells|)
    decreases Left(s.cells, |s.cells|), 0, 0, 0
  {
    if c >= |s.cells| then s
    else if s.cells[c].resolved then s.(log := After(s.log, Settling(c)), fault := ResolvedTwice(c))
    else
      var cells := Resolving(s.cells, c, r);
      LeftAfter(s.cells, c, cells[c], |cells|);
      Awoken(Store(cells, Entering(cells, c, After(s.log, Settling(c))), s.fault), c, react)
  }

  function Registered<V>(s: Store<V>, x: nat, callback: Callback, react: UserCode<V>): (t: Store<V>)
    ensures |t.cells| == |s.cells| && Left(t.cells, |t.cells|) <= Left(s.cells, |s.cells|)
    decreases Left(s.cells, |s.cells|), 0, 0, 0
  {
    if x >= |s.cells| || callback.Nothing? then s
    else if !s.cells[x].callback.Nothing? then s.(log := After(s.log, Listening(x)), fault := ListenedTwice(x))
    else
      var cells := Attaching(s.cells, x, callback);
      LeftAfter(s.cells, x, cells[x], |cells|);
      Awoken(Store(cells, Entering(cells, x, After(s.log, Listening(x))), s.fault), x, react)
  }

  /** The callback of `x` runs if it was woken, and then is done. */
  function Awoken<V>(s: Store<V>, x: nat, react: UserCode<V>): (t: Store<V>)
    requires x < |s.cells|
    ensures |t.cells| == |s.cells| && Left(t.cells, |t.cells|) <= Left(s.cells, |s.cells|)
    decreases Left(s.cells, |s.cells|), 1, 0, 0
  {
    if s.cells[x].phase != Running then s
    else
      var t := CallbackRun(s, x, react);
      if t.fault != NoFault then t
      else
        LeftIgnoresPhase(t.cells, x, |t.cells|);
        t.(cells := Finishing(t.cells, x))
  }

  function CallbackRun<V>(s: Store<V>, x: nat, react: UserCode<V>): (t: Store<V>)
    requires x < |s.cells|
    ensures |t.cells| == |s.cells| && Left(t.cells, |t.cells|) <= Left(s.cells, |s.cells|)
    decreases Left(s.cells, |s.cells|), 0, 2, 0
  {
    match s.cells[x].callback
    case Nothing => s
    case User => Served(s, react(s.log), react)
    case ToMap(c) =>
      if c < |s.cells| && s.cells[c].origin.MapOf?
      then Resolved(s, c, Mapped(s.cells[x].value, s.cells[c].origin.f), react) else s
    case ToThen(c) =>
      if s.cells[x].value.Err? then Resolved(s, c, s.cells[x].value, react)
      else if c < |s.cells| && s.cells[c].origin.ThenOf?
      then Registered(s, s.cells[c].origin.g(s.cells[x].value.value), Forward(c), react)
      else s
    case Forward(c) => Resolved(s, c, s.cells[x].value, react)
  }

  /** The calls that user code makes, up to a failing CHECK. */
  function Served<V>(s: Store<V>, calls: seq<Call<V>>, react: UserCode<V>): (t: Store<V>)
    ensures |t.cells| == |s.cells| && Left(t.cells, |t.cells|) <= Left(s.cells, |s.cells|)
    decreases Left(s.cells, |s.cells|), 0, 1, |calls|
  {
    if calls == [] || s.fault != NoFault then s else Served(Performed(s, calls[0], react), calls[1..], react)
  }

  /** User code resolves only sources; what map and then made is resolved by them. */
  function Performed<V>(s: Store<V>, call: Call<V>, react: UserCode<V>): (t: Store<V>)
    ensures |t.cells| == |s.cells| && Left(t.cells, |t.cells|) <= Left(s.cells, |s.cells|)
    decreases Left(s.cells, |s.cells|), 0, 0, 1
  {
    match call
    case CallOn(x) => Registered(s, x, User, react)
    case CallResolve(x, r) => if x < |s.cells| && s.cells[x].origin.Source? then Resolved(s, x, r, react) else s
  }

  /** map() and then(): a new cell that the callback of `x` leads to. */
  function Derived<V>(s: Store<V>, x: nat, origin: Origin<V>, react: UserCode<V>): Store<V>
  {
    if x >= |s.cells| then s
    else if !s.cells[x].callback.Nothing? then s.(log := After(s.log, Listening(x)), fault := ListenedTwice(x))
    else
      var cells := Deriving(s.cells, x, origin);
      Awoken(Store(cells, Entering(cells, x, After(s.log, Listening(x))), s.fault), x, react)
  }

  /** A function given to then() can only return a deferred that exists; one it cannot return stands for the first. */
  function Existing<V>(g: V -> nat, n: nat): V -> nat
  {
    v => if g(v) < n then g(v) else 0
  }

  function Obeyed<V>(s: Store<V>, command: Command<V>, react: UserCode<V>): Store<V>
  {
    match command
    case New => s.(cells := s.cells + [Unresolved(Source)])
    case Map(x, f) => Derived(s, x, MapOf(x, f), react)
    case Then(x, g) => Derived(s, x, ThenOf(x, Existing(g, |s.cells|)), react)
    case Use(call) => Performed(s, call, react)
  }

  /** A whole program, up to its first failing CHECK. */
  function Interpreted<V>(s: Store<V>, commands: seq<Command<V>>, react: UserCode<V>): Store<V>
    decreases |commands|
  {
    if commands == [] || s.fault != NoFault then s else Interpreted(Obeyed(s, commands[0], react), commands[1..], react)
  }

  /** Nobody tries to register or to resolve a second time. */
  ghost predicate NeverTwice<V(!new)>(log: Log<V>)
  {
    forall x: nat :: Times(log, Listening(x)) <= 1 && Times(log, Settling(x)) <= 1
  }

  /** The run ended with the second try at `e`, the only one made twice. */
  ghost predicate EndsWithTwice<V(!new)>(log: Log<V>, e: Event<V>)
  {
    log.After? && log.event == e && Times(log, e) == 2 && NeverTwice(log.before)
  }

  /** The fault is what the log says: none while no try is a second one, else the second one. */
  ghost predicate FaultTells<V(!new)>(s: Store<V>)
  {
    match s.fault
    case NoFault => NeverTwice(s.log)
    case ListenedTwice(x) => EndsWithTwice(s.log, Listening(x))
    case ResolvedTwice(x) => EndsWithTwice(s.log, Settling(x))
  }

  lemma InvNeverTwice<V(!new)>(cells: seq<Cell<V>>, log: Log<V>)
    requires Heard(cells, log)
    ensures NeverTwice(log)
  {
  }

  /**
   All deferreds of a program, by number. `react` is the user code behind the callbacks of on():
   what it registers and resolves when it is called. User code resolves only sources. A failing
   CHECK sets `fault`, and that is the end of the run.
   */
  class Deferreds<V(==, !new)> {
    const react: UserCode<V>
    var cells: seq<Cell<V>>
    var log: Log<V>
    var fault: Fault

    function S(): Store<V>
      reads this
    {
      Store(cells, log, fault)
    }

    ghost predicate Valid()
      reads this
    {
      FaultTells(S()) && (fault == NoFault ==> Inv(cells, log))
    }

    /** No callback is on the stack. */
    ghost predicate Resting()
      reads this
    {
      Valid() && (fault == NoFault ==> AllRest(cells))
    }

    constructor (react: UserCode<V>)
      ensures Resting() && S() == Store([], Start, NoFault) && this.react == react
    {
      this.react := react;
      cells, log, fault := [], Start, NoFault;
    }

    /** resolve(): the value is set, and the callback, if there is one, runs. */
    method Resolve(c: nat, r: Result<V>)
      requires Inv(cells, log) && fault == NoFault && c < |cells| && (!cells[c].resolved ==> Due(cells, c, r))
      modifies this`cells, this`log, this`fault
      ensures S() == Resolved(old(S()), c, r, react)
      ensures Valid() && (fault == NoFault ==> Grew(old(cells), cells) && cells[c].resolved && cells[c].value == r)
      decreases Left(cells, |cells|), 0, -1
    {
      hide CellsHold, Known, Heard, Grew, Ready;
      if cells[c].resolved {
        SecondTry(cells, log, c);
        log := After(log, Settling(c));
        fault := ResolvedTwice(c);
        return;
      }
      ghost var was := cells;
      ResolvingHolds(cells, c, r);
      IsPrompt(cells, c);
      cells := Resolving(cells, c, r);
      EnteringIsHeard(was, cells, c, log, Settling(c));
      log := Entering(cells, c, After(log, Settling(c)));
      LeftAfter(was, c, cells[c], |was|);
      InvNeverTwice(cells, log);
      ghost var mid := cells;
      if !cells[c].callback.Nothing? {
        RunCallback(c);
      }
      if fault == NoFault {
        WokenGrew(was, mid, c, cells);
      }
    }

    /** on(): the callback is kept, or runs at once if there is a value. */
    method On(x: nat, callback: Callback)
      requires Inv(cells, log) && fault == NoFault && x < |cells| && callback != Nothing
      requires cells[x].callback.Nothing? ==> Attachable(cells, x, callback)
      modifies this`cells, this`log, this`fault
      ensures S() == Registered(old(S()), x, callback, react)
      ensures Valid() && (fault == NoFault ==> Grew(old(cells), cells) && cells[x].callback == callback)
      decreases Left(cells, |cells|), 0, -1
    {
      hide CellsHold, Known, Heard, Grew, Ready, Attachable, Entering, Due;
      if !cells[x].callback.Nothing? {
        SecondTry(cells, log, x);
        log := After(log, Listening(x));
        fault := ListenedTwice(x);
        return;
      }
      ghost var was := cells;
      AttachingHolds(cells, x, callback);
      IsPrompt(cells, x);
      cells := Attaching(cells, x, callback);
      EnteringIsHeard(was, cells, x, log, Listening(x));
      log := Entering(cells, x, After(log, Listening(x)));
      LeftAfter(was, x, cells[x], |was|);
      InvNeverTwice(cells, log);
      ghost var mid := cells;
      if cells[x].resolved {
        RunCallback(x);
      }
      if fault == NoFault {
        WokenGrew(was, mid, x, cells);
      }
    }

    lemma SecondTry(cells: seq<Cell<V>>, log: Log<V>, x: nat)
      requires Heard(cells, log) && x < |cells|
      ensures cells[x].resolved ==> EndsWithTwice(After(log, Settling(x)), Settling(x))
      ensures cells[x].callback != Nothing ==> EndsWithTwice(After(log, Listening(x)), Listening(x))
    {
    }

    lemma IsPrompt(cells: seq<Cell<V>>, x: nat)
      requires CellsHold(cells) && x < |cells|
      ensures Prompt(cells[x])
    {
      assert CellHolds(cells, x);
    }

    /** One cell moved on, and its callback, if it was to run, has run. */
    lemma WokenGrew(was: seq<Cell<V>>, mid: seq<Cell<V>>, x: nat, now: seq<Cell<V>>)
      requires x < |was| == |mid| && mid == was[x := mid[x]] && Left(mid, |mid|) <= Left(was, |was|)
      requires mid[x].phase == Running ==> Grew(Finishing(mid, x), now)
      requires mid[x].phase != Running ==> now == mid
      requires was[x].phase == Idle && mid[x].phase != Done && mid[x].origin == was[x].origin
      requires was[x].resolved ==> mid[x].resolved && mid[x].value == was[x].value
      requires was[x].callback != Nothing ==> mid[x].callback == was[x].callback
      ensures Grew(was, now)
      ensures mid[x].resolved ==> now[x].resolved && now[x].value == mid[x].value
      ensures mid[x].callback != Nothing ==> now[x].callback == mid[x].callback
    {
      if mid[x].phase == Running {
        var done := Finishing(mid, x);
        LeftAfter(mid, x, done[x], |mid|);
        assert Grew(was, done);
        assert CellGrew(done[x], now[x]);
        GrewTwice(was, done, now);
      }
    }

    /** The callback of `x` runs, and then is done. */
    method RunCallback(x: nat)
      requires Inv(cells, log) && fault == NoFault && x < |cells| && Ready(cells, x)
      modifies this`cells, this`log, this`fault
      ensures S() == Awoken(old(S()), x, react)
      ensures Valid() && (fault == NoFault ==> Grew(Finishing(old(cells), x), cells))
      decreases Left(cells, |cells|), 1, 0
    {
      hide Heard, CellsHold, Known, CallbackRun;
      ghost var was := cells;
      Callback(x);
      if fault != NoFault {
        return;
      }
      FinishingHolds(cells, x);
      FinishingIsHeard(cells, x, log);
      ghost var now := cells;
      cells := Finishing(cells, x);
      FinishedGrew(was, now, x);
      InvNeverTwice(cells, log);
    }

    /** User code, or what map and then registered. */
    method Callback(x: nat)
      requires Inv(cells, log) && fault == NoFault && x < |cells| && Ready(cells, x)
      modifies this`cells, this`log, this`fault
      ensures S() == CallbackRun(old(S()), x, react)
      ensures Valid() && (fault == NoFault ==> Grew(old(cells), cells) && Handled(cells, x))
      decreases Left(cells, |cells|), 0, 2
    {
      hide Heard, CellsHold, Known, Due, Attachable, Resolved, Registered, Served;
      ghost var was := cells;
      IsPrompt(cells, x);
      match cells[x].callback {
        case User =>
          UserCode();
        case ToMap(c) =>
          DueAfterMap(cells, x, c);
          Resolve(c, Mapped(cells[x].value, cells[c].origin.f));
        case ToThen(c) =>
          DueAfterThen(cells, x, c);
          match cells[x].value {
            case Err(_) =>
              Resolve(c, cells[x].value);
            case Ok(v) =>
              On(cells[c].origin.g(v), Forward(c));
          }
        case Forward(c) =>
          DueAfterForward(cells, x, c);
          Resolve(c, cells[x].value);
      }
      if fault == NoFault {
        assert CellGrew(was[x], cells[x]);
        assert was[x].callback.ToThen? ==> CellGrew(was[was[x].callback.c], cells[was[x].callback.c]);
      }
    }

    lemma DueAfterMap(cells: seq<Cell<V>>, x: nat, c: nat)
      requires CellsHold(cells) && x < |cells| && Ready(cells, x) && cells[x].callback == ToMap(c)
      ensures c < |cells| && cells[c].origin.MapOf? && Due(cells, c, Mapped(cells[x].value, cells[c].origin.f))
    {
      assert CellHolds(cells, x) && CellHolds(cells, c);
    }

    lemma DueAfterThen(cells: seq<Cell<V>>, x: nat, c: nat)
      requires Known(cells) && CellsHold(cells) && x < |cells| && Ready(cells, x) && cells[x].callback == ToThen(c)
      ensures c < |cells| && cells[c].origin.ThenOf?
      ensures match cells[x].value
        case Err(_) => Due(cells, c, cells[x].value)
        case Ok(v) =>
          var u := cells[c].origin.g(v);
          u < |cells| && (cells[u].callback.Nothing? ==> Attachable(cells, u, Forward(c)))
    {
      assert CellHolds(cells, x);
    }

    lemma DueAfterForward(cells: seq<Cell<V>>, x: nat, c: nat)
      requires CellsHold(cells) && x < |cells| && Ready(cells, x) && cells[x].callback == Forward(c)
      ensures c < |cells| && Due(cells, c, cells[x].value)
    {
      assert CellHolds(cells, x);
    }

    lemma FinishedGrew(was: seq<Cell<V>>, now: seq<Cell<V>>, x: nat)
      requires Grew(was, now) && x < |was| && was[x].phase == Running
      ensures Grew(Finishing(was, x), Finishing(now, x))
    {
      LeftIgnoresPhase(was, x, |was|);
      LeftIgnoresPhase(now, x, |now|);
      forall y | 0 <= y < |was| ensures CellGrew(Finishing(was, x)[y], Finishing(now, x)[y]) {
        assert CellGrew(was[y], now[y]);
      }
    }

    /** User code registers callbacks and resolves sources, from inside its own callback. */
    method UserCode()
      requires Inv(cells, log) && fault == NoFault
      modifies this`cells, this`log, this`fault
      ensures S() == Served(old(S()), react(old(log)), react)
      ensures Valid() && (fault == NoFault ==> Grew(old(cells), cells))
      decreases Left(cells, |cells|), 0, 1
    {
      hide Inv;
      var calls := react(log);
      assert Grew(cells, cells);
      InvTells(S());
      for i := 0 to |calls|
        invariant Valid() && (fault == NoFault ==> Grew(old(cells), cells))
        invariant Served(S(), calls[i..], react) == Served(old(S()), calls, react)
      {
        assert fault == NoFault ==> calls[i..][1..] == calls[i + 1..];
        if fault == NoFault {
          ghost var before := cells;
          Perform(calls[i]);
          if fault == NoFault {
            GrewTwice(old(cells), before, cells);
          }
        } else {
          return;
        }
      }
    }

    lemma InvTells(s: Store<V>)
      requires Inv(s.cells, s.log) && s.fault == NoFault
      ensures FaultTells(s)
    {
    }

    method Perform(call: Call<V>)
      requires Inv(cells, log) && fault == NoFault
      modifies this`cells, this`log, this`fault
      ensures S() == Performed(old(S()), call, react)
      ensures Valid() && (fault == NoFault ==> Grew(old(cells), cells))
      decreases Left(cells, |cells|), 0, 0
    {
      assert Grew(cells, cells);
      InvTells(S());
      match call {
        case CallOn(x) =>
          if x < |cells| {
            On(x, User);
          }
        case CallResolve(x, r) =>
          if x < |cells| && cells[x].origin.Source? {
            Resolve(x, r);
          }
      }
    }

    // ----- from outside

    method NewSource()
      requires Resting() && fault == NoFault
      modifies this`cells
      ensures Resting() && S() == Obeyed(old(S()), New, react)
    {
      NewSourceHolds(cells, log);
      cells := cells + [Unresolved(Source)];
    }

    /** map() and then(): a new deferred, and a callback registered with `x`. */
    method Derive(x: nat, origin: Origin<V>)
      requires Resting() && fault == NoFault && x < |cells| && Derives(cells, x, origin)
      modifies this`cells, this`log, this`fault
      ensures Resting() && S() == Derived(old(S()), x, origin, react)
    {
      hide CellsHold, Known, Heard, Grew, Ready, Entering, Due;
      if !cells[x].callback.Nothing? {
        SecondTry(cells, log, x);
        log := After(log, Listening(x));
        fault := ListenedTwice(x);
        return;
      }
      ghost var was := cells;
      DerivingHolds(cells, x, origin);
      IsPrompt(cells, x);
      cells := Deriving(cells, x, origin);
      EnteringIsHeard(was, cells, x, log, Listening(x));
      log := Entering(cells, x, After(log, Listening(x)));
      InvNeverTwice(cells, log);
      ghost var mid := cells;
      if cells[x].resolved {
        RunCallback(x);
        if fault == NoFault {
          RestsAgain(mid, x, cells);
        }
      }
    }

    lemma RestsAgain(mid: seq<Cell<V>>, x: nat, now: seq<Cell<V>>)
      requires x < |mid| && Grew(Finishing(mid, x), now)
      requires forall y :: 0 <= y < |mid| && y != x ==> mid[y].phase != Running
      ensures AllRest(now)
    {
      forall y | 0 <= y < |now| ensures now[y].phase != Running {
        assert CellGrew(Finishing(mid, x)[y], now[y]);
      }
    }

    method Obey(command: Command<V>)
      requires Resting() && fault == NoFault
      modifies this`cells, this`log, this`fault
      ensures Resting() && S() == Obeyed(old(S()), command, react)
    {
      match command {
        case New =>
          NewSource();
        case Map(x, f) =>
          if x < |cells| {
            Derive(x, MapOf(x, f));
          }
        case Then(x, g) =>
          if x < |cells| {
            Derive(x, ThenOf(x, Existing(g, |cells|)));
          }
        case Use(call) =>
          ghost var was := cells;
          Perform(call);
          if fault == NoFault {
            assert forall y :: 0 <= y < |was| ==> CellGrew(was[y], cells[y]);
          }
      }
    }

    /**
     Any program: deferreds made, chained, listened to and resolved in any order. It does what
     the reference says; a CHECK fails exactly when somebody tries to register with or to resolve
     a deferred a second time; and until then every deferred is its meaning.
     */
    method Run(commands: seq<Command<V>>)
      requires S() == Store([], Start, NoFault)
      modifies this`cells, this`log, this`fault
      ensures S() == Interpreted(Store([], Start, NoFault), commands, react)
      ensures fault == NoFault <==> NeverTwice(log)
      ensures forall x: nat :: fault == ListenedTwice(x) <==> Times(log, Listening(x)) == 2
      ensures forall x: nat :: fault == ResolvedTwice(x) <==> Times(log, Settling(x)) == 2
      ensures fault == NoFault ==> Known(cells)
      ensures fault == NoFault ==> forall c :: 0 <= c < |cells| ==> Outcome(cells[c]) == Meaning(cells, c)
      ensures fault == NoFault ==> forall x: nat, r :: x < |cells| ==>
                Times(log, Called(x, r)) == if cells[x].callback == User && Meaning(cells, x) == Some(r) then 1 else 0
      ensures fault == NoFault ==> forall c: nat, v :: c < |cells| && !cells[c].origin.Source? ==>
                Times(log, Applied(c, v)) == if Meaning(cells, cells[c].origin.s) == Some(Ok(v)) then 1 else 0
    {
      for i := 0 to |commands|
        invariant Resting()
        invariant Interpreted(S(), commands[i..], react) == Interpreted(Store([], Start, NoFault), commands, react)
      {
        if fault == NoFault {
          assert commands[i..][1..] == commands[i + 1..];
          Obey(commands[i]);
        }
      }
      if fault == NoFault {
        WhatRestMeans();
      }
    }

    lemma WhatRestMeans()
      requires Resting() && fault == NoFault
      ensures Known(cells)
      ensures forall c :: 0 <= c < |cells| ==> Outcome(cells[c]) == Meaning(cells, c)
      ensures forall x: nat, r :: x < |cells| ==>
                Times(log, Called(x, r)) == if cells[x].callback == User && Meaning(cells, x) == Some(r) then 1 else 0
      ensures forall c: nat, v :: c < |cells| && !cells[c].origin.Source? ==>
                Times(log, Applied(c, v)) == if Meaning(cells, cells[c].origin.s) == Some(Ok(v)) then 1 else 0
    {
      forall c | 0 <= c < |cells| ensures Outcome(cells[c]) == Meaning(cells, c) {
        EveryDeferredIsItsMeaning(cells, c);
      }
      forall x: nat, r | x < |cells|
        ensures Times(log, Called(x, r)) == if cells[x].callback == User && Meaning(cells, x) == Some(r) then 1 else 0
      {
        UserHearsTheMeaning(cells, log, x, r);
      }
      forall c: nat, v | c < |cells| && !cells[c].origin.Source?
        ensures Times(log, Applied(c, v)) == if Meaning(cells, cells[c].origin.s) == Some(Ok(v)) then 1 else 0
      {
        FunctionsSeeTheMeaning(cells, log, c, v);
      }
    }
  }
}
