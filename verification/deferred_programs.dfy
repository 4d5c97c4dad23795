/** That deferreds are made, listened to and resolved as the program and its callbacks say, and not otherwise. */
module DeferredPrograms {
  import opened Histories
  import opened Deferreds

  /** The call has had its effect. */
  predicate Done<V(==)>(cells: seq<Cell<V>>, call: Call<V>)
  {
    call.x < |cells| &&
    match call
    case CallOn(x) => cells[x].callback == User
    case CallResolve(x, r) => cells[x].origin.Source? ==> cells[x].resolved && cells[x].value == r
  }

  /** What is there stays: origins, values and callbacks. */
  ghost predicate Kept<V>(was: seq<Cell<V>>, now: seq<Cell<V>>)
  {
    && |was| <= |now|
    && forall x :: 0 <= x < |was| ==>
         && now[x].origin == was[x].origin
         && (was[x].resolved ==> now[x].resolved && now[x].value == was[x].value)
         && (was[x].callback != Nothing ==> now[x].callback == was[x].callback)
  }

  /** Some log between these two at which the user code behind a callback makes that call. */
  ghost predicate CalledBetween<V(!new)>(was: Log<V>, now: Log<V>, call: Call<V>, react: UserCode<V>)
  {
    exists l :: Continues(was, l) && Continues(l, now) && call in react(l)
  }

  predicate NewValue<V>(was: Cell<V>, now: Cell<V>)
  {
    now.origin.Source? && now.resolved && !was.resolved
  }

  /** New listeners and new values of sources come from calls of user code, of which `mine` may be one. */
  ghost predicate Justified<V(!new)>(s: Store<V>, t: Store<V>, mine: seq<Call<V>>, react: UserCode<V>)
  {
    && (forall x: nat :: x < |s.cells| <= |t.cells| && t.cells[x].callback == User && s.cells[x].callback != User ==>
          CallOn(x) in mine || CalledBetween(s.log, t.log, CallOn(x), react))
    && (forall x: nat :: x < |s.cells| <= |t.cells| && NewValue(s.cells[x], t.cells[x]) ==>
          var call := CallResolve(x, t.cells[x].value);
          call in mine || CalledBetween(s.log, t.log, call, react))
  }

  /** User code was called there. */
  ghost predicate CallsUser<V>(was: Log<V>, l: Log<V>, now: Log<V>)
  {
    l != was && Continues(was, l) && Continues(l, now) && l.After? && l.event.Called?
  }

  /** Whenever user code was called, all it calls has been done. */
  ghost predicate UserIsObeyed<V(!new)>(s: Store<V>, t: Store<V>, react: UserCode<V>)
  {
    forall l, call :: CallsUser(s.log, l, t.log) && call in react(l) && call.x < |t.cells| ==> Done(t.cells, call)
  }

  /** What every step of the reference does. */
  ghost predicate Does<V(!new)>(s: Store<V>, t: Store<V>, mine: seq<Call<V>>, react: UserCode<V>)
  {
    && Kept(s.cells, t.cells) && Continues(s.log, t.log) && Justified(s, t, mine, react)
    && (t.fault == NoFault ==> s.fault == NoFault && UserIsObeyed(s, t, react))
  }

  lemma DoneStays<V>(was: seq<Cell<V>>, now: seq<Cell<V>>, call: Call<V>)
    requires Kept(was, now) && Done(was, call)
    ensures Done(now, call)
  {
  }

  lemma CalledLater<V(!new)>(a: Log<V>, b: Log<V>, c: Log<V>, d: Log<V>, call: Call<V>, react: UserCode<V>)
    requires Continues(a, b) && CalledBetween(b, c, call, react) && Continues(c, d)
    ensures CalledBetween(a, d, call, react)
  {
    var l :| Continues(b, l) && Continues(l, c) && call in react(l);
    ContinuesTransitive(a, b, l);
    ContinuesTransitive(l, c, d);
  }

  /** A log between two others is on one side of any third one. */
  lemma {:induction false} OneSide<V>(l: Log<V>, mid: Log<V>, now: Log<V>)
    requires Continues(l, now) && Continues(mid, now)
    ensures Continues(l, mid) || (Continues(mid, l) && l != mid)
    decreases now
  {
    if l != now && mid != now {
      OneSide(l, mid, now.before);
    }
  }

  lemma DoesTwice<V(!new)>(a: Store<V>, b: Store<V>, c: Store<V>, first: seq<Call<V>>, second: seq<Call<V>>,
                           react: UserCode<V>)
    requires Does(a, b, first, react) && Does(b, c, second, react)
    requires |a.cells| == |b.cells| == |c.cells|
    ensures Does(a, c, first + second, react)
  {
    ContinuesTransitive(a.log, b.log, c.log);
    assert Continues(a.log, a.log) && Continues(c.log, c.log);
    JustifiedTwice(a, b, c, first, second, react);
    if c.fault == NoFault {
      forall l, call | CallsUser(a.log, l, c.log) && call in react(l) && call.x < |c.cells|
        ensures Done(c.cells, call) {
        OneSide(l, b.log, c.log);
        if Continues(l, b.log) {
          assert CallsUser(a.log, l, b.log);
          DoneStays(b.cells, c.cells, call);
        } else {
          assert CallsUser(b.log, l, c.log);
        }
      }
    }
  }

  lemma JustifiedTwice<V(!new)>(a: Store<V>, b: Store<V>, c: Store<V>, first: seq<Call<V>>, second: seq<Call<V>>,
                                react: UserCode<V>)
    requires Does(a, b, first, react) && Does(b, c, second, react)
    requires |a.cells| == |b.cells| == |c.cells|
    ensures Justified(a, c, first + second, react)
  {
    assert Continues(a.log, a.log) && Continues(c.log, c.log);
    forall x: nat | x < |a.cells| && c.cells[x].callback == User && a.cells[x].callback != User
      ensures CallOn(x) in first + second || CalledBetween(a.log, c.log, CallOn(x), react)
    {
      if b.cells[x].callback == User && CallOn(x) !in first {
        CalledLater(a.log, a.log, b.log, c.log, CallOn(x), react);
      } else if b.cells[x].callback != User && CallOn(x) !in second {
        CalledLater(a.log, b.log, c.log, c.log, CallOn(x), react);
      }
    }
    forall x: nat | x < |a.cells| && c.cells[x].origin.Source? && c.cells[x].resolved && !a.cells[x].resolved
      ensures var call := CallResolve(x, c.cells[x].value);
        call in first + second || CalledBetween(a.log, c.log, call, react)
    {
      var call := CallResolve(x, c.cells[x].value);
      if b.cells[x].resolved && call !in first {
        CalledLater(a.log, a.log, b.log, c.log, call, react);
      } else if !b.cells[x].resolved && call !in second {
        CalledLater(a.log, b.log, c.log, c.log, call, react);
      }
    }
  }

  // ----- the steps of the reference

  /** Callbacks between cells lead to cells that were made by map or then. */
  ghost predicate LeadsOn<V>(cells: seq<Cell<V>>, callback: Callback)
  {
    match callback
    case Nothing => true
    case User => true
    case ToMap(c) => c < |cells| && !cells[c].origin.Source?
    case ToThen(c) => c < |cells| && !cells[c].origin.Source?
    case Forward(c) => c < |cells| && !cells[c].origin.Source?
  }

  ghost predicate Linked<V>(cells: seq<Cell<V>>)
  {
    forall x :: 0 <= x < |cells| ==> LeadsOn(cells, cells[x].callback)
  }

  ghost predicate Fits<V(!new)>(s: Store<V>, t: Store<V>, mine: seq<Call<V>>, react: UserCode<V>)
  {
    Does(s, t, mine, react) && Linked(t.cells) && |t.cells| == |s.cells|
  }

  ghost predicate AllDone<V>(cells: seq<Cell<V>>, calls: seq<Call<V>>)
  {
    forall call :: call in calls && call.x < |cells| ==> Done(cells, call)
  }

  /** The callback of `x` is user code, about to run. */
  predicate CallsUserNow<V>(s: Store<V>, x: nat)
    requires x < |s.cells|
  {
    s.cells[x].phase == Running && s.cells[x].callback == User
  }

  lemma NothingDone<V(!new)>(s: Store<V>, t: Store<V>, mine: seq<Call<V>>, react: UserCode<V>)
    requires t.cells == s.cells && Linked(s.cells)
    requires t.log == s.log || (t.log.After? && t.log.before == s.log && !t.log.event.Called?)
    requires t.fault == NoFault ==> s.fault == NoFault
    ensures Fits(s, t, mine, react)
  {
    assert Continues(s.log, s.log);
    forall l | CallsUser(s.log, l, t.log) ensures false {
      if t.log != s.log {
        OneSide(l, s.log, t.log);
        BothWays(s.log, l);
      } else {
        BothWays(s.log, l);
      }
    }
  }

  lemma {:induction false} BothWays<V>(a: Log<V>, b: Log<V>)
    requires Continues(a, b) && Continues(b, a)
    ensures a == b
  {
    NotLonger(a, b);
    NotLonger(b, a);
    SameLength(a, b);
  }

  function Length<V>(log: Log<V>): nat
  {
    if log.Start? then 0 else 1 + Length(log.before)
  }

  lemma {:induction false} NotLonger<V>(a: Log<V>, b: Log<V>)
    requires Continues(a, b)
    ensures Length(a) <= Length(b)
    decreases b
  {
    if a != b {
      NotLonger(a, b.before);
    }
  }

  lemma SameLength<V>(a: Log<V>, b: Log<V>)
    requires Continues(a, b) && Length(a) == Length(b)
    ensures a == b
  {
    if a != b {
      NotLonger(a, b.before);
    }
  }

  /**
   A cell is resolved or listened to: the log grows by that and, if the callback is user code, by
   its being called; then the callback runs.
   */
  lemma StartedThenRun<V(!new)>(s: Store<V>, m: Store<V>, t: Store<V>, x: nat, e: Event<V>, mine: seq<Call<V>>,
                                react: UserCode<V>)
    requires x < |s.cells| == |m.cells| && !e.Called? && s.fault == m.fault == NoFault
    requires m.log == Entering(m.cells, x, After(s.log, e)) && Kept(s.cells, m.cells)
    requires forall y :: 0 <= y < |s.cells| && y != x ==> m.cells[y] == s.cells[y]
    requires m.cells[x].callback == User && s.cells[x].callback != User ==> CallOn(x) in mine
    requires m.cells[x].origin.Source? && m.cells[x].resolved && !s.cells[x].resolved ==>
      CallResolve(x, m.cells[x].value) in mine
    requires Fits(m, t, [], react) && (CallsUserNow(m, x) && t.fault == NoFault ==> AllDone(t.cells, react(m.log)))
    ensures Fits(s, t, mine, react)
  {
    var mid := After(s.log, e);
    assert Continues(s.log, mid) && Continues(mid, m.log) && Continues(s.log, s.log);
    ContinuesTransitive(s.log, mid, m.log);
    ContinuesTransitive(s.log, m.log, t.log);
    assert Justified(s, m, mine, react);
    if t.fault == NoFault {
      forall l, call | CallsUser(s.log, l, t.log) && call in react(l) && call.x < |t.cells|
        ensures Done(t.cells, call) {
        OneSide(l, m.log, t.log);
        if Continues(l, m.log) {
          CallsBeforeStart(s.log, l, e, m, x);
        } else {
          assert CallsUser(m.log, l, t.log);
        }
      }
    }
    forall y: nat | y < |s.cells| && t.cells[y].callback == User && s.cells[y].callback != User
      ensures CallOn(y) in mine || CalledBetween(s.log, t.log, CallOn(y), react)
    {
      if m.cells[y].callback != User {
        CalledLater(s.log, m.log, t.log, t.log, CallOn(y), react);
      }
    }
    forall y: nat | y < |s.cells| && t.cells[y].origin.Source? && t.cells[y].resolved && !s.cells[y].resolved
      ensures var call := CallResolve(y, t.cells[y].value);
        call in mine || CalledBetween(s.log, t.log, call, react)
    {
      if !m.cells[y].resolved {
        CalledLater(s.log, m.log, t.log, t.log, CallResolve(y, t.cells[y].value), react);
      }
    }
  }

  /** Up to the start, user code was called at most by that. */
  lemma CallsBeforeStart<V>(was: Log<V>, l: Log<V>, e: Event<V>, m: Store<V>, x: nat)
    requires x < |m.cells| && !e.Called? && m.log == Entering(m.cells, x, After(was, e))
    requires l != was && Continues(was, l) && Continues(l, m.log) && l.After? && l.event.Called?
    ensures l == m.log && CallsUserNow(m, x)
  {
    if l != m.log {
      var mid := After(was, e);
      if m.log != mid {
        assert Continues(l, mid);
      }
      assert l != mid && Continues(l, was);
      BothWays(was, l);
    } else if m.log == After(was, e) {
      assert false;
    }
  }

  lemma ResolvedDoes<V(!new)>(s: Store<V>, c: nat, r: Result<V>, react: UserCode<V>)
    requires s.fault == NoFault && Linked(s.cells)
    ensures var t := Resolved(s, c, r, react);
      && Fits(s, t, [CallResolve(c, r)], react)
      && (t.fault == NoFault && c < |s.cells| ==> t.cells[c].resolved && t.cells[c].value == r)
    decreases Left(s.cells, |s.cells|), 0, 0, 0
  {
    hide Fits;
    if c < |s.cells| && !s.cells[c].resolved {
      var cells := Resolving(s.cells, c, r);
      LeftAfter(s.cells, c, cells[c], |cells|);
      var m := Store(cells, Entering(cells, c, After(s.log, Settling(c))), s.fault);
      StaysLinked(s.cells, cells);
      AwokenDoes(m, c, react);
      FitsKeeps(m, Awoken(m, c, react), [], react);
      StartedThenRun(s, m, Awoken(m, c, react), c, Settling(c), [CallResolve(c, r)], react);
    } else {
      NothingDone(s, Resolved(s, c, r, react), [CallResolve(c, r)], react);
    }
  }

  lemma StaysLinked<V>(was: seq<Cell<V>>, now: seq<Cell<V>>)
    requires Linked(was) && Kept(was, now) && |now| == |was|
    requires forall x :: 0 <= x < |was| && now[x].callback != was[x].callback ==> LeadsOn(was, now[x].callback)
    ensures Linked(now)
  {
    forall x | 0 <= x < |now| ensures LeadsOn(now, now[x].callback) {
      assert LeadsOn(was, was[x].callback);
    }
  }

  lemma FitsKeeps<V(!new)>(s: Store<V>, t: Store<V>, mine: seq<Call<V>>, react: UserCode<V>)
    requires Fits(s, t, mine, react)
    ensures Kept(s.cells, t.cells) && |t.cells| == |s.cells| && Linked(t.cells)
    ensures Continues(s.log, t.log) && (t.fault == NoFault ==> s.fault == NoFault)
  {
  }

  lemma RegisteredDoes<V(!new)>(s: Store<V>, x: nat, callback: Callback, react: UserCode<V>)
    requires s.fault == NoFault && Linked(s.cells) && LeadsOn(s.cells, callback)
    ensures var t := Registered(s, x, callback, react);
      && Fits(s, t, if callback.User? then [CallOn(x)] else [], react)
      && (t.fault == NoFault && x < |s.cells| && callback != Nothing ==> t.cells[x].callback == callback)
    decreases Left(s.cells, |s.cells|), 0, 0, 0
  {
    hide Fits;
    var mine: seq<Call<V>> := if callback.User? then [CallOn(x)] else [];
    if x < |s.cells| && !callback.Nothing? && s.cells[x].callback.Nothing? {
      var cells := Attaching(s.cells, x, callback);
      LeftAfter(s.cells, x, cells[x], |cells|);
      var m := Store(cells, Entering(cells, x, After(s.log, Listening(x))), s.fault);
      StaysLinked(s.cells, cells);
      AwokenDoes(m, x, react);
      FitsKeeps(m, Awoken(m, x, react), [], react);
      StartedThenRun(s, m, Awoken(m, x, react), x, Listening(x), mine, react);
    } else {
      NothingDone(s, Registered(s, x, callback, react), mine, react);
    }
  }

  lemma AwokenDoes<V(!new)>(s: Store<V>, x: nat, react: UserCode<V>)
    requires s.fault == NoFault && Linked(s.cells) && x < |s.cells|
    ensures var t := Awoken(s, x, react);
      Fits(s, t, [], react) && (CallsUserNow(s, x) && t.fault == NoFault ==> AllDone(t.cells, react(s.log)))
    decreases Left(s.cells, |s.cells|), 1, 0, 0
  {
    if s.cells[x].phase == Running {
      var t := CallbackRun(s, x, react);
      CallbackRunDoes(s, x, react);
      if t.fault == NoFault {
        LeftIgnoresPhase(t.cells, x, |t.cells|);
        FinishingFits(s, t, x, react);
      }
    } else {
      NothingDone(s, s, [], react);
    }
  }

  lemma FinishingFits<V(!new)>(s: Store<V>, t: Store<V>, x: nat, react: UserCode<V>)
    requires Fits(s, t, [], react) && x < |t.cells|
    ensures Fits(s, t.(cells := Finishing(t.cells, x)), [], react)
    ensures forall calls :: AllDone(t.cells, calls) ==> AllDone(Finishing(t.cells, x), calls)
  {
    var cells := Finishing(t.cells, x);
    StaysLinked(t.cells, cells);
  }

  lemma CallbackRunDoes<V(!new)>(s: Store<V>, x: nat, react: UserCode<V>)
    requires s.fault == NoFault && Linked(s.cells) && x < |s.cells|
    ensures var t := CallbackRun(s, x, react);
      Fits(s, t, [], react) && (s.cells[x].callback == User && t.fault == NoFault ==> AllDone(t.cells, react(s.log)))
    decreases Left(s.cells, |s.cells|), 0, 2, 0
  {
    assert LeadsOn(s.cells, s.cells[x].callback);
    match s.cells[x].callback
    case Nothing =>
      NothingDone(s, s, [], react);
    case User =>
      ServedDoes(s, react(s.log), react);
      MineWereCalled(s, Served(s, react(s.log), react), react);
    case ToMap(c) =>
      if s.cells[c].origin.MapOf? {
        var r := Mapped(s.cells[x].value, s.cells[c].origin.f);
        ResolvedDoes(s, c, r, react);
        NotASource(s, Resolved(s, c, r, react), c, r, react);
      } else {
        NothingDone(s, s, [], react);
      }
    case ToThen(c) =>
      if s.cells[x].value.Err? {
        ResolvedDoes(s, c, s.cells[x].value, react);
        NotASource(s, Resolved(s, c, s.cells[x].value, react), c, s.cells[x].value, react);
      } else if s.cells[c].origin.ThenOf? {
        RegisteredDoes(s, s.cells[c].origin.g(s.cells[x].value.value), Forward(c), react);
      } else {
        NothingDone(s, s, [], react);
      }
    case Forward(c) =>
      ResolvedDoes(s, c, s.cells[x].value, react);
      NotASource(s, Resolved(s, c, s.cells[x].value, react), c, s.cells[x].value, react);
  }

  /** What a callback calls is called where it runs. */
  lemma MineWereCalled<V(!new)>(s: Store<V>, t: Store<V>, react: UserCode<V>)
    requires Fits(s, t, react(s.log), react)
    ensures Fits(s, t, [], react)
  {
    assert Continues(s.log, s.log);
    forall call | call in react(s.log) ensures CalledBetween(s.log, t.log, call, react) {
    }
  }

  /** Resolving what map or then made is nobody's call. */
  lemma NotASource<V(!new)>(s: Store<V>, t: Store<V>, c: nat, r: Result<V>, react: UserCode<V>)
    requires Fits(s, t, [CallResolve(c, r)], react) && c < |s.cells| && !s.cells[c].origin.Source?
    ensures Fits(s, t, [], react)
  {
  }

  lemma FitsTwice<V(!new)>(a: Store<V>, b: Store<V>, c: Store<V>, call: Call<V>, rest: seq<Call<V>>, react: UserCode<V>)
    requires Fits(a, b, [call], react) && Fits(b, c, rest, react)
    requires b.fault == NoFault && call.x < |a.cells| ==> Done(b.cells, call)
    ensures Fits(a, c, [call] + rest, react)
    ensures c.fault == NoFault && AllDone(c.cells, rest) ==> AllDone(c.cells, [call] + rest)
  {
    hide Justified, UserIsObeyed;
    DoesTwice(a, b, c, [call], rest, react);
    if c.fault == NoFault && call.x < |c.cells| {
      DoneStays(b.cells, c.cells, call);
    }
  }

  lemma ServedDoes<V(!new)>(s: Store<V>, calls: seq<Call<V>>, react: UserCode<V>)
    requires Linked(s.cells)
    ensures var t := Served(s, calls, react);
      Fits(s, t, calls, react) && (t.fault == NoFault ==> AllDone(t.cells, calls))
    decreases Left(s.cells, |s.cells|), 0, 1, |calls|
  {
    hide Fits, Linked, Done, Performed;
    if calls == [] || s.fault != NoFault {
      NothingDone(s, s, calls, react);
    } else {
      var m := Performed(s, calls[0], react);
      PerformedDoes(s, calls[0], react);
      FitsKeeps(s, m, [calls[0]], react);
      ServedDoes(m, calls[1..], react);
      FitsTwice(s, m, Served(m, calls[1..], react), calls[0], calls[1..], react);
      assert [calls[0]] + calls[1..] == calls;
    }
  }

  lemma PerformedDoes<V(!new)>(s: Store<V>, call: Call<V>, react: UserCode<V>)
    requires s.fault == NoFault && Linked(s.cells)
    ensures var t := Performed(s, call, react);
      Fits(s, t, [call], react) && (t.fault == NoFault && call.x < |s.cells| ==> Done(t.cells, call))
    decreases Left(s.cells, |s.cells|), 0, 0, 1
  {
    match call
    case CallOn(x) =>
      RegisteredDoes(s, x, User, react);
    case CallResolve(x, r) =>
      if x < |s.cells| && s.cells[x].origin.Source? {
        ResolvedDoes(s, x, r, react);
      } else {
        NothingDone(s, s, [call], react);
      }
  }

  // ----- programs

  /** What a command makes. A function given to then() that returns an existing deferred is taken as it is. */
  ghost predicate Makes<V(!new)>(was: seq<Cell<V>>, command: Command<V>, now: seq<Cell<V>>)
  {
    match command
    case New => |now| == |was| + 1 && now[|was|].origin == Source
    case Map(x, f) => if x < |was| then |now| == |was| + 1 && now[|was|].origin == MapOf(x, f) else |now| == |was|
    case Then(x, g) =>
      if x < |was| then
        && |now| == |was| + 1 && now[|was|].origin.ThenOf? && now[|was|].origin.s == x
        && forall v :: g(v) < |was| ==> now[|was|].origin.g(v) == g(v)
      else |now| == |was|
    case Use(_) => |now| == |was|
  }

  function CallsOf<V>(command: Command<V>): seq<Call<V>>
  {
    if command.Use? then [command.call] else []
  }

  /** A command and all that its callbacks call are done, and nothing else is. */
  ghost predicate CommandDone<V(!new)>(s: Store<V>, command: Command<V>, t: Store<V>, react: UserCode<V>)
  {
    && Does(s, t, CallsOf(command), react)
    && (t.fault == NoFault ==>
          && Makes(s.cells, command, t.cells)
          && (command.Use? && command.call.x < |s.cells| ==> Done(t.cells, command.call)))
  }

  lemma DerivedDoes<V(!new)>(s: Store<V>, x: nat, origin: Origin<V>, react: UserCode<V>)
    requires s.fault == NoFault && Linked(s.cells) && !origin.Source?
    ensures var t := Derived(s, x, origin, react);
      && Does(s, t, [], react) && Linked(t.cells)
      && (t.fault == NoFault ==>
            if x < |s.cells| then |t.cells| == |s.cells| + 1 && t.cells[|s.cells|].origin == origin
            else |t.cells| == |s.cells|)
  {
    hide Does;
    var t := Derived(s, x, origin, react);
    if x < |s.cells| && s.cells[x].callback.Nothing? {
      var callback := if origin.MapOf? then ToMap(|s.cells|) else ToThen(|s.cells|);
      var b := s.(cells := s.cells + [Unresolved(origin)]);
      var cells := Attaching(b.cells, x, callback);
      assert cells == Deriving(s.cells, x, origin);
      var m := Store(cells, Entering(cells, x, After(s.log, Listening(x))), s.fault);
      OneMoreIsLinked(s.cells, Unresolved(origin));
      StaysLinked(b.cells, cells);
      AwokenDoes(m, x, react);
      FitsKeeps(m, t, [], react);
      StartedThenRun(b, m, t, x, Listening(x), [], react);
      WithoutTheNewOne(s, b, t, react);
    } else {
      NothingDone(s, t, [], react);
    }
  }

  lemma OneMoreIsLinked<V>(cells: seq<Cell<V>>, cell: Cell<V>)
    requires Linked(cells) && cell.callback == Nothing
    ensures Linked(cells + [cell])
  {
    var more := cells + [cell];
    forall x | 0 <= x < |more| ensures LeadsOn(more, more[x].callback) {
      assert x < |cells| ==> LeadsOn(cells, cells[x].callback);
    }
  }

  lemma WithoutTheNewOne<V(!new)>(s: Store<V>, b: Store<V>, t: Store<V>, react: UserCode<V>)
    requires Fits(b, t, [], react) && b.log == s.log && b.fault == s.fault && s.cells <= b.cells
    ensures Does(s, t, [], react)
  {
  }

  lemma CommandIsDone<V(!new)>(s: Store<V>, command: Command<V>, react: UserCode<V>)
    requires s.fault == NoFault && Linked(s.cells)
    ensures var t := Obeyed(s, command, react);
      CommandDone(s, command, t, react) && Linked(t.cells)
  {
    match command
    case New =>
      var b := s.(cells := s.cells + [Unresolved(Source)]);
      OneMoreIsLinked(s.cells, Unresolved<V>(Source));
      NothingDone(b, b, [], react);
      WithoutTheNewOne(s, b, b, react);
    case Map(x, f) =>
      DerivedDoes(s, x, MapOf(x, f), react);
    case Then(x, g) =>
      DerivedDoes(s, x, ThenOf(x, Existing(g, |s.cells|)), react);
    case Use(call) =>
      PerformedDoes(s, call, react);
  }

  ghost predicate AllCommandsDone<V(!new)>(s: Store<V>, commands: seq<Command<V>>, react: UserCode<V>)
    decreases |commands|
  {
    commands == [] || s.fault != NoFault
    || (var t := Obeyed(s, commands[0], react);
        CommandDone(s, commands[0], t, react) && AllCommandsDone(t, commands[1..], react))
  }

  lemma {:induction false} ProgramIsDone<V(!new)>(s: Store<V>, commands: seq<Command<V>>, react: UserCode<V>)
    requires Linked(s.cells)
    ensures AllCommandsDone(s, commands, react)
    ensures Kept(s.cells, Interpreted(s, commands, react).cells)
    decreases |commands|
  {
    hide CommandDone;
    if commands != [] && s.fault == NoFault {
      var t := Obeyed(s, commands[0], react);
      CommandIsDone(s, commands[0], react);
      CommandKeeps(s, commands[0], t, react);
      ProgramIsDone(t, commands[1..], react);
    }
  }

  lemma CommandKeeps<V(!new)>(s: Store<V>, command: Command<V>, t: Store<V>, react: UserCode<V>)
    requires CommandDone(s, command, t, react)
    ensures Kept(s.cells, t.cells)
  {
  }

  /**
   Every program from the beginning, command by command: it makes the deferreds it says, registers
   and resolves what it and its callbacks say, all of that, and nothing else; what is there stays.
   */
  lemma EveryProgramIsDone<V(!new)>(commands: seq<Command<V>>, react: UserCode<V>)
    ensures AllCommandsDone(Store([], Start, NoFault), commands, react)
  {
    ProgramIsDone(Store([], Start, NoFault), commands, react);
  }

  /** A program is its commands, one after the other, until a CHECK fails. */
  lemma {:induction false} ProgramsAreTheirCommands<V>(s: Store<V>, commands: seq<Command<V>>, c: Command<V>,
                                                       react: UserCode<V>)
    ensures Interpreted(s, [], react) == s
    ensures var t := Interpreted(s, commands, react);
      Interpreted(s, commands + [c], react) == if t.fault == NoFault then Obeyed(t, c, react) else t
    decreases |commands|
  {
    hide Obeyed;
    if commands == [] {
      assert [c][1..] == [];
      assert commands + [c] == [c];
    } else if s.fault == NoFault {
      ProgramsAreTheirCommands(Obeyed(s, commands[0], react), commands[1..], c, react);
      assert (commands + [c])[1..] == commands[1..] + [c];
    }
  }
}
