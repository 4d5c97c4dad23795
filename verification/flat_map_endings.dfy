/** How a session of flat_map ends, told from what the mapped function returned. */
module FlatMapEndings {
  import opened Wrappers
  import opened Histories
  import opened Demand
  import opened FlatMaps
  import opened FlatMapFailures

  /** The publisher signals this error, in the end or at once. */
  predicate FailsWith<T>(inner: Inner<T>, code: int)
  {
    inner == Error(code) || (inner.Generated? && inner.script.ending == Failure(code))
  }

  predicate Fails<T>(inner: Inner<T>)
  {
    inner.Error? || (inner.Generated? && inner.script.ending.Failure?)
  }

  function ItemsOf<T>(inner: Inner<T>): seq<T>
  {
    if inner.Generated? then inner.script.items else []
  }

  /** The items of the first `k` publishers, one publisher after the other. */
  function ItemsUpTo<S, T>(outer: seq<S>, fn: S -> Inner<T>, k: nat): seq<T>
    requires k <= |outer|
  {
    if k == 0 then [] else ItemsUpTo(outer, fn, k - 1) + ItemsOf(fn(outer[k - 1]))
  }

  /** The publishers before the k-th all complete. */
  ghost predicate CompleteBefore<S, T>(outer: seq<S>, fn: S -> Inner<T>, k: nat)
    requires k <= |outer|
  {
    forall j :: 0 <= j < k ==> !Fails(fn(outer[j]))
  }

  /** The k-th publisher is the first that fails, and this is its error. */
  ghost predicate FirstFailure<S, T>(outer: seq<S>, fn: S -> Inner<T>, k: nat, code: int)
  {
    k < |outer| && CompleteBefore(outer, fn, k) && FailsWith(fn(outer[k]), code)
  }

  /**
   The stream is cut after the publisher that fails first, and ends as that one does; or it ends as
   the source does.
   */
  ghost predicate Whole<S, T>(script: Script<T>, outer: seq<S>, ending: Ending, fn: S -> Inner<T>)
  {
    && (forall k: nat, code :: FirstFailure(outer, fn, k, code) ==>
          script == Script(ItemsUpTo(outer, fn, k + 1), Failure(code)))
    && (CompleteBefore(outer, fn, |outer|) ==> script == Script(ItemsUpTo(outer, fn, |outer|), ending))
  }

  lemma {:induction false} ItemsOfTheRest<S, T>(outer: seq<S>, fn: S -> Inner<T>, k: nat)
    requires 0 < k <= |outer|
    ensures ItemsUpTo(outer, fn, k) == ItemsOf(fn(outer[0])) + ItemsUpTo(outer[1..], fn, k - 1)
    decreases k
  {
    if k > 1 {
      ItemsOfTheRest(outer, fn, k - 1);
      assert outer[1..][k - 2] == outer[k - 1];
    }
  }

  lemma {:induction false} ConcatMapIsWhole<S, T>(outer: seq<S>, ending: Ending, fn: S -> Inner<T>)
    ensures Whole(ConcatMap(outer, ending, fn), outer, ending, fn)
    decreases |outer|
  {
    var whole := ConcatMap(outer, ending, fn);
    if outer != [] {
      var rest := outer[1..];
      ConcatMapIsWhole(rest, ending, fn);
      assert forall j :: 0 <= j < |rest| ==> rest[j] == outer[j + 1];
      forall k: nat, code | FirstFailure(outer, fn, k, code)
        ensures whole == Script(ItemsUpTo(outer, fn, k + 1), Failure(code))
      {
        ItemsOfTheRest(outer, fn, k + 1);
        if k > 0 {
          assert !Fails(fn(outer[0])) && FirstFailure(rest, fn, k - 1, code);
        }
      }
      if CompleteBefore(outer, fn, |outer|) {
        assert !Fails(fn(outer[0])) && CompleteBefore(rest, fn, |rest|);
        ItemsOfTheRest(outer, fn, |outer|);
      }
    }
  }

  /** One of the two cases always holds. */
  lemma {:induction false} SomeFailureOrNone<S, T>(outer: seq<S>, fn: S -> Inner<T>, n: nat)
    requires n <= |outer|
    ensures CompleteBefore(outer, fn, n) || exists k: nat, code :: k < n && FirstFailure(outer, fn, k, code)
    decreases n
  {
    if n > 0 {
      SomeFailureOrNone(outer, fn, n - 1);
      if CompleteBefore(outer, fn, n - 1) && Fails(fn(outer[n - 1])) {
        var inner := fn(outer[n - 1]);
        var code := if inner.Error? then inner.code else inner.script.ending.code;
        assert FirstFailure(outer, fn, n - 1, code);
      }
    }
  }

  /** What the subscriber has heard, if `n` items and `ending` are all there is. */
  ghost predicate Heard<T>(log: Log<T>, items: seq<T>, ending: Ending)
  {
    && Received(log) <= items
    && (HasEnded(log) ==> Received(log) == items && log.event.ending == ending)
    && (!IsCancelled(log) ==>
          && |Received(log)| == Min(Asked(log), |items|)
          && (HasEnded(log) <==> |items| < Asked(log)))
  }

  /** The subscriber has heard what the publishers that `fn` returns have to say, up to the first error. */
  ghost predicate HeardRightly<S, T(!new)>(log: Log<T>, outer: seq<S>, ending: Ending, fn: S -> Inner<T>)
  {
    && (forall k: nat, code :: FirstFailure(outer, fn, k, code) ==>
          Heard(log, ItemsUpTo(outer, fn, k + 1), Failure(code)))
    && (CompleteBefore(outer, fn, |outer|) ==> Heard(log, ItemsUpTo(outer, fn, |outer|), ending))
    && (CompleteBefore(outer, fn, |outer|) || exists k: nat, code :: FirstFailure(outer, fn, k, code))
  }

  lemma WholeIsHeardRightly<S, T(!new)>(log: Log<T>, outer: seq<S>, ending: Ending, fn: S -> Inner<T>)
    requires AtRest(log, ConcatMap(outer, ending, fn))
    ensures HeardRightly(log, outer, ending, fn)
  {
    ConcatMapIsWhole(outer, ending, fn);
    SomeFailureOrNone(outer, fn, |outer|);
  }

  /**
   Over every session, on what `fn` returns: if some publisher fails, the subscriber gets the items
   up to and with those of the first that does, and then its error; if none does, all items and the
   source's own ending; neither sooner nor later than the demand says.
   */
  lemma SessionsEndAsTheyShould<S, T(!new)>(calls: seq<Call>, outer: seq<S>, ending: Ending,
                                            fn: S -> Inner<T>, react: Subscriber<T>)
    ensures HeardRightly(FlatSession(Flat(Start, false, None, outer), calls, ending, fn, react).log, outer, ending, fn)
  {
    var whole: Script<T> := ConcatMap(outer, ending, fn);
    FlatSessionIsSession(Flat(Start, false, None, outer), calls, ending, fn, react, whole);
    SessionCutsListAtDemand(Start, calls, whole, react);
    WholeIsHeardRightly(Session(Start, calls, whole, react), outer, ending, fn);
  }
}
