/** What happened, event by event. */
module Histories {

  /** The events so far, the latest outermost. */
  datatype History<E> = Start | After(before: History<E>, event: E)

  /** What happened once stays: `later` continues `older`. */
  ghost predicate Continues<E>(older: History<E>, later: History<E>)
  {
    later == older || (later.After? && Continues(older, later.before))
  }

  lemma {:induction false} ContinuesTransitive<E>(a: History<E>, b: History<E>, c: History<E>)
    requires Continues(a, b) && Continues(b, c)
    ensures Continues(a, c)
    decreases c
  {
    if c != b {
      ContinuesTransitive(a, b, c.before);
    }
  }
}
