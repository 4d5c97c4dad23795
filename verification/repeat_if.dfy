/** repeat_if: the last matching item, repeated into long stretches without one. */
module Repeats {
  import opened Wrappers
  import opened Histories
  import opened Demand
  import opened FlatMaps
  import opened FlatMapFailures

  const TWO64: nat := 0x1_0000_0000_0000_0000

  /** The captured state: the last matching item, and how many others have passed since the last repetition. */
  datatype State<T> = State(last: Option<T>, ago: nat)

  /** One item: the next state, and the list that flat_map splices in. */
  function Step<T>(s: State<T>, t: T, n: nat, matches: T -> bool): (State<T>, seq<T>)
  {
    if matches(t) then (State(Some(t), 0), [t])
    else if s.ago >= n && s.last.Some? then (State(s.last, 0), [s.last.value, t])
    else (State(s.last, (s.ago + 1) % TWO64), [t])
  }

  /** The function object that flat_map calls once for each item, in order. */
  class Repeater<T> {
    const n: nat
    const matches: T -> bool
    var last: Option<T>
    var ago: nat

    constructor (n: nat, matches: T -> bool)
      ensures this.n == n && this.matches == matches && last == None && ago == 0
    {
      this.n, this.matches := n, matches;
      last, ago := None, 0;
    }

    method Call(t: T) returns (out: seq<T>)
      modifies this
      ensures (State(last, ago), out) == Step(old(State(last, ago)), t, n, matches)
    {
      if matches(t) {
        ago := 0;
        last := Some(t);
      } else {
        if ago >= n && last.Some? {
          ago := 0;
          return [last.value, t];
        }
        ago := (ago + 1) % TWO64;
      }
      return [t];
    }
  }

  /** What each item of a stream becomes. */
  method Pieces<T>(items: seq<T>, n: nat, matches: T -> bool) returns (pieces: seq<seq<T>>)
    requires n < TWO64
    ensures |pieces| == |items|
    ensures forall i :: 0 <= i < |items| ==> pieces[i] == Piece(items, i, n, matches)
    ensures InARow(pieces) == Repeated(items, |items|, n, matches)
  {
    var r := new Repeater<T>(n, matches);
    pieces := [];
    for i := 0 to |items|
      invariant |pieces| == i && r.n == n && r.matches == matches
      invariant Reached(State(r.last, r.ago), items, i, n, matches)
      invariant forall j :: 0 <= j < i ==> pieces[j] == Piece(items, j, n, matches)
    {
      StepReaches(State(r.last, r.ago), items, i, n, matches);
      var out := r.Call(items[i]);
      pieces := pieces + [out];
    }
    PiecesInARow(items, pieces, n, matches);
  }

  /** What flat_map makes of them. */
  function InARow<T>(pieces: seq<seq<T>>): seq<T>
  {
    if pieces == [] then [] else InARow(pieces[..|pieces| - 1]) + pieces[|pieces| - 1]
  }

  /** Any stream is its pieces up to any item. */
  lemma {:induction false} PiecesInARow<T>(items: seq<T>, pieces: seq<seq<T>>, n: nat, matches: T -> bool)
    requires |pieces| <= |items| && forall i :: 0 <= i < |pieces| ==> pieces[i] == Piece(items, i, n, matches)
    ensures InARow(pieces) == Repeated(items, |pieces|, n, matches)
    decreases |pieces|
  {
    if pieces != [] {
      PiecesInARow(items, pieces[..|pieces| - 1], n, matches);
    }
  }

  // ----- the meaning, item by item

  /** The place of the last matching item before `i`. */
  function LastMatch<T>(items: seq<T>, i: nat, matches: T -> bool): (m: Option<nat>)
    requires i <= |items|
    ensures m.Some? ==> m.value < i && matches(items[m.value]) && forall j :: m.value < j < i ==> !matches(items[j])
    ensures m.None? ==> forall j :: 0 <= j < i ==> !matches(items[j])
  {
    if i == 0 then None
    else if matches(items[i - 1]) then Some(i - 1)
    else LastMatch(items, i - 1, matches)
  }

  /** A repetition comes before each (n+1)-th item after a matching one. */
  predicate Repeats<T>(items: seq<T>, i: nat, n: nat, matches: T -> bool)
    requires i < |items|
  {
    && !matches(items[i])
    && var m := LastMatch(items, i, matches);
       m.Some? && Phase(i - m.value, n) == 0
  }

  function Piece<T>(items: seq<T>, i: nat, n: nat, matches: T -> bool): seq<T>
    requires i < |items|
  {
    if Repeats(items, i, n, matches) then [items[LastMatch(items, i, matches).value], items[i]] else [items[i]]
  }

  /** The state before item `i`. */
  ghost predicate Reached<T>(s: State<T>, items: seq<T>, i: nat, n: nat, matches: T -> bool)
    requires i <= |items|
  {
    match LastMatch(items, i, matches)
    case None => s.last == None
    case Some(m) => s.last == Some(items[m]) && s.ago == Phase(i - 1 - m, n)
  }

  lemma StepReaches<T>(s: State<T>, items: seq<T>, i: nat, n: nat, matches: T -> bool)
    requires i < |items| && n < TWO64 && Reached(s, items, i, n, matches)
    ensures var (next, out) := Step(s, items[i], n, matches);
      Reached(next, items, i + 1, n, matches) && out == Piece(items, i, n, matches)
  {
    hide Phase;
    FirstPhase(n);
    var m := LastMatch(items, i, matches);
    if !matches(items[i]) && m.Some? {
      NextPhase(i - 1 - m.value, n);
    }
  }

  /** Where an item at distance `d` stands in its round of n+1 items, and how many rounds went before. */
  function Phase(d: nat, n: nat): nat
  {
    d % (n + 1)
  }

  function Rounds(d: nat, n: nat): nat
  {
    d / (n + 1)
  }

  lemma NextPhase(d: nat, n: nat)
    ensures Phase(d, n) <= n && Phase(d + 1, n) == (if Phase(d, n) == n then 0 else Phase(d, n) + 1)
    ensures Rounds(d + 1, n) == Rounds(d, n) + if Phase(d + 1, n) == 0 then 1 else 0
  {
    var q, r := d / (n + 1), d % (n + 1);
    if r == n {
      OneDivision(q + 1, 0, (d + 1) / (n + 1), (d + 1) % (n + 1), n + 1);
    } else {
      OneDivision(q, r + 1, (d + 1) / (n + 1), (d + 1) % (n + 1), n + 1);
    }
  }

  lemma FirstPhase(n: nat)
    ensures Phase(0, n) == 0
  {
  }

  lemma NoRounds(n: nat)
    ensures Rounds(0, n) == 0
  {
  }

  lemma OneDivision(q: nat, r: nat, q1: nat, r1: nat, k: nat)
    requires k * q + r == k * q1 + r1 && r < k && r1 < k
    ensures q == q1 && r == r1
  {
    if q < q1 {
      assert k * q1 == k * q + k * (q1 - q);
      Times(k, q1 - q);
    } else if q1 < q {
      assert k * q == k * q1 + k * (q - q1);
      Times(k, q - q1);
    }
  }

  lemma {:induction false} Times(k: nat, d: nat)
    requires 0 < d
    ensures k <= k * d
  {
  }

  // ----- whole streams

  /** The stream with its repetitions up to item `i`. */
  function Repeated<T>(items: seq<T>, i: nat, n: nat, matches: T -> bool): seq<T>
    requires i <= |items|
  {
    if i == 0 then [] else Repeated(items, i - 1, n, matches) + Piece(items, i - 1, n, matches)
  }

  /** Which items of that are repetitions. */
  function Marks<T>(items: seq<T>, i: nat, n: nat, matches: T -> bool): seq<bool>
    requires i <= |items|
  {
    if i == 0 then []
    else Marks(items, i - 1, n, matches) + if Repeats(items, i - 1, n, matches) then [true, false] else [false]
  }

  function Unmarked<T>(s: seq<T>, marks: seq<bool>): seq<T>
    requires |s| == |marks|
  {
    if s == [] then []
    else Unmarked(s[..|s| - 1], marks[..|s| - 1]) + if marks[|s| - 1] then [] else [s[|s| - 1]]
  }

  lemma {:induction false} UnmarkedAppend<T>(s: seq<T>, marks: seq<bool>, x: T, mark: bool)
    requires |s| == |marks|
    ensures Unmarked(s + [x], marks + [mark]) == Unmarked(s, marks) + if mark then [] else [x]
  {
    assert (s + [x])[..|s|] == s && (marks + [mark])[..|s|] == marks;
  }

  lemma NothingUnmarked<T>(s: seq<T>, marks: seq<bool>)
    requires s == [] && marks == []
    ensures Unmarked(s, marks) == []
  {
  }

  lemma RepetitionUnmarked<T>(s: seq<T>, marks: seq<bool>, last: T, x: T)
    requires |s| == |marks|
    ensures Unmarked(s + [last, x], marks + [true, false]) == Unmarked(s, marks) + [x]
  {
    UnmarkedAppend(s, marks, last, true);
    UnmarkedAppend(s + [last], marks + [true], x, false);
    assert s + [last] + [x] == s + [last, x] && marks + [true] + [false] == marks + [true, false];
  }

  /** Without the repetitions, the stream is what came in. */
  lemma {:induction false} WithoutRepetitions<T>(items: seq<T>, i: nat, n: nat, matches: T -> bool)
    requires i <= |items|
    ensures |Repeated(items, i, n, matches)| == |Marks(items, i, n, matches)|
    ensures Unmarked(Repeated(items, i, n, matches), Marks(items, i, n, matches)) == items[..i]
  {
    hide Unmarked, Repeats, Piece;
    if i == 0 {
      NothingUnmarked(Repeated(items, 0, n, matches), Marks(items, 0, n, matches));
    } else {
      WithoutRepetitions(items, i - 1, n, matches);
      OneMorePiece(items, i - 1, n, matches, Repeated(items, i - 1, n, matches), Marks(items, i - 1, n, matches));
      assert items[..i] == items[..i - 1] + [items[i - 1]];
    }
  }

  lemma OneMorePiece<T>(items: seq<T>, i: nat, n: nat, matches: T -> bool, s: seq<T>, marks: seq<bool>)
    requires i < |items| && |s| == |marks|
    ensures var more := if Repeats(items, i, n, matches) then [true, false] else [false];
      && |Piece(items, i, n, matches)| == |more|
      && Unmarked(s + Piece(items, i, n, matches), marks + more) == Unmarked(s, marks) + [items[i]]
  {
    hide Unmarked, Phase;
    if Repeats(items, i, n, matches) {
      RepetitionUnmarked(s, marks, items[LastMatch(items, i, matches).value], items[i]);
    } else {
      UnmarkedAppend(s, marks, items[i], false);
    }
  }

  function Count<T>(items: seq<T>, from: nat, to: nat, n: nat, matches: T -> bool): nat
    requires from <= to <= |items|
  {
    if from == to then 0
    else Count(items, from, to - 1, n, matches) + if Repeats(items, to - 1, n, matches) then 1 else 0
  }

  lemma {:induction false} RepetitionsLengthen<T>(items: seq<T>, i: nat, n: nat, matches: T -> bool)
    requires i <= |items|
    ensures |Repeated(items, i, n, matches)| == i + Count(items, 0, i, n, matches)
  {
    if i > 0 {
      RepetitionsLengthen(items, i - 1, n, matches);
    }
  }

  /** A stretch of k others after a matching item gets k/(n+1) repetitions. */
  lemma {:induction false} RepetitionsInAStretch<T>(items: seq<T>, m: nat, k: nat, n: nat, matches: T -> bool)
    requires m + k < |items| && matches(items[m])
    requires forall j :: m < j <= m + k ==> !matches(items[j])
    ensures Count(items, m + 1, m + 1 + k, n, matches) == Rounds(k, n)
  {
    hide Rounds, Phase;
    if k == 0 {
      NoRounds(n);
    } else {
      RepetitionsInAStretch(items, m, k - 1, n, matches);
      LastMatchIs(items, m, k - 1, matches);
      NextPhase(k - 1, n);
    }
  }

  lemma {:induction false} LastMatchIs<T>(items: seq<T>, m: nat, k: nat, matches: T -> bool)
    requires m + k < |items| && matches(items[m])
    requires forall j :: m < j <= m + k ==> !matches(items[j])
    ensures LastMatch(items, m + 1 + k, matches) == Some(m)
  {
    if k > 0 {
      LastMatchIs(items, m, k - 1, matches);
    }
  }

  /** None before the first matching item. */
  lemma {:induction false} NoneBeforeTheFirst<T>(items: seq<T>, i: nat, n: nat, matches: T -> bool)
    requires i <= |items| && forall j :: 0 <= j < i ==> !matches(items[j])
    ensures Count(items, 0, i, n, matches) == 0 && Repeated(items, i, n, matches) == items[..i]
  {
    if i > 0 {
      NoneBeforeTheFirst(items, i - 1, n, matches);
      assert items[..i] == items[..i - 1] + [items[i - 1]];
    }
  }

  // ----- inside flat_map

  /**
   The i-th call of the function object gives the i-th piece (Pieces); flat_map calls it for one
   item after the other.
   */
  function Positions(n: nat): seq<nat>
  {
    seq(n, i => i)
  }

  function PieceOf<T>(items: seq<T>, n: nat, matches: T -> bool): nat -> Inner<T>
  {
    (i: nat) => Generated(Script(if i < |items| then Piece(items, i, n, matches) else [], Complete))
  }

  lemma {:induction false} PiecesConcatenate<T>(items: seq<T>, k: nat, n: nat, matches: T -> bool, ending: Ending)
    requires k <= |items|
    ensures var rest := ConcatMap(Positions(|items|)[k..], ending, PieceOf(items, n, matches));
      Repeated(items, k, n, matches) + rest.items == Repeated(items, |items|, n, matches) && rest.ending == ending
    decreases |items| - k
  {
    hide Piece;
    var positions := Positions(|items|);
    if k < |items| {
      PiecesConcatenate(items, k + 1, n, matches, ending);
      assert positions[k..][1..] == positions[k + 1..] && positions[k..][0] == k;
      var rest := ConcatMap(positions[k + 1..], ending, PieceOf(items, n, matches));
      assert ConcatMap(positions[k..], ending, PieceOf(items, n, matches)).items
        == Piece(items, k, n, matches) + rest.items;
      assert Repeated(items, k + 1, n, matches) == Repeated(items, k, n, matches) + Piece(items, k, n, matches);
    } else {
      assert positions[k..] == [];
    }
  }

  /**
   The whole operator, over every session and for every sink: what the sink sees is what one
   source of the stream with its repetitions would have shown it, cut at its demand.
   */
  lemma RepeatIfServesTheRepetitions<T>(items: seq<T>, ending: Ending, n: nat, matches: T -> bool, calls: seq<Call>,
                                        react: Subscriber<T>)
    ensures var begin: Flat<nat, T> := Flat(Start, false, None, Positions(|items|));
      FlatSession(begin, calls, ending, PieceOf(items, n, matches), react).log
      == Session(Start, calls, Script(Repeated(items, |items|, n, matches), ending), react)
  {
    var fn := PieceOf(items, n, matches);
    var begin: Flat<nat, T> := Flat(Start, false, None, Positions(|items|));
    PiecesConcatenate(items, 0, n, matches, ending);
    assert Positions(|items|)[0..] == Positions(|items|);
    var whole := ConcatMap(Positions(|items|), ending, fn);
    assert Repeated(items, 0, n, matches) + whole.items == whole.items;
    assert whole == Script(Repeated(items, |items|, n, matches), ending);
    FlatSessionIsSession(begin, calls, ending, fn, react, whole);
  }
}
