/** What it means to cut a stream of frames into files greedily. */
module Segments {
  import opened Wrappers

  /** Timestamps and durations count nanoseconds and may go back in time. */
  datatype Frame = Frame(key: bool, timestamp: int, data: seq<Byte>)

  type Segment = seq<Frame>

  const MILLISECOND := 1_000_000

  /** duration_cast to milliseconds truncates toward zero. */
  function Milliseconds(t: int): (ms: int)
    ensures 0 <= t ==> ms * MILLISECOND <= t < (ms + 1) * MILLISECOND
    ensures t <= 0 ==> (ms - 1) * MILLISECOND < t <= ms * MILLISECOND
  {
    if 0 <= t then t / MILLISECOND else -(-t / MILLISECOND)
  }

  /** Is `f` far enough from the start of its segment to begin a new one? */
  predicate Due(start: Frame, f: Frame, duration: Option<int>)
  {
    f.key && duration.Some? && f.timestamp >= start.timestamp + duration.value
  }

  /** Starts with a key frame, and nothing after that is due. */
  ghost predicate Whole(s: Segment, duration: Option<int>)
  {
    s != [] && s[0].key && forall j :: 1 <= j < |s| ==> !Due(s[0], s[j], duration)
  }

  predicate NoneEmpty(segments: seq<Segment>)
  {
    forall k :: 0 <= k < |segments| ==> segments[k] != []
  }

  function Joined(segments: seq<Segment>): seq<Frame>
  {
    if segments == [] then [] else segments[0] + Joined(segments[1..])
  }

  function FromFirstKey(frames: seq<Frame>): seq<Frame>
  {
    if frames == [] || frames[0].key then frames else FromFirstKey(frames[1..])
  }

  /** Whole segments, each begun by a frame that was due in the one before. */
  ghost predicate Greedy(segments: seq<Segment>, duration: Option<int>)
  {
    && (forall k :: 0 <= k < |segments| ==> Whole(segments[k], duration))
    && (forall k :: 1 <= k < |segments| ==> Due(segments[k - 1][0], segments[k][0], duration))
  }

  /** The greedy cutting of `frames`. */
  ghost predicate Cuts(segments: seq<Segment>, frames: seq<Frame>, duration: Option<int>)
  {
    Greedy(segments, duration) && Joined(segments) == FromFirstKey(frames)
  }

  /** One file: from a key frame on, with no other key frame as late as the duration after it. */
  predicate OneFile(s: Segment, duration: Option<int>)
  {
    && s != [] && s[0].key
    && forall j :: 1 <= j < |s| && s[j].key && duration.Some? ==> s[j].timestamp < s[0].timestamp + duration.value
  }

  /** The next file begins the duration or more after the one before. */
  predicate NextFile(s: Segment, next: Segment, duration: Option<int>)
  {
    && duration.Some? && s != [] && next != [] && next[0].key
    && s[0].timestamp + duration.value <= next[0].timestamp
  }

  /** What a greedy cutting is in terms of keys and timestamps alone. */
  lemma GreedyMeans(segments: seq<Segment>, duration: Option<int>)
    ensures Greedy(segments, duration) <==>
      && (forall k :: 0 <= k < |segments| ==> OneFile(segments[k], duration))
      && (forall k, next :: 0 <= k && next == k + 1 && next < |segments| ==>
            NextFile(segments[k], segments[next], duration))
  {
    forall k | 0 <= k < |segments| ensures Whole(segments[k], duration) <==> OneFile(segments[k], duration) {
    }
    forall k, next | 0 <= k && next == k + 1 && next < |segments|
      && Whole(segments[k], duration) && Whole(segments[next], duration)
      ensures Due(segments[next - 1][0], segments[next][0], duration)
        <==> NextFile(segments[k], segments[next], duration)
    {
    }
  }

  /** There is only one. */
  lemma {:induction false} OneGreedyCutting(a: seq<Segment>, b: seq<Segment>, duration: Option<int>)
    requires Greedy(a, duration) && Greedy(b, duration) && Joined(a) == Joined(b)
    ensures a == b
  {
    JoinedIsEmptyForNone(a, duration);
    JoinedIsEmptyForNone(b, duration);
    if a != [] {
      FirstIsNotShorter(a, b, duration);
      FirstIsNotShorter(b, a, duration);
      assert a[0] == Joined(a)[..|a[0]|] && b[0] == Joined(b)[..|b[0]|];
      assert Joined(a[1..]) == Joined(a)[|a[0]|..] && Joined(b[1..]) == Joined(b)[|b[0]|..];
      TailIsGreedy(a, duration);
      TailIsGreedy(b, duration);
      OneGreedyCutting(a[1..], b[1..], duration);
    }
  }

  lemma JoinedIsEmptyForNone(a: seq<Segment>, duration: Option<int>)
    requires Greedy(a, duration)
    ensures Joined(a) == [] <==> a == []
  {
    if a != [] {
      assert Whole(a[0], duration);
    }
  }

  lemma TailIsGreedy(a: seq<Segment>, duration: Option<int>)
    requires Greedy(a, duration) && a != []
    ensures Greedy(a[1..], duration)
  {
    var t := a[1..];
    assert forall k :: 0 <= k < |t| ==> t[k] == a[k + 1] && Whole(t[k], duration);
    forall k | 1 <= k < |t| ensures Due(t[k - 1][0], t[k][0], duration) {
      assert Due(a[k][0], a[k + 1][0], duration);
    }
  }

  /** Where a greedy first segment ends before the frames do, the next frame is due. */
  lemma DueAtTheEnd(a: seq<Segment>, s: Segment, rest: seq<Frame>, duration: Option<int>)
    requires Greedy(a, duration) && Joined(a) == s + rest && a != [] && s != []
    ensures a[0] != []
    ensures |a[0]| < |s| ==> Due(s[0], s[|a[0]|], duration)
  {
    assert Whole(a[0], duration);
    if |a[0]| < |s| {
      assert Joined(a) == a[0] + Joined(a[1..]);
      assert Joined(a)[0] == a[0][0] && Joined(a)[|a[0]|] == Joined(a[1..])[0];
      assert Whole(a[1], duration) && Due(a[0][0], a[1][0], duration);
    }
  }

  lemma FirstIsNotShorter(a: seq<Segment>, b: seq<Segment>, duration: Option<int>)
    requires Greedy(a, duration) && Greedy(b, duration) && Joined(a) == Joined(b) && a != [] && b != []
    ensures |a[0]| >= |b[0]|
  {
    assert Whole(b[0], duration);
    DueAtTheEnd(a, b[0], Joined(b[1..]), duration);
  }

  lemma {:induction false} JoinedAppend(a: seq<Segment>, b: seq<Segment>)
    ensures Joined(a + b) == Joined(a) + Joined(b)
  {
    if a == [] {
      assert a + b == b;
    } else {
      var rest := a[1..] + b;
      assert (a + b)[0] == a[0] && (a + b)[1..] == rest;
      JoinedAppend(a[1..], b);
      assert Joined(a + b) == a[0] + Joined(rest);
    }
  }

  lemma {:induction false} OneMoreFrame(frames: seq<Frame>, f: Frame)
    ensures FromFirstKey(frames + [f]) == if FromFirstKey(frames) == [] && !f.key then []
      else FromFirstKey(frames) + [f]
  {
    if frames != [] && !frames[0].key {
      OneMoreFrame(frames[1..], f);
      assert (frames + [f])[1..] == frames[1..] + [f];
    }
  }

  /** The next frame extends the last segment or starts a new one. */
  function Extended(segments: seq<Segment>, f: Frame, duration: Option<int>): seq<Segment>
    requires NoneEmpty(segments)
  {
    var n := |segments|;
    if n == 0 then (if f.key then [[f]] else [])
    else if Due(segments[n - 1][0], f, duration) then segments + [[f]]
    else segments[..n - 1] + [segments[n - 1] + [f]]
  }

  lemma ExtendedCuts(segments: seq<Segment>, frames: seq<Frame>, f: Frame, duration: Option<int>)
    requires Cuts(segments, frames, duration)
    ensures NoneEmpty(segments)
    ensures Cuts(Extended(segments, f, duration), frames + [f], duration)
  {
    assert forall k :: 0 <= k < |segments| ==> Whole(segments[k], duration);
    JoinedIsEmptyForNone(segments, duration);
    OneMoreFrame(frames, f);
    ExtendedIsGreedy(segments, f, duration);
    ExtendedJoins(segments, f, duration);
  }

  lemma ExtendedIsGreedy(segments: seq<Segment>, f: Frame, duration: Option<int>)
    requires Greedy(segments, duration)
    ensures NoneEmpty(segments)
    ensures Greedy(Extended(segments, f, duration), duration)
  {
    hide Due;
    assert forall k :: 0 <= k < |segments| ==> Whole(segments[k], duration);
    if segments == [] {
      assert f.key ==> Whole([f], duration);
    } else {
      var n := |segments| - 1;
      var s := segments[n];
      if Due(s[0], f, duration) {
        DueIsKey(s[0], f, duration);
        assert Whole([f], duration);
      } else {
        assert Whole(s + [f], duration);
        assert (s + [f])[0] == s[0];
      }
    }
  }

  lemma DueIsKey(start: Frame, f: Frame, duration: Option<int>)
    requires Due(start, f, duration)
    ensures f.key
  {
  }

  lemma ExtendedJoins(segments: seq<Segment>, f: Frame, duration: Option<int>)
    requires NoneEmpty(segments)
    ensures Joined(Extended(segments, f, duration)) == if segments == [] && !f.key then [] else Joined(segments) + [f]
  {
    if segments != [] {
      var n := |segments| - 1;
      var s := segments[n];
      assert segments == segments[..n] + [s];
      JoinedAppend(segments, [[f]]);
      JoinedAppend(segments[..n], [s]);
      JoinedAppend(segments[..n], [s + [f]]);
      assert Joined([[f]]) == [f] && Joined([s]) == s && Joined([s + [f]]) == s + [f];
    }
  }

  // ----- files

  /** A written packet: presentation times count milliseconds from the start of the file. */
  datatype Packet = Packet(data: seq<Byte>, key: bool, pts: int)

  datatype Name = Plain | Stamped(start: int, end: int)

  function PacketOf(f: Frame, start: int): Packet
  {
    Packet(f.data, f.key, Milliseconds(f.timestamp - start))
  }

  function Written(frames: seq<Frame>, start: int): (r: seq<Packet>)
    ensures |r| == |frames|
    ensures forall k :: 0 <= k < |r| ==> r[k] == PacketOf(frames[k], start)
  {
    if frames == [] then [] else [PacketOf(frames[0], start)] + Written(frames[1..], start)
  }

  /** A file holds its frames one by one, each at its distance from `start` in whole milliseconds. */
  lemma FilesHoldTheirFrames(frames: seq<Frame>, start: int, k: nat)
    requires k < |frames|
    ensures |Written(frames, start)| == |frames|
    ensures var p := Written(frames, start)[k]; var passed := frames[k].timestamp - start;
      && p.data == frames[k].data && p.key == frames[k].key
      && (0 <= passed ==> p.pts * 1_000_000 <= passed < (p.pts + 1) * 1_000_000)
      && (passed <= 0 ==> (p.pts - 1) * 1_000_000 < passed <= p.pts * 1_000_000)
  {
  }

  function NameOf(s: Segment, duration: Option<int>): Name
    requires s != []
  {
    if duration.None? then Plain
    else Stamped(Milliseconds(s[0].timestamp), Milliseconds(s[|s| - 1].timestamp))
  }

  /** A file is named after the milliseconds of its first and its last frame, or, if there is only one, plainly. */
  lemma FilesAreNamed(s: Segment, duration: Option<int>)
    requires s != [] && 0 <= s[0].timestamp && 0 <= s[|s| - 1].timestamp
    ensures match NameOf(s, duration)
      case Plain => duration == None
      case Stamped(first, last) =>
        && duration != None
        && first * 1_000_000 <= s[0].timestamp < (first + 1) * 1_000_000
        && last * 1_000_000 <= s[|s| - 1].timestamp < (last + 1) * 1_000_000
  {
  }

  /** The directory after all segments are renamed into place, the later over the earlier. */
  ghost function Saved(segments: seq<Segment>, duration: Option<int>): map<Name, seq<Packet>>
    requires NoneEmpty(segments)
  {
    if segments == [] then map[] else
    var n := |segments| - 1;
    Saved(segments[..n], duration)[NameOf(segments[n], duration) := Written(segments[n], segments[n][0].timestamp)]
  }

  lemma OneMoreFile(segments: seq<Segment>, s: Segment, duration: Option<int>)
    requires NoneEmpty(segments) && s != []
    ensures NoneEmpty(segments + [s])
    ensures Saved(segments + [s], duration)
         == Saved(segments, duration)[NameOf(s, duration) := Written(s, s[0].timestamp)]
  {
    assert (segments + [s])[..|segments|] == segments;
  }

  ghost predicate SinceEpoch(segments: seq<Segment>)
  {
    forall k, j :: 0 <= k < |segments| && 0 <= j < |segments[k]| ==> 0 <= segments[k][j].timestamp
  }

  /** Nothing is lost: every segment has its own file. */
  ghost predicate AllKept(segments: seq<Segment>, duration: Option<int>)
    requires NoneEmpty(segments)
  {
    forall k :: 0 <= k < |segments| ==> Kept(segments[k], Saved(segments, duration), duration)
  }

  predicate Kept(s: Segment, directory: map<Name, seq<Packet>>, duration: Option<int>)
    requires s != []
  {
    NameOf(s, duration) in directory && directory[NameOf(s, duration)] == Written(s, s[0].timestamp)
  }

  lemma {:induction false} StartsRise(segments: seq<Segment>, duration: Option<int>, i: nat, j: nat)
    requires Greedy(segments, duration) && NoneEmpty(segments) && i < j < |segments|
    requires duration.Some? && 0 <= duration.value
    ensures segments[j][0].timestamp >= segments[i][0].timestamp + duration.value
    decreases j - i
  {
    assert Due(segments[j - 1][0], segments[j][0], duration);
    if i < j - 1 {
      StartsRise(segments, duration, i, j - 1);
    }
  }

  /** Starts a millisecond apart have different names. */
  lemma NamesDiffer(a: Segment, b: Segment, duration: Option<int>)
    requires a != [] && b != [] && duration.Some?
    requires 0 <= a[0].timestamp && a[0].timestamp + MILLISECOND <= b[0].timestamp
    ensures NameOf(a, duration) != NameOf(b, duration)
  {
  }

  /** The last file does not overwrite an earlier one. */
  lemma EarlierFileIsKept(segments: seq<Segment>, duration: Option<int>, k: nat)
    requires Greedy(segments, duration) && SinceEpoch(segments) && NoneEmpty(segments)
    requires duration.Some? ==> MILLISECOND <= duration.value
    requires k < |segments| - 1 && Kept(segments[k], Saved(segments[..|segments| - 1], duration), duration)
    ensures Kept(segments[k], Saved(segments, duration), duration)
  {
    hide Due, NameOf, Written;
    LaterDurationIsSome(segments, duration);
    StartsRise(segments, duration, k, |segments| - 1);
    assert 0 <= segments[k][0].timestamp;
    NamesDiffer(segments[k], segments[|segments| - 1], duration);
  }

  /** With one file, or segments of a millisecond or more, no file overwrites another. */
  lemma {:induction false} LongSegmentsAreAllKept(segments: seq<Segment>, duration: Option<int>)
    requires Greedy(segments, duration) && SinceEpoch(segments) && NoneEmpty(segments)
    requires duration.Some? ==> MILLISECOND <= duration.value
    ensures AllKept(segments, duration)
    decreases |segments|
  {
    hide Due, NameOf, Written, Kept, Saved;
    if segments != [] {
      var n := |segments| - 1;
      var first := segments[..n];
      InitIsGreedy(segments, duration);
      LongSegmentsAreAllKept(first, duration);
      LastFileIsKept(segments, duration);
      forall k | 0 <= k < n ensures Kept(segments[k], Saved(segments, duration), duration) {
        assert segments[k] == first[k];
        EarlierFileIsKept(segments, duration, k);
      }
    }
  }

  lemma LastFileIsKept(segments: seq<Segment>, duration: Option<int>)
    requires NoneEmpty(segments) && segments != []
    ensures Kept(segments[|segments| - 1], Saved(segments, duration), duration)
  {
  }

  lemma LaterDurationIsSome(segments: seq<Segment>, duration: Option<int>)
    requires Greedy(segments, duration) && NoneEmpty(segments) && 1 < |segments|
    ensures duration.Some?
  {
    assert Due(segments[0][0], segments[1][0], duration);
  }

  lemma InitIsGreedy(segments: seq<Segment>, duration: Option<int>)
    requires Greedy(segments, duration) && NoneEmpty(segments) && segments != []
    ensures var first := segments[..|segments| - 1]; Greedy(first, duration) && NoneEmpty(first)
  {
    var first := segments[..|segments| - 1];
    forall k | 1 <= k < |first| ensures Due(first[k - 1][0], first[k][0], duration) {
      assert Due(segments[k - 1][0], segments[k][0], duration);
    }
  }

  /** With shorter ones a file can be lost: two key frames in the same millisecond. */
  lemma ShortSegmentsCanBeLost(d: int, x: Byte)
    requires d < MILLISECOND
    ensures exists segments: seq<Segment> ::
      Greedy(segments, Some(d)) && SinceEpoch(segments) && NoneEmpty(segments) && !AllKept(segments, Some(d))
  {
    var t := if d < 0 then 0 else d;
    var a := [Frame(true, 0, [])];
    var b := [Frame(true, t, [x])];
    var both: seq<Segment> := [a, b];
    assert Written(a, 0)[0] == PacketOf(a[0], 0) && Written(b, t)[0] == PacketOf(b[0], t);
    assert Milliseconds(0) == 0 && Milliseconds(t) == 0;
    TwoOfOneNameLoseTheFirst(a, b, Some(d));
    assert Whole(both[0], Some(d)) && Whole(both[1], Some(d)) && Due(both[0][0], both[1][0], Some(d));
    assert Greedy(both, Some(d)) && SinceEpoch(both) && NoneEmpty(both);
    assert !AllKept(both, Some(d));
  }

  lemma TwoOfOneNameLoseTheFirst(a: Segment, b: Segment, duration: Option<int>)
    requires a != [] && b != [] && NameOf(a, duration) == NameOf(b, duration)
    requires Written(a, a[0].timestamp) != Written(b, b[0].timestamp)
    ensures NoneEmpty([a, b]) && !AllKept([a, b], duration)
  {
    assert [a, b][..1] == [a] && [a][..0] == [];
    assert Saved([a, b], duration)[NameOf(b, duration)] == Written(b, b[0].timestamp);
    assert !Kept([a, b][0], Saved([a, b], duration), duration);
  }
}
