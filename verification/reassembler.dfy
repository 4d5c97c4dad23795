/** The stateful decoder that puts frames together again from network frames. */
module Reassembly {
  import opened Wrappers
  import opened Base64
  import opened Frames

  /** The fields of the packet visitor; `chunk` is the uint8 counter of the next expected chunk. */
  datatype Decoder = Decoder(chunk: nat, id: FrameId, timestamp: real, keyFrame: bool, aggregated: seq<Byte>)

  datatype Outcome = Nothing | Emitted(frame: EncodedFrame) | Aborted

  function Reset(d: Decoder): Decoder
  {
    d.(chunk := 1, aggregated := [])
  }

  /** One network frame; undecodable base64 fails a CHECK. */
  function Step(d: Decoder, nf: NetworkFrame): (Decoder, Outcome)
  {
    if d.chunk != nf.chunk then (Reset(d), Nothing)
    else
      var d1 := if nf.chunk == 1 then d.(id := nf.id, timestamp := nf.t, keyFrame := nf.keyFrame) else d;
      match Decode(nf.data)
      case BadMessage => (d1, Aborted)
      case Ok(bytes) =>
        var d2 := d1.(aggregated := d1.aggregated + bytes);
        if nf.chunk == nf.chunks then
          (Reset(d2), Emitted(EncodedFrame(d2.aggregated, d2.id, d2.timestamp, d2.keyFrame)))
        else (d2.(chunk := (d2.chunk + 1) % 256), Nothing)
  }

  datatype EncodedMetadata = EncodedMetadata(codecName: string, codecData: seq<Byte>)

  class PacketVisitor {
    var chunk: nat
    var id: FrameId
    var timestamp: real
    var keyFrame: bool
    var aggregated: seq<Byte>

    ghost function State(): Decoder
      reads this
    {
      Decoder(chunk, id, timestamp, keyFrame, aggregated)
    }

    constructor ()
      ensures State().chunk == 1 && State().aggregated == []
    {
      chunk, aggregated := 1, [];
      id, timestamp, keyFrame := FrameId(0, 0), 0.0, false;
    }

    method ResetState()
      modifies this
      ensures State() == Reset(old(State()))
    {
      chunk := 1;
      aggregated := [];
    }

    method OnFrame(nf: NetworkFrame) returns (out: Outcome)
      modifies this
      ensures (State(), out) == Step(old(State()), nf)
    {
      if chunk != nf.chunk {
        ResetState();
        return Nothing;
      }
      if nf.chunk == 1 {
        id := nf.id;
        timestamp := nf.t;
        keyFrame := nf.keyFrame;
      }
      var decoded := Decode(nf.data);
      if decoded.BadMessage? {
        return Aborted;
      }
      aggregated := aggregated + decoded.value;
      if nf.chunk == nf.chunks {
        var frame := EncodedFrame(aggregated, id, timestamp, keyFrame);
        ResetState();
        return Emitted(frame);
      }
      chunk := (chunk + 1) % 256;
      return Nothing;
    }

    /** Metadata passes through and does not touch the frame in progress. */
    method OnMetadata(codecName: string, base64Data: string) returns (out: Result<EncodedMetadata>)
      ensures out == match Decode(base64Data)
                     case BadMessage => BadMessage
                     case Ok(bytes) => Ok(EncodedMetadata(codecName, bytes))
    {
      var decoded := Decode(base64Data);
      if decoded.BadMessage? {
        return BadMessage;
      }
      return Ok(EncodedMetadata(codecName, decoded.value));
    }

    /** A whole run over a sequence of packets. */
    method Run(packets: seq<NetworkFrame>) returns (frames: seq<EncodedFrame>, ok: bool)
      modifies this
      ensures Fed(State(), frames, ok) == Feed(old(State()), packets)
    {
      frames := [];
      var i := 0;
      while i < |packets|
        invariant i <= |packets|
        invariant Feed(old(State()), packets) == Prepend(frames, Feed(State(), packets[i..]))
      {
        assert packets[i..][1..] == packets[i + 1..];
        ghost var rest := Feed(Step(State(), packets[i]).0, packets[i + 1..]);
        var out := OnFrame(packets[i]);
        match out {
          case Aborted =>
            assert frames + [] == frames;
            return frames, false;
          case Emitted(frame) =>
            assert frames + ([frame] + rest.frames) == (frames + [frame]) + rest.frames;
            frames := frames + [frame];
          case Nothing =>
        }
        i := i + 1;
      }
      assert frames + [] == frames;
      ok := true;
    }
  }

  // ----- runs

  /** What a run leaves behind; a failed CHECK ends it. */
  datatype Fed = Fed(decoder: Decoder, frames: seq<EncodedFrame>, ok: bool)

  function Prepend(frames: seq<EncodedFrame>, r: Fed): Fed
  {
    r.(frames := frames + r.frames)
  }

  function Feed(d: Decoder, packets: seq<NetworkFrame>): Fed
    decreases |packets|
  {
    if packets == [] then Fed(d, [], true)
    else
      var (next, out) := Step(d, packets[0]);
      match out
      case Aborted => Fed(next, [], false)
      case Nothing => Feed(next, packets[1..])
      case Emitted(frame) => Prepend([frame], Feed(next, packets[1..]))
  }

  lemma {:induction false} FeedConcat(d: Decoder, a: seq<NetworkFrame>, b: seq<NetworkFrame>)
    ensures var first := Feed(d, a);
      Feed(d, a + b) == if first.ok then Prepend(first.frames, Feed(first.decoder, b)) else first
    decreases |a|
  {
    if a == [] {
      assert a + b == b;
      assert [] + Feed(d, b).frames == Feed(d, b).frames;
    } else {
      var (next, out) := Step(d, a[0]);
      assert (a + b)[1..] == a[1..] + b;
      FeedConcat(next, a[1..], b);
      if out.Emitted? {
        var first := Feed(next, a[1..]);
        assert [out.frame] + (first.frames + Feed(first.decoder, b).frames)
          == ([out.frame] + first.frames) + Feed(first.decoder, b).frames;
      }
    }
  }

  // ----- one frame

  /** The packets are the pieces of `f`, in order, whatever their departure times. */
  ghost predicate Carries(packets: seq<NetworkFrame>, f: EncodedFrame)
  {
    && |packets| == ChunkCount(|f.data|)
    && forall i :: 0 <= i < |packets| ==> packets[i].(dt := 0.0) == Piece(f, i)
  }

  /** In the middle of `f`: the first `k` pieces are in. */
  ghost predicate HasPieces(d: Decoder, f: EncodedFrame, k: nat)
  {
    && d.chunk == (k + 1) % 256
    && d.aggregated == Prefix(f.data, k)
    && (k > 0 ==> d.id == f.id && d.timestamp == f.timestamp && d.keyFrame == f.keyFrame)
  }

  /** The next piece is accepted: it is the last one, or the counter moves on. */
  lemma PieceAccepted(d: Decoder, f: EncodedFrame, k: nat, nf: NetworkFrame)
    requires HasPieces(d, f, k) && k < 255 && k < ChunkCount(|f.data|) < TWO32
    requires nf.(dt := 0.0) == Piece(f, k)
    ensures var (next, out) := Step(d, nf);
      if k + 1 == ChunkCount(|f.data|) then out == Emitted(f) && next.chunk == 1 && next.aggregated == []
      else out == Nothing && HasPieces(next, f, k + 1)
  {
    hide Encode, Decode;
    DecodeEncode(Slice(f.data, k));
    PrefixIsAll(f.data);
    PrefixGrows(f.data, k);
  }

  ghost predicate Small(f: EncodedFrame)
  {
    1 <= ChunkCount(|f.data|) <= 255
  }

  lemma SmallIsUpTo255Chunks(f: EncodedFrame)
    ensures Small(f) <==> 1 <= |f.data| <= 255 * MAX_CHUNK_SIZE
  {
  }

  lemma {:induction false} RestOfFrame(d: Decoder, f: EncodedFrame, packets: seq<NetworkFrame>, k: nat)
    requires Small(f) && Carries(packets, f) && k < |packets| && HasPieces(d, f, k)
    ensures var r := Feed(d, packets[k..]);
      r.ok && r.frames == [f] && r.decoder.chunk == 1 && r.decoder.aggregated == []
    decreases |packets| - k
  {
    PieceAccepted(d, f, k, packets[k]);
    assert packets[k..][0] == packets[k] && packets[k..][1..] == packets[k + 1..];
    var next := Step(d, packets[k]).0;
    if k + 1 < |packets| {
      RestOfFrame(next, f, packets, k + 1);
    } else {
      assert Feed(next, packets[k + 1..]) == Fed(next, [], true);
    }
  }

  /** A reset decoder fed the pieces of a frame of 1 to 255 chunks emits exactly that frame. */
  lemma {:induction false} FrameComesBack(d: Decoder, f: EncodedFrame, packets: seq<NetworkFrame>)
    requires d.chunk == 1 && d.aggregated == []
    requires Small(f) && Carries(packets, f)
    ensures var r := Feed(d, packets);
      r.ok && r.frames == [f] && r.decoder.chunk == 1 && r.decoder.aggregated == []
  {
    PrefixIsAll(f.data);
    assert packets[0..] == packets;
    RestOfFrame(d, f, packets, 0);
  }

  // ----- any packets

  /** All the data of the packets, in a row. */
  function JoinedData(packets: seq<NetworkFrame>): Option<seq<Byte>>
  {
    if packets == [] then Some([])
    else
      var before := JoinedData(packets[..|packets| - 1]);
      var last := Decode(packets[|packets| - 1].data);
      if before.Some? && last.Ok? then Some(before.value + last.value) else None
  }

  /** Numbered from one up, and only the last one is marked as the last. */
  ghost predicate InARow(packets: seq<NetworkFrame>)
  {
    && |packets| <= 255 && JoinedData(packets).Some?
    && forall i :: 0 <= i < |packets| ==>
         packets[i].chunk == i + 1 && (packets[i].chunks == i + 1 ==> i == |packets| - 1)
  }

  /** A reset decoder has taken them in. */
  ghost predicate TakenIn(d: Decoder, r: Fed, packets: seq<NetworkFrame>)
    requires packets != [] && JoinedData(packets).Some?
  {
    && r.ok && r.frames == [] && r.decoder.chunk == (|packets| + 1) % 256
    && r.decoder == Decoder(r.decoder.chunk, packets[0].id, packets[0].t, packets[0].keyFrame,
                            JoinedData(packets).value)
  }

  lemma OnePacket(d: Decoder, nf: NetworkFrame)
    ensures var (next, out) := Step(d, nf);
      Feed(d, [nf]) == match out
        case Aborted => Fed(next, [], false)
        case Nothing => Fed(next, [], true)
        case Emitted(frame) => Fed(next, [frame], true)
  {
    assert [nf][1..] == [];
  }

  lemma {:induction false} UnfinishedIsTakenIn(d: Decoder, packets: seq<NetworkFrame>)
    requires d.chunk == 1 && d.aggregated == [] && packets != [] && InARow(packets)
    requires packets[|packets| - 1].chunks != |packets|
    ensures TakenIn(d, Feed(d, packets), packets)
    decreases |packets|
  {
    hide Decode;
    var n := |packets| - 1;
    var before, last := packets[..n], packets[n];
    assert packets == before + [last];
    FeedConcat(d, before, [last]);
    if n > 0 {
      UnfinishedIsTakenIn(d, before);
      OnePacket(Feed(d, before).decoder, last);
    } else {
      OnePacket(d, last);
      assert before == [] && JoinedData(before) == Some([]);
    }
  }

  /**
   Whatever packets come in a row, from one up to the one that is marked as the last: they are
   one frame, of all their data, with the id, time and kind of the first.
   */
  lemma PacketsInARowAreAFrame(d: Decoder, packets: seq<NetworkFrame>)
    requires d.chunk == 1 && d.aggregated == [] && packets != [] && InARow(packets)
    requires packets[|packets| - 1].chunks == |packets|
    ensures var r := Feed(d, packets);
      && r.ok && r.frames == [EncodedFrame(JoinedData(packets).value, packets[0].id, packets[0].t, packets[0].keyFrame)]
      && r.decoder.chunk == 1 && r.decoder.aggregated == []
  {
    hide Decode;
    var n := |packets| - 1;
    var before, last := packets[..n], packets[n];
    assert packets == before + [last];
    FeedConcat(d, before, [last]);
    if n > 0 {
      UnfinishedIsTakenIn(d, before);
      OnePacket(Feed(d, before).decoder, last);
    } else {
      OnePacket(d, last);
      assert before == [] && JoinedData(before) == Some([]);
    }
  }

  /**
   A packet that does not match is dropped with all that was in; one that matches and cannot be
   decoded fails a CHECK.
   */
  lemma MismatchesAndFailures(d: Decoder, nf: NetworkFrame)
    ensures nf.chunk != d.chunk ==> Step(d, nf) == (d.(chunk := 1, aggregated := []), Nothing)
    ensures Step(d, nf).1 == Aborted <==> nf.chunk == d.chunk && Decode(nf.data) == BadMessage
  {
    hide Decode;
  }

  /** Packets that do not match the counter and are not a first chunk change nothing but reset. */
  lemma {:induction false} Ignored(d: Decoder, packets: seq<NetworkFrame>)
    requires forall i :: 0 <= i < |packets| ==> packets[i].chunk != 1
    requires packets != [] ==> packets[0].chunk != d.chunk
    requires packets == [] ==> d.chunk == 1 && d.aggregated == []
    ensures var r := Feed(d, packets);
      r.ok && r.frames == [] && r.decoder.chunk == 1 && r.decoder.aggregated == []
    decreases |packets|
  {
    if packets != [] {
      Ignored(Reset(d), packets[1..]);
    }
  }

  lemma {:induction false} CounterRunsOver(d: Decoder, f: EncodedFrame, packets: seq<NetworkFrame>, k: nat)
    requires 255 < ChunkCount(|f.data|) < TWO32 && Carries(packets, f) && k <= 255 && HasPieces(d, f, k)
    ensures var r := Feed(d, packets[k..]);
      r.ok && r.frames == [] && r.decoder.chunk == 1 && r.decoder.aggregated == []
    decreases 255 - k
  {
    hide Encode, Decode;
    var rest := packets[k..];
    assert rest[0] == packets[k] && rest[1..] == packets[k + 1..];
    if k == 255 {
      forall i | 0 <= i < |rest|
        ensures rest[i].chunk != 1 && rest[i].chunk != 0
      {
        assert rest[i].chunk == packets[k + i].(dt := 0.0).chunk == Piece(f, k + i).chunk;
      }
      Ignored(d, rest);
    } else {
      PieceAccepted(d, f, k, packets[k]);
      CounterRunsOver(Step(d, packets[k]).0, f, packets, k + 1);
    }
  }

  /** A frame of more than 255 chunks is lost: the counter is eight bits wide. */
  lemma LongFrameIsLost(d: Decoder, f: EncodedFrame, packets: seq<NetworkFrame>)
    requires d.chunk == 1 && d.aggregated == []
    requires 255 < ChunkCount(|f.data|) < TWO32 && Carries(packets, f)
    ensures var r := Feed(d, packets);
      r.ok && r.frames == [] && r.decoder.chunk == 1 && r.decoder.aggregated == []
  {
    PrefixIsAll(f.data);
    assert packets[0..] == packets;
    CounterRunsOver(d, f, packets, 0);
  }

  // ----- end to end

  /** All pieces of a frame over the wire, each leaving and arriving at some time. */
  ghost predicate Received(packets: seq<NetworkFrame>, f: EncodedFrame, departures: seq<real>, arrivals: seq<real>)
  {
    && |packets| == |departures| == |arrivals| == ChunkCount(|f.data|)
    && forall i :: 0 <= i < |packets| ==> Some(packets[i]) == Travel(Piece(f, i), departures[i], arrivals[i])
  }

  lemma ReceivedCarries(packets: seq<NetworkFrame>, f: EncodedFrame, departures: seq<real>, arrivals: seq<real>)
    requires IsInt64(f.id.i1) && IsInt64(f.id.i2) && Received(packets, f, departures, arrivals)
    ensures Carries(packets, f)
  {
    forall i | 0 <= i < |packets|
      ensures packets[i].(dt := 0.0) == Piece(f, i)
    {
      PiecesAreSendable(f, i);
      TravelsUnchanged(Piece(f, i), departures[i], arrivals[i]);
    }
  }

  /** Nothing is lost on the way: every piece of every frame arrives. */
  lemma EveryPieceArrives(f: EncodedFrame, i: nat, departure: real, arrival: real)
    requires IsInt64(f.id.i1) && IsInt64(f.id.i2)
    ensures Travel(Piece(f, i), departure, arrival) == Some(Piece(f, i).(dt := departure))
  {
    PiecesAreSendable(f, i);
    TravelsUnchanged(Piece(f, i), departure, arrival);
  }

  /**
   End to end: chunking, base64, JSON, CBOR items and back, parsing and reassembly give the
   frame back exactly when it has 1 to 255 chunks, and nothing otherwise.
   */
  lemma EndToEnd(d: Decoder, f: EncodedFrame, packets: seq<NetworkFrame>, departures: seq<real>, arrivals: seq<real>)
    requires d.chunk == 1 && d.aggregated == []
    requires IsInt64(f.id.i1) && IsInt64(f.id.i2) && ChunkCount(|f.data|) < TWO32
    requires Received(packets, f, departures, arrivals)
    ensures var r := Feed(d, packets);
      && r.ok && r.decoder.chunk == 1 && r.decoder.aggregated == []
      && r.frames == (if 1 <= |f.data| <= 255 * 48_750 then [f] else [])
  {
    ReceivedCarries(packets, f, departures, arrivals);
    SmallIsUpTo255Chunks(f);
    if Small(f) {
      FrameComesBack(d, f, packets);
    } else if |f.data| > 0 {
      LongFrameIsLost(d, f, packets);
    }
  }

  // ----- after loss

  /** What every packet with a chunk number of at least one keeps. */
  ghost predicate Stable(d: Decoder)
  {
    d.chunk < 256 && (d.chunk == 1 ==> d.aggregated == [])
  }

  lemma {:induction false} StepStaysStable(d: Decoder, nf: NetworkFrame)
    requires Stable(d) && 1 <= nf.chunk
    ensures Stable(Step(d, nf).0)
  {
    hide Decode;
  }

  lemma {:induction false} StaysStable(d: Decoder, packets: seq<NetworkFrame>)
    requires Stable(d) && forall i :: 0 <= i < |packets| ==> 1 <= packets[i].chunk
    ensures Stable(Feed(d, packets).decoder)
    decreases |packets|
  {
    hide Step, Stable;
    if packets != [] {
      var (next, out) := Step(d, packets[0]);
      StepStaysStable(d, packets[0]);
      if out != Aborted {
        StaysStable(next, packets[1..]);
      }
    }
  }

  /** Some frames in a row, piece by piece. */
  ghost predicate CarriesAll(packets: seq<seq<NetworkFrame>>, frames: seq<EncodedFrame>)
  {
    && |packets| == |frames|
    && forall i :: 0 <= i < |frames| ==> Small(frames[i]) && Carries(packets[i], frames[i])
  }

  function Flatten(packets: seq<seq<NetworkFrame>>): seq<NetworkFrame>
  {
    if packets == [] then [] else packets[0] + Flatten(packets[1..])
  }

  lemma {:induction false} FramesComeBack(d: Decoder, frames: seq<EncodedFrame>, packets: seq<seq<NetworkFrame>>)
    requires d.chunk == 1 && d.aggregated == [] && CarriesAll(packets, frames)
    ensures var r := Feed(d, Flatten(packets));
      r.ok && r.frames == frames && r.decoder.chunk == 1
    decreases |frames|
  {
    hide Step, Carries, Small;
    if frames != [] {
      FrameComesBack(d, frames[0], packets[0]);
      FeedConcat(d, packets[0], Flatten(packets[1..]));
      FramesComeBack(Feed(d, packets[0]).decoder, frames[1..], packets[1..]);
      assert frames == [frames[0]] + frames[1..];
    }
  }

  /** A frame that meets a decoder waiting for a later chunk is lost, and leaves it reset. */
  lemma FirstIsLost(d: Decoder, f: EncodedFrame, packets: seq<NetworkFrame>)
    requires d.chunk != 1 && Small(f) && Carries(packets, f)
    ensures var r := Feed(d, packets);
      r.ok && r.frames == [] && r.decoder.chunk == 1 && r.decoder.aggregated == []
  {
    var rest := packets[1..];
    assert packets[0].(dt := 0.0) == Piece(f, 0);
    forall i | 0 <= i < |rest|
      ensures rest[i].chunk != 1
    {
      assert packets[i + 1].(dt := 0.0) == Piece(f, i + 1);
    }
    Ignored(Reset(d), rest);
    assert Feed(d, packets) == Feed(Reset(d), rest);
  }

  /** Complete frames fed to any stable decoder. */
  lemma Recovers(d: Decoder, frames: seq<EncodedFrame>, packets: seq<seq<NetworkFrame>>)
    requires Stable(d) && CarriesAll(packets, frames)
    ensures var r := Feed(d, Flatten(packets));
      r.ok && r.frames == if d.chunk == 1 || frames == [] then frames else frames[1..]
  {
    if d.chunk == 1 {
      FramesComeBack(d, frames, packets);
    } else if frames != [] {
      FirstIsLost(d, frames[0], packets[0]);
      FeedConcat(d, packets[0], Flatten(packets[1..]));
      FramesComeBack(Feed(d, packets[0]).decoder, frames[1..], packets[1..]);
    }
  }

  /**
   Self-stabilisation: whatever was fed before, complete frames that follow come back
   exactly, except that the first of them is lost if and only if the decoder is waiting for
   a chunk other than the first.
   */
  lemma SelfStabilising(d: Decoder, before: seq<NetworkFrame>, frames: seq<EncodedFrame>,
                        packets: seq<seq<NetworkFrame>>)
    requires Stable(d) && forall i :: 0 <= i < |before| ==> 1 <= before[i].chunk
    requires CarriesAll(packets, frames) && Feed(d, before).ok
    ensures var first := Feed(d, before);
      var r := Feed(d, before + Flatten(packets));
      r.ok && r.frames == first.frames + (if first.decoder.chunk == 1 || frames == [] then frames else frames[1..])
  {
    StaysStable(d, before);
    FeedConcat(d, before, Flatten(packets));
    Recovers(Feed(d, before).decoder, frames, packets);
  }

  /**
   The bound on chunk numbers is needed. One packet ends stability exactly if the counter has
   run over to zero, the packet is numbered zero and is not the last, and some data is then in.
   */
  lemma StabilityEndsExactlyWhen(d: Decoder, nf: NetworkFrame)
    requires Stable(d)
    ensures !Stable(Step(d, nf).0) <==>
              d.chunk == 0 && nf.chunk == 0 && nf.chunks != 0 && Decode(nf.data).Ok?
                && d.aggregated + Decode(nf.data).value != []
  {
    hide Decode;
  }

  lemma LeftoverSpoilsTheFrame(d: Decoder, f: EncodedFrame, packet: NetworkFrame)
    requires d.chunk == 1 && ChunkCount(|f.data|) == 1 && packet.(dt := 0.0) == Piece(f, 0)
    ensures Step(d, packet).1 == Emitted(f.(data := d.aggregated + f.data))
  {
    hide Encode, Decode;
    assert Slice(f.data, 0) == f.data;
    DecodeEncode(f.data);
  }

  /** The first 255 pieces of a longer frame leave the counter at zero, with their data in. */
  lemma {:induction false} CounterReachesZero(d: Decoder, f: EncodedFrame, packets: seq<NetworkFrame>, k: nat)
    requires 255 < ChunkCount(|f.data|) < TWO32 && Carries(packets, f) && k <= 255 && HasPieces(d, f, k)
    ensures var r := Feed(d, packets[k..255]);
      r.ok && r.frames == [] && HasPieces(r.decoder, f, 255)
    decreases 255 - k
  {
    if k < 255 {
      var rest := packets[k..255];
      assert rest[0] == packets[k] && rest[1..] == packets[k + 1..255];
      PieceAccepted(d, f, k, packets[k]);
      CounterReachesZero(Step(d, packets[k]).0, f, packets, k + 1);
    }
  }

  lemma ZeroLeavesALeftover(d: Decoder, zero: NetworkFrame, bytes: seq<Byte>)
    requires d.chunk == 0 && zero.chunk == 0 && zero.chunks != 0 && Decode(zero.data) == Ok(bytes)
    ensures Step(d, zero) == (d.(chunk := 1, aggregated := d.aggregated + bytes), Nothing)
  {
    hide Decode;
  }

  /**
   Such a run, from a reset decoder: 255 pieces of a long frame, a packet numbered zero, and
   then a complete frame of one chunk, which comes out with all the earlier data in front.
   */
  lemma {:induction false} ChunkZeroSpoilsTheNextFrame(d: Decoder, f: EncodedFrame, packets: seq<NetworkFrame>,
                                    zero: NetworkFrame, bytes: seq<Byte>, g: EncodedFrame, last: NetworkFrame)
    requires d.chunk == 1 && d.aggregated == []
    requires 255 < ChunkCount(|f.data|) < TWO32 && Carries(packets, f)
    requires zero.chunk == 0 && zero.chunks != 0 && Decode(zero.data) == Ok(bytes)
    requires ChunkCount(|g.data|) == 1 && Carries([last], g)
    ensures var r := Feed(d, packets[..255] + [zero, last]);
      r.ok && r.frames == [g.(data := Prefix(f.data, 255) + bytes + g.data)] && r.frames != [g]
  {
    hide Decode, Encode, Step;
    PrefixIsAll(f.data);
    assert packets[0..255] == packets[..255];
    CounterReachesZero(d, f, packets, 0);
    FeedConcat(d, packets[..255], [zero, last]);
    var d1 := Feed(d, packets[..255]).decoder;
    ZeroLeavesALeftover(d1, zero, bytes);
    var d2 := d1.(chunk := 1, aggregated := d1.aggregated + bytes);
    assert [zero, last][1..] == [last] && [last][1..] == [];
    assert [last][0].(dt := 0.0) == Piece(g, 0);
    LeftoverSpoilsTheFrame(d2, g, last);
    assert Feed(d2, [last]).frames == [g.(data := d2.aggregated + g.data)];
    assert |Prefix(f.data, 255)| > 0;
  }
}
