/** The video file sink: encoded packets in, files of segments out. */
module FileSinks {
  import opened Wrappers
  import opened Segments

  datatype EncodedPacket = Metadata | Image(frame: Frame)

  /** The frames the decoder is fed: those after the first metadata. */
  function Heard(packets: seq<EncodedPacket>): seq<Frame>
  {
    if packets == [] then []
    else if packets[0].Metadata? then Images(packets[1..])
    else Heard(packets[1..])
  }

  function Images(packets: seq<EncodedPacket>): seq<Frame>
  {
    if packets == [] then []
    else if packets[0].Image? then [packets[0].frame] + Images(packets[1..])
    else Images(packets[1..])
  }

  /** The frames from the one on that, after those before it, tells the decoder the image size. */
  function Sized(fed: seq<Frame>, frames: seq<Frame>, tells: seq<Frame> -> bool): seq<Frame>
    decreases |frames|
  {
    if frames == [] then []
    else if tells(fed + [frames[0]]) then frames
    else Sized(fed + [frames[0]], frames[1..], tells)
  }

  function Recordable(packets: seq<EncodedPacket>, tells: seq<Frame> -> bool): seq<Frame>
  {
    Sized([], Heard(packets), tells)
  }

  lemma {:induction false} OneMoreHeard(packets: seq<EncodedPacket>, p: EncodedPacket)
    ensures Heard(packets + [p]) == if p.Image? && Metadata in packets then Heard(packets) + [p.frame]
      else Heard(packets)
  {
    if packets != [] {
      assert (packets + [p])[1..] == packets[1..] + [p];
      if packets[0].Metadata? {
        OneMoreImage(packets[1..], p);
      } else {
        OneMoreHeard(packets[1..], p);
        assert Metadata in packets <==> Metadata in packets[1..];
      }
    }
  }

  lemma {:induction false} OneMoreImage(packets: seq<EncodedPacket>, p: EncodedPacket)
    ensures Images(packets + [p]) == if p.Image? then Images(packets) + [p.frame] else Images(packets)
  {
    if packets != [] {
      assert (packets + [p])[1..] == packets[1..] + [p];
      OneMoreImage(packets[1..], p);
    }
  }

  lemma {:induction false} OneMoreSized(fed: seq<Frame>, frames: seq<Frame>, f: Frame, tells: seq<Frame> -> bool)
    ensures Sized(fed, frames + [f], tells) ==
              if Sized(fed, frames, tells) != [] || tells(fed + frames + [f]) then Sized(fed, frames, tells) + [f]
                else []
    decreases |frames|
  {
    if frames == [] {
      assert frames + [f] == [f] && fed + frames + [f] == fed + [f];
    } else {
      assert (frames + [f])[1..] == frames[1..] + [f];
      OneMoreSized(fed + [frames[0]], frames[1..], f, tells);
      assert fed + [frames[0]] + frames[1..] + [f] == fed + frames + [f];
    }
  }

  /** The frames after the first metadata packet, and nothing before it. */
  lemma {:induction false} HeardSinceMetadata(before: seq<EncodedPacket>, after: seq<EncodedPacket>)
    requires Metadata !in before
    ensures Heard(before) == [] && Heard(before + [Metadata] + after) == Images(after)
    decreases |before|
  {
    if before == [] {
      assert (before + [Metadata] + after)[1..] == after;
    } else {
      HeardSinceMetadata(before[1..], after);
      assert (before + [Metadata] + after)[1..] == before[1..] + [Metadata] + after;
    }
  }

  /** The decoder can tell the size from these frames. */
  predicate Told(tells: seq<Frame> -> bool, fed: seq<Frame>, frames: seq<Frame>, k: nat)
    requires k < |frames|
  {
    tells(fed + frames[..k + 1])
  }

  /** All images are recordable from the first one with which the decoder can tell the size. */
  lemma {:induction false} SizedFromTheFirst(fed: seq<Frame>, frames: seq<Frame>, tells: seq<Frame> -> bool)
      returns (k: nat)
    ensures k <= |frames| && Sized(fed, frames, tells) == frames[k..]
    ensures forall j :: 0 <= j < k ==> !Told(tells, fed, frames, j)
    ensures k < |frames| ==> Told(tells, fed, frames, k)
    decreases |frames|
  {
    k := 0;
    if frames != [] {
      assert fed + frames[..1] == fed + [frames[0]];
      if !Told(tells, fed, frames, 0) {
        k := SizedFromTheFirst(fed + [frames[0]], frames[1..], tells);
        forall j: nat | j < |frames[1..]|
          ensures Told(tells, fed + [frames[0]], frames[1..], j) == Told(tells, fed, frames, j + 1)
        {
          assert fed + [frames[0]] + frames[1..][..j + 1] == fed + frames[..j + 2];
        }
        forall j: nat | j < k + 1 ensures !Told(tells, fed, frames, j) {
          if j > 0 {
            assert !Told(tells, fed + [frames[0]], frames[1..], j - 1);
          }
        }
        k := k + 1;
      }
    }
  }

  lemma OneMoreRecordable(packets: seq<EncodedPacket>, f: Frame, tells: seq<Frame> -> bool)
    ensures Recordable(packets + [Image(f)], tells) ==
              if Metadata in packets && (Recordable(packets, tells) != [] || tells(Heard(packets) + [f]))
              then Recordable(packets, tells) + [f] else Recordable(packets, tells)
    ensures Heard(packets) == [] ==> Recordable(packets, tells) == []
  {
    OneMoreHeard(packets, Image(f));
    OneMoreSized([], Heard(packets), f, tells);
    assert [] + Heard(packets) == Heard(packets);
  }

  /** `stream_decoder`: `tells` says after which frames libavcodec knows the image size. */
  class StreamDecoder {
    const tells: seq<Frame> -> bool
    var fed: seq<Frame>
    var sizeKnown: bool

    constructor (tells: seq<Frame> -> bool)
      ensures this.tells == tells && fed == [] && !sizeKnown
    {
      this.tells := tells;
      fed, sizeKnown := [], false;
    }

    method Feed(f: Frame)
      modifies this
      ensures old(sizeKnown) ==> sizeKnown && fed == old(fed)
      ensures !old(sizeKnown) ==> fed == old(fed) + [f] && sizeKnown == tells(fed)
    {
      if sizeKnown {
        return;
      }
      fed := fed + [f];
      sizeKnown := tells(fed);
    }
  }

  /** `video_file_writer`, over an open temporary file. */
  class VideoFileWriter {
    var started: bool
    var start: int
    var last: int
    var file: seq<Packet>
    ghost var written: Segment

    ghost predicate Valid()
      reads this
    {
      && started == (written != [])
      && (started ==> start == written[0].timestamp && last == written[|written| - 1].timestamp)
      && file == (if started then Written(written, start) else [])
    }

    constructor ()
      ensures Valid() && written == []
    {
      started, start, last, file, written := false, 0, 0, [], [];
    }

    method WriteFrame(f: Frame)
      requires Valid()
      modifies this
      ensures Valid() && written == old(written) + [f]
    {
      hide PacketOf, Written;
      if !started {
        started := true;
        start := f.timestamp;
      }
      last := f.timestamp;
      file := file + [PacketOf(f, start)];
      written := written + [f];
    }
  }

  class VideoFileSink {
    const duration: Option<int>
    const tells: seq<Frame> -> bool

    var decoder: StreamDecoder?
    var writer: VideoFileWriter?
    /** What lies under the final names. */
    var directory: map<Name, seq<Packet>>

    /** The packets so far, and the segments already renamed into place. */
    ghost var packets: seq<EncodedPacket>
    ghost var closed: seq<Segment>

    ghost predicate Decoding()
      reads this, decoder
    {
      && (decoder != null <==> Metadata in packets)
      && (decoder != null ==>
            && decoder.tells == tells
            && (decoder.sizeKnown <==> Recordable(packets, tells) != [])
            && (!decoder.sizeKnown ==> decoder.fed == Heard(packets)))
      && (decoder == null ==> Heard(packets) == [])
    }

    /** All segments, the one being written last. */
    ghost function Segments(): seq<Segment>
      reads this, writer
    {
      if writer == null then closed else closed + [writer.written]
    }

    /** The segments are the greedy cutting of what was to be recorded. */
    ghost predicate Recording()
      reads this, writer
    {
      && (writer == null ==> closed == [])
      && (writer != null ==> writer.Valid())
      && Cuts(Segments(), Recordable(packets, tells), duration)
      && NoneEmpty(Segments()) && NoneEmpty(closed)
      && directory == Saved(closed, duration)
    }

    ghost predicate Valid()
      reads this, decoder, writer
    {
      Decoding() && Recording()
    }

    constructor (duration: Option<int>, tells: seq<Frame> -> bool)
      ensures Valid() && packets == [] && this.duration == duration && this.tells == tells
      ensures decoder == null && writer == null
    {
      this.duration, this.tells := duration, tells;
      decoder, writer, directory := null, null, map[];
      packets, closed := [], [];
    }

    method OnMetadata()
      requires Valid()
      modifies this
      ensures Valid() && packets == old(packets) + [Metadata]
      ensures decoder == old(decoder) || fresh(decoder)
      ensures writer == old(writer)
    {
      OneMoreHeard(packets, Metadata);
      packets := packets + [Metadata];
      if decoder != null {
        return;
      }
      decoder := new StreamDecoder(tells);
    }

    /** Every recordable frame extends the segments; before that, frames only go to the decoder. */
    method OnFrame(f: Frame)
      requires Valid()
      modifies this, decoder, writer
      ensures Valid() && packets == old(packets) + [Image(f)]
      ensures decoder == old(decoder)
      ensures writer == old(writer) || writer == null || fresh(writer)
      ensures Segments() == if Recordable(packets, tells) == [] then old(Segments())
        else Extended(old(Segments()), f, duration)
    {
      hide Saved, NameOf, Written, VideoFileWriter.Valid, Cuts, Extended, Heard, Due, Recordable;
      ghost var before := packets;
      OneMoreHeard(packets, Image(f));
      OneMoreRecordable(packets, f, tells);
      packets := packets + [Image(f)];
      if decoder == null {
        return;
      }
      if !decoder.sizeKnown {
        decoder.Feed(f);
      }
      if !decoder.sizeKnown {
        return;
      }
      assert Recordable(packets, tells) == Recordable(before, tells) + [f];
      assert writer != null ==> Segments()[|closed|] == writer.written;
      ExtendedCuts(Segments(), Recordable(before, tells), f, duration);
      Record(f);
    }

    /** Cut if the frame is due, open a file if a key frame finds none, and write. */
    method Record(f: Frame)
      requires writer != null ==> writer.Valid() && writer.written != []
      requires writer == null ==> closed == []
      requires NoneEmpty(closed) && directory == Saved(closed, duration)
      modifies this`writer, this`directory, this`closed, writer
      ensures writer == old(writer) || fresh(writer)
      ensures writer != null ==> writer.Valid() && writer.written != []
      ensures writer == null ==> closed == []
      ensures NoneEmpty(closed) && directory == Saved(closed, duration)
      ensures NoneEmpty(old(Segments())) && Segments() == Extended(old(Segments()), f, duration)
    {
      hide Saved, NameOf, Written, VideoFileWriter.Valid;
      ghost var was := Segments();
      if writer != null {
        assert was[|closed|] == writer.written && was[..|closed|] == closed;
        StartedWhenWritten(writer);
      }
      if f.key {
        if duration.Some? && writer != null && f.timestamp >= writer.start + duration.value {
          ReleaseWriter();
        }
        if writer == null {
          writer := new VideoFileWriter();
        }
      }
      if writer != null {
        ghost var before := writer.written;
        writer.WriteFrame(f);
        assert before == [] ==> writer.written == [f];
      }
    }

    lemma StartedWhenWritten(w: VideoFileWriter)
      requires w.Valid() && w.written != []
      ensures w.start == w.written[0].timestamp
    {
    }

    method ReleaseWriter()
      requires writer != null && writer.Valid() && writer.written != []
      requires NoneEmpty(closed) && directory == Saved(closed, duration)
      modifies this`writer, this`directory, this`closed
      ensures writer == null && closed == old(Segments())
      ensures NoneEmpty(closed) && directory == Saved(closed, duration)
    {
      hide Saved, Written;
      var name := if duration.None? then Plain else Stamped(Milliseconds(writer.start), Milliseconds(writer.last));
      OneMoreFile(closed, writer.written, duration);
      directory := directory[name := writer.file];
      closed := closed + [writer.written];
      writer := null;
    }

    /** The destructor. */
    method Close()
      requires Valid()
      modifies this`writer, this`directory, this`closed
      ensures NoneEmpty(old(Segments())) && directory == Saved(old(Segments()), duration)
    {
      if writer != null {
        assert writer.written == Segments()[|closed|];
        ReleaseWriter();
      }
    }
  }

  /**
   The files are the greedy cutting of what there was to record, and none is missing unless segments
   can be too short.
   */
  ghost predicate Recorded(directory: map<Name, seq<Packet>>, frames: seq<Frame>, duration: Option<int>,
                           segments: seq<Segment>)
  {
    && Cuts(segments, frames, duration)
    && NoneEmpty(segments) && directory == Saved(segments, duration)
    && (SinceEpoch(segments) && (duration.Some? ==> MILLISECOND <= duration.value) ==> AllKept(segments, duration))
  }

  /** A whole recording. */
  method RecordAll(packets: seq<EncodedPacket>, duration: Option<int>, tells: seq<Frame> -> bool)
    returns (directory: map<Name, seq<Packet>>)
    ensures exists segments :: Recorded(directory, Recordable(packets, tells), duration, segments)
  {
    var sink := new VideoFileSink(duration, tells);
    for i := 0 to |packets|
      invariant sink.Valid() && sink.packets == packets[..i]
      invariant sink.duration == duration && sink.tells == tells
      invariant fresh(sink) && (sink.decoder != null ==> fresh(sink.decoder))
        && (sink.writer != null ==> fresh(sink.writer))
    {
      assert packets[..i + 1] == packets[..i] + [packets[i]];
      match packets[i] {
        case Metadata => sink.OnMetadata();
        case Image(f) => sink.OnFrame(f);
      }
    }
    assert packets[..|packets|] == packets;
    ghost var segments := sink.Segments();
    sink.Close();
    directory := sink.directory;
    if SinceEpoch(segments) && (duration.Some? ==> MILLISECOND <= duration.value) {
      LongSegmentsAreAllKept(segments, duration);
    }
    assert Recorded(directory, Recordable(packets, tells), duration, segments);
  }
}
