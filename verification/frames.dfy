/** Encoded frames cut into network frames, and the JSON form in which these travel. */
module Frames {
  import opened Wrappers
  import opened Base64
  import opened CborJson

  const MAX_PAYLOAD_SIZE: nat := 65000
  /** 65000 characters of base64 at an overhead of 4/3. */
  const MAX_CHUNK_SIZE: nat := 48750
  const TWO32: nat := 0x1_0000_0000

  datatype FrameId = FrameId(i1: int, i2: int)

  /** Times are seconds since the epoch; rounding to clock ticks is not modelled. */
  datatype EncodedFrame = EncodedFrame(data: seq<Byte>, id: FrameId, timestamp: real, keyFrame: bool)

  datatype NetworkFrame = NetworkFrame(data: string, id: FrameId, t: real, dt: real, chunk: nat, chunks: nat,
                                       keyFrame: bool)

  predicate IsInt64(n: int)
  {
    -TWO63 <= n < TWO63
  }

  // ----- encoded_frame::to_network

  function ChunkCount(n: nat): nat
  {
    (n + MAX_CHUNK_SIZE - 1) / MAX_CHUNK_SIZE
  }

  /** substr(i * size, size) */
  function Slice(data: seq<Byte>, i: nat): seq<Byte>
  {
    var from := i * MAX_CHUNK_SIZE;
    if |data| <= from then []
    else if |data| <= from + MAX_CHUNK_SIZE then data[from..]
    else data[from..from + MAX_CHUNK_SIZE]
  }

  /** The i-th piece; chunk numbers are uint32 and count from one. */
  function Piece(f: EncodedFrame, i: nat): NetworkFrame
  {
    NetworkFrame(Encode(Slice(f.data, i)), f.id, f.timestamp, 0.0, (i + 1) % TWO32, ChunkCount(|f.data|) % TWO32,
                 f.keyFrame)
  }

  method ToNetwork(f: EncodedFrame) returns (frames: seq<NetworkFrame>)
    ensures |frames| == ChunkCount(|f.data|)
    ensures forall i :: 0 <= i < |frames| ==> frames[i] == Piece(f, i)
    ensures forall i :: 0 <= i < |frames| ==> |frames[i].data| <= 65_000
  {
    frames := [];
    var chunks := ChunkCount(|f.data|);
    var i := 0;
    while i < chunks
      invariant i <= chunks && |frames| == i
      invariant forall k :: 0 <= k < i ==> frames[k] == Piece(f, k) && |frames[k].data| <= MAX_PAYLOAD_SIZE
    {
      var frame := NetworkFrame(Encode(Slice(f.data, i)), f.id, f.timestamp, 0.0, (i + 1) % TWO32, chunks % TWO32,
                                f.keyFrame);
      PayloadBound(Slice(f.data, i));
      frames := frames + [frame];
      i := i + 1;
    }
  }

  /** 48750 bytes is exactly the most that fits into 65000 characters. */
  lemma PayloadBound(bs: seq<Byte>)
    ensures |Encode(bs)| <= 65_000 <==> |bs| <= 48_750
  {
    EncodedLength(bs);
  }

  /** The first k slices are the first k * 48750 bytes, or all of them. */
  function Prefix(data: seq<Byte>, k: nat): seq<Byte>
  {
    if |data| <= k * MAX_CHUNK_SIZE then data else data[..k * MAX_CHUNK_SIZE]
  }

  lemma PrefixGrows(data: seq<Byte>, k: nat)
    ensures Prefix(data, k) + Slice(data, k) == Prefix(data, k + 1)
  {
  }

  lemma PrefixIsAll(data: seq<Byte>)
    ensures Prefix(data, 0) == [] && Prefix(data, ChunkCount(|data|)) == data
    ensures forall k :: 0 <= k < ChunkCount(|data|) ==> k * MAX_CHUNK_SIZE < |data|
  {
  }

  /** The payloads of the first k pieces in a row. */
  function Payloads(f: EncodedFrame, k: nat): string
  {
    if k == 0 then "" else Payloads(f, k - 1) + Piece(f, k - 1).data
  }

  /** 48750 is a multiple of three: the payloads in a row are the encoding of the whole frame. */
  lemma {:induction false} PayloadsAreOneEncoding(f: EncodedFrame, k: nat)
    requires k <= ChunkCount(|f.data|)
    ensures Payloads(f, k) == Encode(Prefix(f.data, k))
    ensures k == ChunkCount(|f.data|) ==> Payloads(f, k) == Encode(f.data)
    decreases k
  {
    hide Encode;
    EncodedLength([]);
    PrefixIsAll(f.data);
    if k > 0 {
      PayloadsAreOneEncoding(f, k - 1);
      PrefixGrows(f.data, k - 1);
      assert (k - 1) * MAX_CHUNK_SIZE % 3 == 0;
      EncodeConcat(Prefix(f.data, k - 1), Slice(f.data, k - 1));
    }
  }

  // ----- network_frame::to_json and parse_network_frame

  /** `now` is the clock at departure. */
  function ToJsonDocument(nf: NetworkFrame, now: real): Json
  {
    Obj([Field("b", Str(nf.data)), Field("c", Int(nf.chunk)), Field("dt", Float(now)),
         Field("i", Arr([Int(nf.id.i1), Int(nf.id.i2)]))]
        + (if nf.keyFrame then [Field("k", Bool(true))] else [])
        + [Field("l", Int(nf.chunks)), Field("t", Float(nf.t))])
  }

  function Find(fields: seq<Field>, key: string): Option<Json>
  {
    if fields == [] then None
    else if fields[0].key == key then Some(fields[0].value)
    else Find(fields[1..], key)
  }

  function Truncate(f: real): int
  {
    if f >= 0.0 then f.Floor else -((-f).Floor)
  }

  /** An arithmetic value read as an integer: floats lose their fraction. */
  function AsInteger(j: Json): Option<int>
  {
    match j
    case Int(n) => Some(n)
    case Float(f) => Some(Truncate(f))
    case Bool(b) => Some(if b then 1 else 0)
    case _ => None
  }

  function WrapInt64(n: int): int
  {
    (n + TWO63) % TWO64 - TWO63
  }

  predicate IsNumber(j: Json)
  {
    j.Int? || j.Float?
  }

  function AsReal(j: Json): real
    requires IsNumber(j)
  {
    if j.Int? then j.n as real else j.f
  }

  /** A time field: `now` when it is missing, None when it is not a number. */
  function TimeField(item: Option<Json>, now: real): Option<real>
  {
    if item.None? then Some(now) else if IsNumber(item.value) then Some(AsReal(item.value)) else None
  }

  function IdField(item: Option<Json>): Option<FrameId>
  {
    if item.None? || !item.value.Arr? || |item.value.items| < 2 then None
    else
      var i1 := AsInteger(item.value.items[0]);
      var i2 := AsInteger(item.value.items[1]);
      if i1.None? || i2.None? then None else Some(FrameId(WrapInt64(i1.value), WrapInt64(i2.value)))
  }

  /** "c" and "l" come together or both default to one. */
  function ChunkFields(c: Option<Json>, l: Option<Json>): Option<(nat, nat)>
  {
    if c.None? then Some((1, 1))
    else if l.None? || !IsNumber(c.value) || !IsNumber(l.value) then None
    else Some((AsInteger(c.value).value % TWO32, AsInteger(l.value).value % TWO32))
  }

  function KeyField(k: Option<Json>): Option<bool>
  {
    if k.None? then Some(false) else if k.value.Bool? then Some(k.value.b) else None
  }

  /** None stands for a failed CHECK or a thrown type error; `now` is the clock. */
  function ParseNetworkFrame(item: Json, now: real): Option<NetworkFrame>
  {
    if !item.Obj? then None
    else
      var id := IdField(Find(item.fields, "i"));
      var t := TimeField(Find(item.fields, "t"), now);
      var dt := TimeField(Find(item.fields, "dt"), now);
      var chunks := ChunkFields(Find(item.fields, "c"), Find(item.fields, "l"));
      var key := KeyField(Find(item.fields, "k"));
      var data := Find(item.fields, "b");
      if id.None? || t.None? || dt.None? || chunks.None? || key.None? || data.None? || !data.value.Str? then None
      else Some(NetworkFrame(data.value.s, id.value, t.value, dt.value, chunks.value.0, chunks.value.1, key.value))
  }

  ghost predicate Sendable(nf: NetworkFrame)
  {
    && Canonical(nf.data) && IsInt64(nf.id.i1) && IsInt64(nf.id.i2)
    && nf.chunk < TWO32 && nf.chunks < TWO32
  }

  /** One network frame over the wire: JSON, CBOR items, JSON, and parsed again. */
  function Travel(nf: NetworkFrame, departure: real, arrival: real): Option<NetworkFrame>
  {
    var document := RoundTrip(ToJsonDocument(nf, departure));
    if document.None? then None else ParseNetworkFrame(document.value, arrival)
  }

  lemma {:induction false} FindAt(fields: seq<Field>, key: string, i: nat)
    requires i <= |fields| && forall j :: 0 <= j < i ==> fields[j].key != key
    requires i < |fields| ==> fields[i].key == key
    ensures Find(fields, key) == if i < |fields| then Some(fields[i].value) else None
    decreases i
  {
    if i > 0 {
      FindAt(fields[1..], key, i - 1);
    }
  }

  lemma FieldsOfDocument(nf: NetworkFrame, now: real)
    ensures var fields := ToJsonDocument(nf, now).fields;
      && Find(fields, "b") == Some(Str(nf.data)) && Find(fields, "c") == Some(Int(nf.chunk))
      && Find(fields, "dt") == Some(Float(now)) && Find(fields, "l") == Some(Int(nf.chunks))
      && Find(fields, "i") == Some(Arr([Int(nf.id.i1), Int(nf.id.i2)])) && Find(fields, "t") == Some(Float(nf.t))
      && Find(fields, "k") == (if nf.keyFrame then Some(Bool(true)) else None)
  {
    var fields := ToJsonDocument(nf, now).fields;
    var n := |fields|;
    assert fields[0].key == "b" && fields[1].key == "c" && fields[2].key == "dt" && fields[3].key == "i";
    assert fields[n - 2].key == "l" && fields[n - 1].key == "t";
    FindAt(fields, "b", 0);
    FindAt(fields, "c", 1);
    FindAt(fields, "dt", 2);
    FindAt(fields, "i", 3);
    FindAt(fields, "k", if nf.keyFrame then 4 else n);
    FindAt(fields, "l", n - 2);
    FindAt(fields, "t", n - 1);
  }

  /** parse undoes to_json, except that the departure time is the clock's. */
  lemma ParseOfToJson(nf: NetworkFrame, departure: real, arrival: real)
    requires Sendable(nf)
    ensures ParseNetworkFrame(ToJsonDocument(nf, departure), arrival) == Some(nf.(dt := departure))
  {
    FieldsOfDocument(nf, departure);
  }

  lemma IntsAreFaithful(m: int, n: int)
    requires IsInt64(m) && IsInt64(n)
    ensures Valid(Arr([Int(m), Int(n)])) && Faithful(Arr([Int(m), Int(n)]))
  {
  }

  lemma DocumentIsFaithful(nf: NetworkFrame, now: real)
    requires Sendable(nf)
    ensures Valid(ToJsonDocument(nf, now)) && Faithful(ToJsonDocument(nf, now))
  {
    hide Canonical;
    var fields := ToJsonDocument(nf, now).fields;
    var id := Arr([Int(nf.id.i1), Int(nf.id.i2)]);
    IntsAreFaithful(nf.id.i1, nf.id.i2);
    forall i | 0 <= i < |fields|
      ensures ValidField(fields[i]) && FaithfulField(fields[i])
    {
      assert fields[i].value == id || fields[i].value.Int? || fields[i].value.Float? || fields[i].value.Bool? || i == 0;
    }
  }

  /** The wire changes nothing but the departure time. */
  lemma TravelsUnchanged(nf: NetworkFrame, departure: real, arrival: real)
    requires Sendable(nf)
    ensures Travel(nf, departure, arrival) == Some(nf.(dt := departure))
  {
    DocumentIsFaithful(nf, departure);
    RoundTripIdentity(ToJsonDocument(nf, departure));
    ParseOfToJson(nf, departure, arrival);
  }

  lemma PiecesAreSendable(f: EncodedFrame, i: nat)
    requires IsInt64(f.id.i1) && IsInt64(f.id.i2)
    ensures Sendable(Piece(f, i))
  {
    EncodeIsCanonical(Slice(f.data, i));
  }
}
