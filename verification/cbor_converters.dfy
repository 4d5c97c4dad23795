/** The two converters as they are written: recursion over the tree, loops that push. */
module CborConverters {
  import opened Wrappers
  import opened Base64
  import opened CborJson

  /** `whole` is what comes of `done` followed by `rest`; a failure anywhere fails the whole. */
  ghost predicate Continued<T>(whole: Option<seq<T>>, done: seq<T>, rest: Option<seq<T>>)
  {
    (whole.None? <==> rest.None?) && (rest.Some? ==> whole.value == done + rest.value)
  }

  method JsonToCborItem(document: Json) returns (item: Option<Cbor>)
    ensures item == ToCbor(document)
    decreases document, 1
  {
    match document {
      case Str(s) => item := Some(Text(CString(s)));
      case Int(n) => item := if IntRange(n) then Some(IntToCbor(AsInt64(n))) else None;
      case Float(f) => item := Some(FloatItem(f));
      case Bool(b) => item := Some(BoolItem(b));
      case Null => item := Some(NullItem);
      case Arr(items) =>
        var message: seq<Cbor> := [];
        var i := 0;
        while i < |items|
          invariant i <= |items|
          invariant Continued(ToCborAll(items), message, ToCborAll(items[i..]))
        {
          assert items[i..][1..] == items[i + 1..];
          var el := JsonToCborItem(items[i]);
          if el.None? {
            return None;
          }
          message := message + [el.value];
          i := i + 1;
        }
        assert message == ToCborAll(items).value;
        item := Some(Array(message));
      case Obj(fields) =>
        var message: seq<Pair> := [];
        var i := 0;
        while i < |fields|
          invariant i <= |fields|
          invariant Continued(ToCborPairs(fields), message, ToCborPairs(fields[i..]))
        {
          assert fields[i..][1..] == fields[i + 1..];
          var value := FieldValueToCborItem(fields[i]);
          if value.None? {
            return None;
          }
          message := message + [Pair(Text(CString(fields[i].key)), value.value)];
          i := i + 1;
        }
        assert message == ToCborPairs(fields).value;
        item := Some(Map(message));
    }
  }

  method FieldValueToCborItem(f: Field) returns (value: Option<Cbor>)
    ensures value == ToCborValue(f)
    decreases f, 2
  {
    if IsBinaryKey(f.key) && f.value.Str? {
      var decoded := Decode(f.value.s);
      value := if decoded.Ok? then Some(Bytes(decoded.value)) else None;
    } else {
      value := JsonToCborItem(f.value);
    }
  }

  method CborItemToJson(item: Cbor) returns (document: Option<Json>)
    ensures document == ToJson(item)
    decreases item, 1
  {
    match item {
      case UInt(_, n) => document := Some(Int(n));
      case NegInt(_, n) => document := if n < TWO63 then Some(Int(-1 - n)) else None;
      case Bytes(bytes) => document := Some(Str(Encode(bytes)));
      case Text(text) => document := Some(Str(text));
      case FloatItem(f) => document := Some(Float(f));
      case BoolItem(b) => document := Some(Bool(b));
      case NullItem => document := Some(Null);
      case Tag => document := None;
      case Array(elements) =>
        var result: seq<Json> := [];
        var i := 0;
        while i < |elements|
          invariant i <= |elements|
          invariant Continued(ToJsonAll(elements), result, ToJsonAll(elements[i..]))
        {
          assert elements[i..][1..] == elements[i + 1..];
          var el := CborItemToJson(elements[i]);
          if el.None? {
            return None;
          }
          result := result + [el.value];
          i := i + 1;
        }
        assert result == ToJsonAll(elements).value;
        document := Some(Arr(result));
      case Map(pairs) =>
        var fields: seq<Field> := [];
        var i := 0;
        while i < |pairs|
          invariant i <= |pairs|
          invariant ToJsonFields(pairs, []) == ToJsonFields(pairs[i..], fields)
        {
          assert pairs[i..][1..] == pairs[i + 1..];
          var f := CborPairToField(pairs[i]);
          if f.None? {
            return None;
          }
          fields := Emplace(fields, f.value.key, f.value.value);
          i := i + 1;
        }
        document := Some(Obj(fields));
    }
  }

  method CborPairToField(p: Pair) returns (f: Option<Field>)
    ensures f == ToJsonEntry(p)
    decreases p, 2
  {
    var key := CborItemToJson(p.key);
    var value := CborItemToJson(p.value);
    f := if key.None? || value.None? || !key.value.Str? then None else Some(Field(key.value.s, value.value));
  }
}
