/** JSON documents to CBOR items and back, the way messages cross the wire. */
module CborJson {
  import opened Wrappers
  import opened Base64

  /**
   A JSON value. Integers are int64 or uint64; an object is a map ordered by key, so its
   fields are listed in ascending order of their keys.
   */
  datatype Json =
    | Null
    | Bool(b: bool)
    | Int(n: int)
    | Float(f: real)
    | Str(s: string)
    | Arr(items: seq<Json>)
    | Obj(fields: seq<Field>)

  datatype Field = Field(key: string, value: Json)

  /** The four widths of a CBOR integer, in bits. */
  datatype Width = W8 | W16 | W32 | W64

  /** A CBOR item; a negative integer -1-n is held as n (section 2.1 of RFC 7049). */
  datatype Cbor =
    | UInt(width: Width, n: nat)
    | NegInt(width: Width, n: nat)
    | Bytes(bytes: seq<Byte>)
    | Text(text: string)
    | Array(elements: seq<Cbor>)
    | Map(pairs: seq<Pair>)
    | FloatItem(value: real)
    | BoolItem(flag: bool)
    | NullItem
    | Tag

  datatype Pair = Pair(key: Cbor, value: Cbor)

  // ----- integers

  const TWO63: int := 0x8000_0000_0000_0000
  const TWO64: int := 0x1_0000_0000_0000_0000

  /** The values a JSON integer can hold in the program. */
  predicate IntRange(n: int)
  {
    -TWO63 <= n < TWO64
  }

  /** Reading a JSON integer as int64: a uint64 beyond the range wraps around. */
  function AsInt64(n: int): int
    requires IntRange(n)
  {
    if n < TWO63 then n else n - TWO64
  }

  function Capacity(w: Width): int
  {
    match w
    case W8 => 0x100
    case W16 => 0x1_0000
    case W32 => 0x1_0000_0000
    case W64 => TWO64
  }

  function Narrowest(n: nat): Width
  {
    if n <= 0xFF then W8 else if n <= 0xFFFF then W16 else if n <= 0xFFFF_FFFF then W32 else W64
  }

  function IntToCbor(i: int): Cbor
  {
    if i >= 0 then UInt(Narrowest(i), i) else NegInt(Narrowest(-1 - i), -1 - i)
  }

  /** Every int64 gets the least of the four widths that holds it, the minimum int64 included. */
  lemma LeastWidth(i: int, w: Width)
    requires -TWO63 <= i < TWO63
    ensures var c := IntToCbor(i);
      && (c.UInt? || c.NegInt?) && (if c.UInt? then c.n == i else -1 - c.n == i)
      && c.n < Capacity(c.width)
      && (Capacity(w) < Capacity(c.width) ==> Capacity(w) <= c.n)
  {
  }

  // ----- strings

  /** What a C string function sees of a string: everything before the first NUL. */
  function CString(s: string): string
  {
    if s == "" || s[0] == '\0' then "" else [s[0]] + CString(s[1..])
  }

  predicate NulFree(s: string)
  {
    '\0' !in s
  }

  lemma {:induction false} CStringIdentity(s: string)
    ensures NulFree(CString(s))
    ensures CString(s) == s <==> NulFree(s)
    decreases |s|
  {
    if s != "" {
      CStringIdentity(s[1..]);
      assert s == [s[0]] + s[1..];
    }
  }

  predicate Less(a: string, b: string)
  {
    b != "" && (a == "" || a[0] < b[0] || (a[0] == b[0] && Less(a[1..], b[1..])))
  }

  lemma {:induction false} LessIsStrict(a: string, b: string)
    requires Less(a, b)
    ensures a != b && !Less(b, a)
    decreases |a|
  {
    if a != "" && a[0] == b[0] {
      LessIsStrict(a[1..], b[1..]);
    }
  }

  lemma {:induction false} LessTransitive(a: string, b: string, c: string)
    requires Less(a, b) && Less(b, c)
    ensures Less(a, c)
    decreases |a|
  {
    if a != "" && a[0] == b[0] == c[0] {
      LessTransitive(a[1..], b[1..], c[1..]);
    }
  }

  // ----- objects

  predicate Ascending(fields: seq<Field>)
  {
    forall i, j :: 0 <= i < j < |fields| ==> Less(fields[i].key, fields[j].key)
  }

  /** emplace: keeps the order, and keeps the old value of a key that is already there. */
  function Emplace(fields: seq<Field>, key: string, value: Json): seq<Field>
  {
    if fields == [] || Less(key, fields[0].key) then [Field(key, value)] + fields
    else if key == fields[0].key then fields
    else [fields[0]] + Emplace(fields[1..], key, value)
  }

  lemma {:induction false} EmplaceLast(fields: seq<Field>, key: string, value: Json)
    requires forall i :: 0 <= i < |fields| ==> Less(fields[i].key, key)
    ensures Emplace(fields, key, value) == fields + [Field(key, value)]
    decreases |fields|
  {
    if fields != [] {
      LessIsStrict(fields[0].key, key);
      EmplaceLast(fields[1..], key, value);
      assert fields == [fields[0]] + fields[1..];
    }
  }

  lemma {:induction false} EmplaceKeys(fields: seq<Field>, key: string, value: Json, i: int)
    requires 0 <= i < |Emplace(fields, key, value)|
    ensures var k := Emplace(fields, key, value)[i].key;
      k == key || exists j :: 0 <= j < |fields| && k == fields[j].key
    decreases |fields|
  {
    if fields == [] || Less(key, fields[0].key) {
      assert i > 0 ==> Emplace(fields, key, value)[i].key == fields[i - 1].key;
    } else if key != fields[0].key && i > 0 {
      EmplaceKeys(fields[1..], key, value, i - 1);
      var k := Emplace(fields, key, value)[i].key;
      if k != key {
        var j :| 0 <= j < |fields[1..]| && k == fields[1..][j].key;
        assert k == fields[j + 1].key;
      }
    }
  }

  // ----- json_to_cbor_item

  predicate IsBinaryKey(key: string)
  {
    key == "b" || key == "codecData"
  }

  /** None stands for a failed CHECK. */
  function ToCbor(document: Json): Option<Cbor>
    decreases document, 1
  {
    match document
    case Str(s) => Some(Text(CString(s)))
    case Int(n) => if IntRange(n) then Some(IntToCbor(AsInt64(n))) else None
    case Float(f) => Some(FloatItem(f))
    case Arr(items) =>
      var elements := ToCborAll(items);
      if elements.None? then None else Some(Array(elements.value))
    case Obj(fields) =>
      var pairs := ToCborPairs(fields);
      if pairs.None? then None else Some(Map(pairs.value))
    case Bool(b) => Some(BoolItem(b))
    case Null => Some(NullItem)
  }

  function ToCborAll(items: seq<Json>): Option<seq<Cbor>>
    decreases items, 0
  {
    if items == [] then Some([])
    else
      var first := ToCbor(items[0]);
      var rest := ToCborAll(items[1..]);
      if first.None? || rest.None? then None else Some([first.value] + rest.value)
  }

  /** The value of a field: base64 text under a binary key travels as a byte string. */
  function ToCborValue(f: Field): Option<Cbor>
    decreases f, 2
  {
    if IsBinaryKey(f.key) && f.value.Str? then
      var decoded := Decode(f.value.s);
      if decoded.Ok? then Some(Bytes(decoded.value)) else None
    else ToCbor(f.value)
  }

  function ToCborPairs(fields: seq<Field>): Option<seq<Pair>>
    decreases fields, 0
  {
    if fields == [] then Some([])
    else
      var value := ToCborValue(fields[0]);
      var rest := ToCborPairs(fields[1..]);
      if value.None? || rest.None? then None
      else Some([Pair(Text(CString(fields[0].key)), value.value)] + rest.value)
  }

  // ----- cbor_item_to_json

  /** None stands for a failed CHECK, an ABORT or a thrown type error. */
  function ToJson(item: Cbor): Option<Json>
    decreases item, 1
  {
    match item
    case UInt(_, n) => Some(Int(n))
    case NegInt(_, n) => if n < TWO63 then Some(Int(-1 - n)) else None
    case Bytes(bytes) => Some(Str(Encode(bytes)))
    case Text(text) => Some(Str(text))
    case Array(elements) =>
      var items := ToJsonAll(elements);
      if items.None? then None else Some(Arr(items.value))
    case Map(pairs) =>
      var fields := ToJsonFields(pairs, []);
      if fields.None? then None else Some(Obj(fields.value))
    case FloatItem(f) => Some(Float(f))
    case BoolItem(b) => Some(Bool(b))
    case NullItem => Some(Null)
    case Tag => None
  }

  function ToJsonAll(elements: seq<Cbor>): Option<seq<Json>>
    decreases elements, 0
  {
    if elements == [] then Some([])
    else
      var first := ToJson(elements[0]);
      var rest := ToJsonAll(elements[1..]);
      if first.None? || rest.None? then None else Some([first.value] + rest.value)
  }

  function ToJsonEntry(p: Pair): Option<Field>
    decreases p, 2
  {
    var key := ToJson(p.key);
    var value := ToJson(p.value);
    if key.None? || value.None? || !key.value.Str? then None else Some(Field(key.value.s, value.value))
  }

  function ToJsonFields(pairs: seq<Pair>, fields: seq<Field>): Option<seq<Field>>
    decreases pairs, 0
  {
    if pairs == [] then Some(fields)
    else
      var f := ToJsonEntry(pairs[0]);
      if f.None? then None else ToJsonFields(pairs[1..], Emplace(fields, f.value.key, f.value.value))
  }

  /** Over the wire and back. */
  function RoundTrip(document: Json): Option<Json>
  {
    var item := ToCbor(document);
    if item.None? then None else ToJson(item.value)
  }

  // ----- which documents survive the trip

  /** A document the program can hold. */
  ghost predicate Valid(document: Json)
    decreases document
  {
    match document
    case Int(n) => IntRange(n)
    case Arr(items) => forall i :: 0 <= i < |items| ==> Valid(items[i])
    case Obj(fields) => Ascending(fields) && forall i :: 0 <= i < |fields| ==> ValidField(fields[i])
    case _ => true
  }

  ghost predicate ValidField(f: Field)
    decreases f
  {
    Valid(f.value)
  }

  /**
   Integers within int64, no NUL in strings and keys, and canonical padded base64 in the
   strings directly under a binary key.
   */
  ghost predicate Faithful(document: Json)
    decreases document
  {
    match document
    case Int(n) => n < TWO63
    case Str(s) => NulFree(s)
    case Arr(items) => forall i :: 0 <= i < |items| ==> Faithful(items[i])
    case Obj(fields) => forall i :: 0 <= i < |fields| ==> FaithfulField(fields[i])
    case _ => true
  }

  ghost predicate FaithfulField(f: Field)
    decreases f
  {
    NulFree(f.key) && (if IsBinaryKey(f.key) && f.value.Str? then Canonical(f.value.s) else Faithful(f.value))
  }

  /** The trip of one field. */
  function RoundTripField(f: Field): Option<Field>
  {
    var v := ToCborValue(f);
    if v.None? then None else ToJsonEntry(Pair(Text(CString(f.key)), v.value))
  }

  /** A document comes back unchanged exactly when it is faithful, whatever its depth. */
  lemma {:induction false} RoundTripIdentity(document: Json)
    requires Valid(document)
    ensures RoundTrip(document) == Some(document) <==> Faithful(document)
    decreases document, 1
  {
    match document
    case Str(s) => CStringIdentity(s);
    case Int(n) =>
    case Arr(items) => ArrayIdentity(items);
    case Obj(fields) => ObjectIdentity(fields);
    case Float(f) =>
    case Bool(b) =>
    case Null =>
  }

  lemma {:induction false} ArrayIdentity(items: seq<Json>)
    requires forall i :: 0 <= i < |items| ==> Valid(items[i])
    ensures var elements := ToCborAll(items);
      (elements.Some? && ToJsonAll(elements.value) == Some(items))
        <==> forall i :: 0 <= i < |items| ==> Faithful(items[i])
    decreases items, 0
  {
    if items != [] {
      RoundTripIdentity(items[0]);
      ArrayIdentity(items[1..]);
      assert items == [items[0]] + items[1..];
      assert (forall i :: 0 <= i < |items| ==> Faithful(items[i])) <==>
             Faithful(items[0]) && forall i :: 0 <= i < |items[1..]| ==> Faithful(items[1..][i]);
    }
  }

  /** A key made from text comes back as that text. */
  lemma EntryOfText(key: string, value: Cbor)
    ensures ToJsonEntry(Pair(Text(key), value)) == if ToJson(value).None? then None
      else Some(Field(key, ToJson(value).value))
  {
  }

  lemma {:induction false} FieldIdentity(f: Field)
    requires ValidField(f)
    ensures RoundTripField(f) == Some(f) <==> FaithfulField(f)
    ensures RoundTripField(f).Some? ==> RoundTripField(f).value.key == CString(f.key)
    decreases f, 2
  {
    CStringIdentity(f.key);
    var v := ToCborValue(f);
    if v.Some? {
      EntryOfText(CString(f.key), v.value);
    }
    if IsBinaryKey(f.key) && f.value.Str? {
      EncodeDecode(f.value.s);
    } else {
      RoundTripIdentity(f.value);
    }
  }

  ghost predicate NulFreeKeys(fields: seq<Field>)
  {
    forall i :: 0 <= i < |fields| ==> NulFree(fields[i].key)
  }

  /** The fields that come back have keys without NUL. */
  lemma {:induction false} KeysComeBackNulFree(fields: seq<Field>, pairs: seq<Pair>, before: seq<Field>)
    requires ToCborPairs(fields) == Some(pairs) && NulFreeKeys(before)
    ensures var after := ToJsonFields(pairs, before); after.Some? ==> NulFreeKeys(after.value)
    decreases |fields|
  {
    if fields != [] {
      CStringIdentity(fields[0].key);
      EntryOfText(CString(fields[0].key), pairs[0].value);
      var f := ToJsonEntry(pairs[0]);
      if f.Some? {
        var next := Emplace(before, f.value.key, f.value.value);
        forall i | 0 <= i < |next|
          ensures NulFree(next[i].key)
        {
          EmplaceKeys(before, f.value.key, f.value.value, i);
        }
        KeysComeBackNulFree(fields[1..], pairs[1..], next);
      }
    }
  }

  ghost predicate AllFaithful(fields: seq<Field>)
  {
    forall i :: 0 <= i < |fields| ==> FaithfulField(fields[i])
  }

  lemma SplitFaithful(fields: seq<Field>)
    requires fields != []
    ensures AllFaithful(fields) <==> FaithfulField(fields[0]) && AllFaithful(fields[1..])
  {
    assert fields == [fields[0]] + fields[1..];
  }

  /** Fields in ascending order with keys free of NUL come back one by one, in order. */
  lemma {:induction false} FieldsComeBack(fields: seq<Field>, pairs: seq<Pair>, before: seq<Field>)
    requires Ascending(before + fields) && NulFreeKeys(fields)
    requires forall i :: 0 <= i < |fields| ==> ValidField(fields[i])
    requires ToCborPairs(fields) == Some(pairs)
    ensures ToJsonFields(pairs, before) == Some(before + fields) <==> AllFaithful(fields)
    ensures var after := ToJsonFields(pairs, before); after.Some? ==> before <= after.value
    decreases fields, 0
  {
    hide Ascending, FaithfulField, Emplace, Less;
    if fields == [] {
      assert before + fields == before;
    } else {
      SplitFaithful(fields);
      CStringIdentity(fields[0].key);
      FieldIdentity(fields[0]);
      var f := ToJsonEntry(pairs[0]);
      assert f == RoundTripField(fields[0]);
      if f.Some? {
        EmplaceInOrder(before, fields, f.value);
        var next := before + [f.value];
        FieldsComeBack(fields[1..], pairs[1..], next);
        if f.value == fields[0] {
          assert next + fields[1..] == before + fields;
        } else {
          assert next[|before|] != (before + fields)[|before|];
        }
      }
    }
  }

  /** The next field in order goes to the end, whatever its value. */
  lemma EmplaceInOrder(before: seq<Field>, fields: seq<Field>, f: Field)
    requires fields != [] && Ascending(before + fields) && f.key == fields[0].key
    ensures Emplace(before, f.key, f.value) == before + [f]
    ensures Ascending(before + [f] + fields[1..])
  {
    var a, b := before + fields, before + [f] + fields[1..];
    forall i | 0 <= i < |before|
      ensures Less(before[i].key, f.key)
    {
      assert a[i] == before[i] && a[|before|] == fields[0];
    }
    EmplaceLast(before, f.key, f.value);
    assert forall i :: 0 <= i < |a| ==> a[i].key == b[i].key;
  }

  /** A field that cannot be sent is not faithful. */
  lemma {:induction false} FaithfulIsSent(fields: seq<Field>)
    requires forall i :: 0 <= i < |fields| ==> ValidField(fields[i])
    requires AllFaithful(fields)
    ensures ToCborPairs(fields).Some?
    decreases fields, 0
  {
    if fields != [] {
      SplitFaithful(fields);
      FieldIdentity(fields[0]);
      FaithfulIsSent(fields[1..]);
    }
  }

  lemma {:induction false} ObjectIdentity(fields: seq<Field>)
    requires Ascending(fields) && forall i :: 0 <= i < |fields| ==> ValidField(fields[i])
    ensures var pairs := ToCborPairs(fields);
      (pairs.Some? && ToJsonFields(pairs.value, []) == Some(fields)) <==> AllFaithful(fields)
    decreases fields, 1
  {
    var pairs := ToCborPairs(fields);
    if pairs.Some? {
      KeysComeBackNulFree(fields, pairs.value, []);
      if NulFreeKeys(fields) {
        assert [] + fields == fields;
        FieldsComeBack(fields, pairs.value, []);
      }
    }
    if AllFaithful(fields) {
      FaithfulIsSent(fields);
    }
  }
}
