/** What CBOR items and JSON documents stand for in each other, case by case and without the converters. */
module CborMeanings {
  import opened Wrappers
  import opened Base64
  import opened CborJson

  /** The bounds of int64 and uint64. */
  const INT64_BOUND: int := 9_223_372_036_854_775_808
  const UINT64_BOUND: int := 18_446_744_073_709_551_616

  // ----- from JSON to CBOR

  /** The C string in `s`: all of it, or what comes before its first NUL. */
  ghost predicate UpToNul(text: string, s: string)
  {
    NulFree(text) && text <= s && (|text| == |s| || s[|text|] == '\0')
  }

  /** An int64, as it is read: what does not fit wraps around. */
  predicate ReadAs(n: int, i: int)
  {
    -INT64_BOUND <= i < INT64_BOUND && (i == n || i == n - UINT64_BOUND)
  }

  /** The item stands for the document. */
  ghost predicate Sends(document: Json, item: Cbor)
    decreases document, 1
  {
    match document
    case Null => item == NullItem
    case Bool(b) => item == BoolItem(b)
    case Float(f) => item == FloatItem(f)
    case Str(s) => item.Text? && UpToNul(item.text, s)
    case Int(n) => (item.UInt? && ReadAs(n, item.n)) || (item.NegInt? && ReadAs(n, -1 - item.n))
    case Arr(items) =>
      item.Array? && |item.elements| == |items| && forall i :: 0 <= i < |items| ==> Sends(items[i], item.elements[i])
    case Obj(fields) =>
      item.Map? && |item.pairs| == |fields| && forall i :: 0 <= i < |fields| ==> SendsField(fields[i], item.pairs[i])
  }

  /** Text under one of the binary keys is base64 for the bytes that are sent. */
  ghost predicate SendsField(f: Field, p: Pair)
    decreases f, 2
  {
    && p.key.Text? && UpToNul(p.key.text, f.key)
    && if (f.key == "b" || f.key == "codecData") && f.value.Str?
       then p.value.Bytes? && Decode(f.value.s) == Ok(p.value.bytes)
       else Sends(f.value, p.value)
  }

  /** Integers within 64 bits, and texts under binary keys that can be decoded. */
  ghost predicate CanBeSent(document: Json)
    decreases document, 1
  {
    match document
    case Int(n) => -INT64_BOUND <= n < UINT64_BOUND
    case Arr(items) => forall i :: 0 <= i < |items| ==> CanBeSent(items[i])
    case Obj(fields) => forall i :: 0 <= i < |fields| ==> FieldCanBeSent(fields[i])
    case _ => true
  }

  ghost predicate FieldCanBeSent(f: Field)
    decreases f, 2
  {
    if (f.key == "b" || f.key == "codecData") && f.value.Str? then Decode(f.value.s).Ok? else CanBeSent(f.value)
  }

  lemma {:induction false} CStringIsUpToNul(s: string)
    ensures UpToNul(CString(s), s)
    decreases |s|
  {
    if s != "" && s[0] != '\0' {
      CStringIsUpToNul(s[1..]);
    }
  }

  /** What is sent stands for the document, and it is sent whenever it can be. */
  lemma {:induction false} ToCborSends(document: Json)
    ensures ToCbor(document).Some? <==> CanBeSent(document)
    ensures ToCbor(document).Some? ==> Sends(document, ToCbor(document).value)
    decreases document, 1
  {
    hide Decode;
    match document
    case Str(s) => CStringIsUpToNul(s);
    case Arr(items) => ToCborSendsAll(items);
    case Obj(fields) => ToCborSendsFields(fields);
    case _ =>
  }

  lemma {:induction false} ToCborSendsAll(items: seq<Json>)
    ensures ToCborAll(items).Some? <==> forall i :: 0 <= i < |items| ==> CanBeSent(items[i])
    ensures var all := ToCborAll(items);
      all.Some? ==> |all.value| == |items| && forall i :: 0 <= i < |items| ==> Sends(items[i], all.value[i])
    decreases items, 0
  {
    if items != [] {
      ToCborSends(items[0]);
      ToCborSendsAll(items[1..]);
      assert forall i :: 0 < i < |items| ==> items[i] == items[1..][i - 1];
      assert (forall i :: 0 <= i < |items| ==> CanBeSent(items[i])) <==>
        CanBeSent(items[0]) && forall i :: 0 <= i < |items[1..]| ==> CanBeSent(items[1..][i]);
    }
  }

  lemma {:induction false} ToCborSendsFields(fields: seq<Field>)
    ensures ToCborPairs(fields).Some? <==> forall i :: 0 <= i < |fields| ==> FieldCanBeSent(fields[i])
    ensures var all := ToCborPairs(fields);
      all.Some? ==> |all.value| == |fields| && forall i :: 0 <= i < |fields| ==> SendsField(fields[i], all.value[i])
    decreases fields, 0
  {
    hide Decode;
    if fields != [] {
      ToCborSendsValue(fields[0]);
      CStringIsUpToNul(fields[0].key);
      ToCborSendsFields(fields[1..]);
      assert forall i :: 0 < i < |fields| ==> fields[i] == fields[1..][i - 1];
      assert (forall i :: 0 <= i < |fields| ==> FieldCanBeSent(fields[i])) <==>
        FieldCanBeSent(fields[0]) && forall i :: 0 <= i < |fields[1..]| ==> FieldCanBeSent(fields[1..][i]);
    }
  }

  lemma {:induction false} ToCborSendsValue(f: Field)
    ensures ToCborValue(f).Some? <==> FieldCanBeSent(f)
    ensures ToCborValue(f).Some? ==> SendsField(f, Pair(Text(CString(f.key)), ToCborValue(f).value))
    decreases f, 2
  {
    hide Decode;
    CStringIsUpToNul(f.key);
    ToCborSends(f.value);
  }

  // ----- from CBOR to JSON

  /** The document stands for the item. Byte strings become canonical base64. */
  ghost predicate Reads(item: Cbor, document: Json)
    decreases item, 1
  {
    match item
    case UInt(_, n) => document == Int(n)
    case NegInt(_, n) => n < INT64_BOUND && document == Int(-1 - n)
    case Bytes(bytes) => document.Str? && Canonical(document.s) && Decode(document.s) == Ok(bytes)
    case Text(text) => document == Str(text)
    case FloatItem(f) => document == Float(f)
    case BoolItem(b) => document == Bool(b)
    case NullItem => document == Null
    case Tag => false
    case Array(elements) =>
      document.Arr? && |document.items| == |elements| &&
      forall i :: 0 <= i < |elements| ==> Reads(elements[i], document.items[i])
    case Map(pairs) => document.Obj? && ReadsMap(pairs, document.fields)
  }

  /** The object has the keys of the pairs, in ascending order, each with the value of the first pair of that key. */
  ghost predicate ReadsMap(pairs: seq<Pair>, fields: seq<Field>)
    decreases pairs, 2
  {
    && Ascending(fields)
    && (forall i :: 0 <= i < |pairs| ==> SomeKeyOf(fields, pairs[i]))
    && (forall k :: 0 <= k < |fields| ==> FromTheFirst(pairs, fields[k]))
  }

  ghost predicate SomeKeyOf(fields: seq<Field>, p: Pair)
    decreases p, 3
  {
    exists k :: 0 <= k < |fields| && HasKey(p, fields[k].key)
  }

  ghost predicate FromTheFirst(pairs: seq<Pair>, f: Field)
    decreases pairs, 1
  {
    exists i :: 0 <= i < |pairs| && FirstOf(pairs, f.key, i) && ReadsPair(pairs[i], f)
  }

  ghost predicate HasKey(p: Pair, key: string)
    decreases p, 2
  {
    Reads(p.key, Str(key))
  }

  ghost predicate ReadsPair(p: Pair, f: Field)
    decreases p, 2
  {
    Reads(p.key, Str(f.key)) && Reads(p.value, f.value)
  }

  ghost predicate FirstOf(pairs: seq<Pair>, key: string, i: int)
    decreases pairs, 0
  {
    0 <= i < |pairs| && HasKey(pairs[i], key) && forall j :: 0 <= j < i ==> !HasKey(pairs[j], key)
  }

  /** No tags, negative integers within int64, and keys that are texts or byte strings. */
  ghost predicate CanBeRead(item: Cbor)
    decreases item, 1
  {
    match item
    case NegInt(_, n) => n < INT64_BOUND
    case Tag => false
    case Array(elements) => forall i :: 0 <= i < |elements| ==> CanBeRead(elements[i])
    case Map(pairs) => forall i :: 0 <= i < |pairs| ==> PairCanBeRead(pairs[i])
    case _ => true
  }

  ghost predicate PairCanBeRead(p: Pair)
    decreases p, 2
  {
    (p.key.Text? || p.key.Bytes?) && CanBeRead(p.value)
  }

  lemma KeyIsOne(item: Cbor, key: string)
    ensures Reads(item, Str(key)) <==> ToJson(item) == Some(Str(key))
    ensures ToJson(item).Some? && ToJson(item).value.Str? <==> item.Text? || item.Bytes?
  {
    if item.Bytes? {
      DecodeEncode(item.bytes);
      EncodeDecode(key);
      EncodeDecode(Encode(item.bytes));
    }
  }

  // ----- emplace, by lookup

  function Lookup(fields: seq<Field>, key: string): Option<Json>
  {
    if fields == [] then None
    else if fields[0].key == key then Some(fields[0].value)
    else Lookup(fields[1..], key)
  }

  lemma {:induction false} LookupFinds(fields: seq<Field>, key: string)
    ensures Lookup(fields, key).Some? <==> exists k :: 0 <= k < |fields| && fields[k].key == key
    decreases |fields|
  {
    if fields != [] {
      LookupFinds(fields[1..], key);
      if Lookup(fields, key).Some? && fields[0].key != key {
        var k :| 0 <= k < |fields[1..]| && fields[1..][k].key == key;
        assert fields[k + 1].key == key;
      }
      if k :| 0 <= k < |fields| && fields[k].key == key {
        assert k > 0 ==> fields[1..][k - 1].key == key;
      }
    }
  }

  lemma {:induction false} LookupAt(fields: seq<Field>, k: int)
    requires Ascending(fields) && 0 <= k < |fields|
    ensures Lookup(fields, fields[k].key) == Some(fields[k].value)
    decreases |fields|
  {
    if k > 0 {
      LessIsStrict(fields[0].key, fields[k].key);
      LookupAt(fields[1..], k - 1);
    }
  }

  lemma {:induction false} LessIsTotal(a: string, b: string)
    ensures a == b || Less(a, b) || Less(b, a)
    decreases |a|
  {
    if a != "" && b != "" && a[0] == b[0] {
      LessIsTotal(a[1..], b[1..]);
      assert a == [a[0]] + a[1..] && b == [b[0]] + b[1..];
    }
  }

  /** emplace adds the key where it belongs, unless it is there already. */
  lemma {:induction false} EmplaceLooksUp(fields: seq<Field>, key: string, value: Json, k: string)
    requires Ascending(fields)
    ensures Lookup(Emplace(fields, key, value), k)
         == if k == key && Lookup(fields, key) == None then Some(value) else Lookup(fields, k)
    decreases |fields|
  {
    if fields != [] && !Less(key, fields[0].key) && key != fields[0].key {
      EmplaceLooksUp(fields[1..], key, value, k);
      var next := Emplace(fields[1..], key, value);
      assert Emplace(fields, key, value)[1..] == next;
    } else if fields == [] || Less(key, fields[0].key) {
      assert Emplace(fields, key, value)[1..] == fields;
      NotAmongLater(fields, key);
    }
  }

  lemma {:induction false} NotAmongLater(fields: seq<Field>, key: string)
    requires Ascending(fields) && (fields == [] || Less(key, fields[0].key))
    ensures Lookup(fields, key) == None
    decreases |fields|
  {
    if fields != [] {
      LessIsStrict(key, fields[0].key);
      if |fields| > 1 {
        LessTransitive(key, fields[0].key, fields[1].key);
      }
      NotAmongLater(fields[1..], key);
    }
  }

  lemma {:induction false} EmplaceAscends(fields: seq<Field>, key: string, value: Json)
    requires Ascending(fields)
    ensures Ascending(Emplace(fields, key, value))
    decreases |fields|
  {
    var out := Emplace(fields, key, value);
    if fields == [] || Less(key, fields[0].key) {
      forall i, j | 0 <= i < j < |out| ensures Less(out[i].key, out[j].key) {
        if i == 0 && j > 1 {
          LessTransitive(key, fields[0].key, fields[j - 1].key);
        }
      }
    } else if key != fields[0].key {
      LessIsTotal(key, fields[0].key);
      EmplaceAscends(fields[1..], key, value);
      var rest := Emplace(fields[1..], key, value);
      forall j | 0 <= j < |rest| ensures Less(fields[0].key, rest[j].key) {
        EmplaceKeys(fields[1..], key, value, j);
      }
      assert out == [fields[0]] + rest;
    }
  }

  // ----- whole items

  /** The value of the first pair with that key. */
  ghost function FirstValue(pairs: seq<Pair>, key: string): Option<Json>
  {
    if pairs == [] then None
    else
      var f := ToJsonEntry(pairs[0]);
      if f.Some? && f.value.key == key then Some(f.value.value) else FirstValue(pairs[1..], key)
  }

  lemma {:induction false} FieldsLookUp(pairs: seq<Pair>, before: seq<Field>, key: string)
    requires Ascending(before)
    ensures var after := ToJsonFields(pairs, before);
      after.Some? ==>
        && Ascending(after.value)
        && Lookup(after.value, key) == if Lookup(before, key).Some? then Lookup(before, key) else FirstValue(pairs, key)
    decreases |pairs|
  {
    hide Ascending, Emplace, Lookup;
    if pairs != [] {
      var f := ToJsonEntry(pairs[0]);
      if f.Some? {
        EmplaceLooksUp(before, f.value.key, f.value.value, key);
        EmplaceAscends(before, f.value.key, f.value.value);
        FieldsLookUp(pairs[1..], Emplace(before, f.value.key, f.value.value), key);
      }
    }
  }

  /** Every item is read as what it stands for, and it is read whenever it can be. */
  lemma {:induction false} ToJsonReads(item: Cbor)
    ensures ToJson(item).Some? <==> CanBeRead(item)
    ensures ToJson(item).Some? ==> Reads(item, ToJson(item).value)
    decreases item, 1
  {
    hide Encode, Decode, Canonical, ReadsMap, ToJsonFields, PairCanBeRead;
    match item
    case Bytes(bytes) =>
      KeyIsOne(item, Encode(bytes));
    case Array(elements) => ToJsonReadsAll(elements);
    case Map(pairs) =>
      ToJsonReadsMap(pairs);
    case _ =>
  }

  lemma {:induction false} ToJsonReadsMap(pairs: seq<Pair>)
    ensures ToJsonFields(pairs, []).Some? <==> forall i :: 0 <= i < |pairs| ==> PairCanBeRead(pairs[i])
    ensures var fields := ToJsonFields(pairs, []); fields.Some? ==> ReadsMap(pairs, fields.value)
    decreases pairs, 1
  {
    hide HasKey, ReadsPair, ToJsonEntry, ToJsonFields, PairCanBeRead, Reads, ReadsMap;
    PairsCanBeRead(pairs, []);
    var fields := ToJsonFields(pairs, []);
    if fields.Some? {
      forall i | 0 <= i < |pairs| ensures Entry(pairs[i]) && ToJsonEntry(pairs[i]).Some? {
        ToJsonReadsPair(pairs[i]);
      }
      FieldsReadMap(pairs, fields.value);
    }
  }

  lemma {:induction false} ToJsonReadsAll(elements: seq<Cbor>)
    ensures ToJsonAll(elements).Some? <==> forall i :: 0 <= i < |elements| ==> CanBeRead(elements[i])
    ensures var all := ToJsonAll(elements);
      all.Some? ==> |all.value| == |elements| && forall i :: 0 <= i < |elements| ==> Reads(elements[i], all.value[i])
    decreases elements, 0
  {
    if elements != [] {
      ToJsonReads(elements[0]);
      ToJsonReadsAll(elements[1..]);
      assert forall i :: 0 < i < |elements| ==> elements[i] == elements[1..][i - 1];
      assert (forall i :: 0 <= i < |elements| ==> CanBeRead(elements[i])) <==>
        CanBeRead(elements[0]) && forall i :: 0 <= i < |elements[1..]| ==> CanBeRead(elements[1..][i]);
    }
  }

  /** What makes an entry is read as key and value. */
  ghost predicate Entry(p: Pair)
  {
    var f := ToJsonEntry(p);
    && (f.Some? <==> PairCanBeRead(p))
    && (f.Some? ==> ReadsPair(p, f.value) && forall key :: HasKey(p, key) <==> key == f.value.key)
  }

  lemma {:induction false} ToJsonReadsPair(p: Pair)
    ensures Entry(p)
    decreases p, 2
  {
    ToJsonReads(p.value);
    var f := ToJsonEntry(p);
    KeyIsOne(p.key, "");
    forall key ensures HasKey(p, key) <==> ToJson(p.key) == Some(Str(key)) {
      KeyIsOne(p.key, key);
    }
  }

  lemma {:induction false} PairsCanBeRead(pairs: seq<Pair>, before: seq<Field>)
    ensures ToJsonFields(pairs, before).Some? <==> forall i :: 0 <= i < |pairs| ==> PairCanBeRead(pairs[i])
    decreases pairs, 0
  {
    if pairs != [] {
      ToJsonReadsPair(pairs[0]);
      var f := ToJsonEntry(pairs[0]);
      if f.Some? {
        PairsCanBeRead(pairs[1..], Emplace(before, f.value.key, f.value.value));
      }
      assert (forall i :: 0 <= i < |pairs| ==> PairCanBeRead(pairs[i])) <==>
        PairCanBeRead(pairs[0]) && forall i :: 0 <= i < |pairs[1..]| ==> PairCanBeRead(pairs[1..][i]);
    }
  }

  lemma {:induction false} FirstValueIsFirst(pairs: seq<Pair>, key: string) returns (i: int)
    requires forall j :: 0 <= j < |pairs| ==> Entry(pairs[j]) && ToJsonEntry(pairs[j]).Some?
    ensures match FirstValue(pairs, key)
      case None => i == |pairs| && forall j :: 0 <= j < |pairs| ==> !HasKey(pairs[j], key)
      case Some(v) => FirstOf(pairs, key, i) && ReadsPair(pairs[i], Field(key, v))
    decreases |pairs|
  {
    if pairs == [] {
      i := 0;
    } else if ToJsonEntry(pairs[0]).value.key == key {
      i := 0;
      assert Entry(pairs[0]);
    } else {
      i := FirstValueIsFirst(pairs[1..], key);
      assert Entry(pairs[0]) && !HasKey(pairs[0], key);
      assert forall j :: 0 < j < |pairs| ==> pairs[j] == pairs[1..][j - 1];
      i := i + 1;
    }
  }

  ghost predicate AllEntries(pairs: seq<Pair>)
  {
    forall i :: 0 <= i < |pairs| ==> Entry(pairs[i]) && ToJsonEntry(pairs[i]).Some?
  }

  lemma PairHasItsField(pairs: seq<Pair>, fields: seq<Field>, i: int)
    requires ToJsonFields(pairs, []) == Some(fields) && AllEntries(pairs) && 0 <= i < |pairs|
    ensures SomeKeyOf(fields, pairs[i])
  {
    hide HasKey, ReadsPair, ToJsonEntry, ToJsonFields, Lookup, PairCanBeRead;
    assert Entry(pairs[i]);
    var key := ToJsonEntry(pairs[i]).value.key;
    FieldsLookUp(pairs, [], key);
    assert Lookup([], key) == None by { NotAmongLater([], key); }
    var first := FirstValueIsFirst(pairs, key);
    LookupFinds(fields, key);
    var k :| 0 <= k < |fields| && fields[k].key == key;
  }

  lemma FieldHasItsPair(pairs: seq<Pair>, fields: seq<Field>, k: int)
    requires ToJsonFields(pairs, []) == Some(fields) && AllEntries(pairs) && Ascending(fields) && 0 <= k < |fields|
    ensures FromTheFirst(pairs, fields[k])
  {
    hide HasKey, ReadsPair, ToJsonEntry, ToJsonFields, Lookup, PairCanBeRead;
    var key := fields[k].key;
    LookupAt(fields, k);
    FieldsLookUp(pairs, [], key);
    assert Lookup([], key) == None by { NotAmongLater([], key); }
    var i := FirstValueIsFirst(pairs, key);
    assert fields[k] == Field(key, fields[k].value);
  }

  lemma FieldsAscend(pairs: seq<Pair>, fields: seq<Field>)
    requires ToJsonFields(pairs, []) == Some(fields)
    ensures Ascending(fields)
  {
    FieldsLookUp(pairs, [], "");
  }

  lemma FieldsReadMap(pairs: seq<Pair>, fields: seq<Field>)
    requires ToJsonFields(pairs, []) == Some(fields) && AllEntries(pairs)
    ensures ReadsMap(pairs, fields)
  {
    hide HasKey, ReadsPair, ToJsonEntry, ToJsonFields, Lookup, PairCanBeRead, FirstOf, Entry, AllEntries, Reads,
        SomeKeyOf, FromTheFirst;
    FieldsAscend(pairs, fields);
    forall i | 0 <= i < |pairs| ensures SomeKeyOf(fields, pairs[i]) {
      PairHasItsField(pairs, fields, i);
    }
    forall k | 0 <= k < |fields| ensures FromTheFirst(pairs, fields[k]) {
      FieldHasItsPair(pairs, fields, k);
    }
  }
}
