/** What a network frame's document says, field by field, and when it says nothing. */
module FrameFields {
  import opened Wrappers
  import opened CborJson
  import opened Frames

  /** The value of the first field of that name. */
  ghost predicate Has(fields: seq<Field>, key: string, value: Json)
  {
    exists k :: 0 <= k < |fields| && fields[k] == Field(key, value) && forall j :: 0 <= j < k ==> fields[j].key != key
  }

  predicate Lacks(fields: seq<Field>, key: string)
  {
    forall k :: 0 <= k < |fields| ==> fields[k].key != key
  }

  lemma {:induction false} FindHas(fields: seq<Field>, key: string)
    ensures match Find(fields, key)
      case None => Lacks(fields, key)
      case Some(value) => Has(fields, key, value) && !Lacks(fields, key)
    decreases |fields|
  {
    if fields != [] && fields[0].key != key {
      FindHas(fields[1..], key);
      assert forall k :: 0 < k < |fields| ==> fields[k] == fields[1..][k - 1];
      if Find(fields, key).Some? {
        var k :| 0 <= k < |fields[1..]| && fields[1..][k] == Field(key, Find(fields, key).value)
          && forall j :: 0 <= j < k ==> fields[1..][j].key != key;
        assert fields[k + 1] == Field(key, Find(fields, key).value);
      }
    } else if fields != [] {
      assert fields[0] == Field(key, Find(fields, key).value);
    }
  }

  lemma {:induction false} HasOnlyOne(fields: seq<Field>, key: string, value: Json)
    requires Has(fields, key, value)
    ensures Find(fields, key) == Some(value)
  {
    var k :| 0 <= k < |fields| && fields[k] == Field(key, value) && forall j :: 0 <= j < k ==> fields[j].key != key;
    FindAt(fields, key, k);
  }

  // ----- numbers

  predicate Number(j: Json)
  {
    j.Int? || j.Float?
  }

  /** The real number that it is. */
  predicate IsReal(j: Json, x: real)
  {
    (j.Int? && x == j.n as real) || (j.Float? && x == j.f)
  }

  /** The whole number it is read as: a fraction is dropped, toward zero; true is one. */
  predicate IsWhole(j: Json, n: int)
  {
    || (j.Int? && n == j.n)
    || (j.Float? && 0.0 <= j.f && n as real <= j.f < (n + 1) as real)
    || (j.Float? && j.f < 0.0 && (n - 1) as real < j.f <= n as real)
    || (j == Bool(true) && n == 1) || (j == Bool(false) && n == 0)
  }

  predicate Wraps(n: int, m: int, size: int)
    requires 0 < size
  {
    (n - m) % size == 0
  }

  /** The time that is given, or the clock's if none is. */
  ghost predicate TimeIs(fields: seq<Field>, key: string, now: real, t: real)
  {
    if Lacks(fields, key) then t == now else exists j :: Has(fields, key, j) && IsReal(j, t)
  }

  ghost predicate CountIs(fields: seq<Field>, key: string, n: nat)
  {
    n < TWO32 && exists j, m :: Has(fields, key, j) && Number(j) && IsWhole(j, m) && Wraps(n, m, TWO32)
  }

  ghost predicate IdIs(fields: seq<Field>, id: FrameId)
  {
    exists items, m, n ::
      && Has(fields, "i", Arr(items)) && 2 <= |items| && IsWhole(items[0], m) && IsWhole(items[1], n)
      && IsInt64(id.i1) && IsInt64(id.i2) && Wraps(id.i1, m, TWO64) && Wraps(id.i2, n, TWO64)
  }

  /** The frame says what the fields say. */
  ghost predicate Says(fields: seq<Field>, now: real, nf: NetworkFrame)
  {
    && Has(fields, "b", Str(nf.data)) && IdIs(fields, nf.id)
    && TimeIs(fields, "t", now, nf.t) && TimeIs(fields, "dt", now, nf.dt)
    && (if Lacks(fields, "c") then nf.chunk == nf.chunks == 1
        else CountIs(fields, "c", nf.chunk) && CountIs(fields, "l", nf.chunks))
    && (if Lacks(fields, "k") then !nf.keyFrame else Has(fields, "k", Bool(nf.keyFrame)))
  }

  ghost predicate HasNumber(fields: seq<Field>, key: string)
  {
    exists j :: Has(fields, key, j) && Number(j)
  }

  ghost predicate HasText(fields: seq<Field>, key: string)
  {
    exists s :: Has(fields, key, Str(s))
  }

  ghost predicate HasFlag(fields: seq<Field>, key: string)
  {
    exists b :: Has(fields, key, Bool(b))
  }

  ghost predicate HasId(fields: seq<Field>)
  {
    exists items, m, n :: Has(fields, "i", Arr(items)) && 2 <= |items| && IsWhole(items[0], m) && IsWhole(items[1], n)
  }

  /** What a document needs to be a frame's. */
  ghost predicate IsFrame(item: Json)
  {
    item.Obj? &&
    var fields := item.fields;
    && HasText(fields, "b") && HasId(fields)
    && (Lacks(fields, "t") || HasNumber(fields, "t")) && (Lacks(fields, "dt") || HasNumber(fields, "dt"))
    && (Lacks(fields, "c") || (HasNumber(fields, "c") && HasNumber(fields, "l")))
    && (Lacks(fields, "k") || HasFlag(fields, "k"))
  }

  lemma WholeNumber(j: Json)
    ensures match AsInteger(j) case None => forall n :: !IsWhole(j, n) case Some(n) => IsWhole(j, n)
  {
  }

  lemma TimesAre(fields: seq<Field>, key: string, now: real)
    ensures match TimeField(Find(fields, key), now)
      case None => !Lacks(fields, key) && !HasNumber(fields, key)
      case Some(t) => TimeIs(fields, key, now, t) && (Lacks(fields, key) || HasNumber(fields, key))
  {
    FindHas(fields, key);
    if HasNumber(fields, key) {
      var j :| Has(fields, key, j) && Number(j);
      HasOnlyOne(fields, key, j);
    }
  }

  lemma CountsAre(fields: seq<Field>, key: string)
    ensures HasNumber(fields, key) <==> Find(fields, key).Some? && IsNumber(Find(fields, key).value)
    ensures HasNumber(fields, key) ==> CountIs(fields, key, AsInteger(Find(fields, key).value).value % TWO32)
  {
    FindHas(fields, key);
    if HasNumber(fields, key) {
      var j :| Has(fields, key, j) && Number(j);
      HasOnlyOne(fields, key, j);
      WholeNumber(j);
      var m := AsInteger(j).value;
      assert Has(fields, key, j) && Number(j) && IsWhole(j, m) && Wraps(m % TWO32, m, TWO32);
    }
  }

  lemma Wrapping(n: int)
    ensures IsInt64(WrapInt64(n)) && Wraps(WrapInt64(n), n, TWO64)
  {
  }

  lemma IdsAre(fields: seq<Field>)
    ensures match IdField(Find(fields, "i"))
      case None => !HasId(fields)
      case Some(id) => HasId(fields) && IdIs(fields, id)
  {
    hide Has, Lacks, IsWhole, AsInteger, WrapInt64, Wraps;
    FindHas(fields, "i");
    if HasId(fields) {
      var items, m, n :| Has(fields, "i", Arr(items)) && 2 <= |items| && IsWhole(items[0], m) && IsWhole(items[1], n);
      HasOnlyOne(fields, "i", Arr(items));
      WholeNumber(items[0]);
      WholeNumber(items[1]);
    }
    var found := Find(fields, "i");
    if IdField(found).Some? {
      var items := found.value.items;
      WholeNumber(items[0]);
      WholeNumber(items[1]);
      var m, n := AsInteger(items[0]).value, AsInteger(items[1]).value;
      Wrapping(m);
      Wrapping(n);
      assert Has(fields, "i", Arr(items)) && IsWhole(items[0], m) && IsWhole(items[1], n);
    }
  }

  lemma FlagsAre(fields: seq<Field>, key: string)
    ensures match KeyField(Find(fields, key))
      case None => !Lacks(fields, key) && !HasFlag(fields, key)
      case Some(b) => if Lacks(fields, key) then !b else Has(fields, key, Bool(b))
  {
    FindHas(fields, key);
    if HasFlag(fields, key) {
      var b :| Has(fields, key, Bool(b));
      HasOnlyOne(fields, key, Bool(b));
    }
  }

  lemma TextsAre(fields: seq<Field>, key: string)
    ensures HasText(fields, key) <==> Find(fields, key).Some? && Find(fields, key).value.Str?
    ensures HasText(fields, key) ==> Has(fields, key, Find(fields, key).value)
  {
    FindHas(fields, key);
    if HasText(fields, key) {
      var s :| Has(fields, key, Str(s));
      HasOnlyOne(fields, key, Str(s));
    }
  }

  /**
   A frame is parsed from a document if and only if that has what a frame needs; and it says what
   the document says.
   */
  lemma ParsingReadsTheFields(item: Json, now: real)
    ensures ParseNetworkFrame(item, now).Some? <==> IsFrame(item)
    ensures ParseNetworkFrame(item, now).Some? ==> Says(item.fields, now, ParseNetworkFrame(item, now).value)
  {
    hide Has, Lacks, HasNumber, HasText, HasFlag, HasId, TimeIs, CountIs, IdIs, TimeField, IdField, KeyField, AsInteger;
    if item.Obj? {
      var fields := item.fields;
      IdsAre(fields);
      TimesAre(fields, "t", now);
      TimesAre(fields, "dt", now);
      CountsAre(fields, "c");
      CountsAre(fields, "l");
      FindHas(fields, "c");
      FindHas(fields, "k");
      FlagsAre(fields, "k");
      TextsAre(fields, "b");
      FlagWasThere(fields, "k");
    }
  }

  lemma FlagWasThere(fields: seq<Field>, key: string)
    ensures KeyField(Find(fields, key)).Some? ==> Lacks(fields, key) || HasFlag(fields, key)
  {
    FlagsAre(fields, key);
  }
}
