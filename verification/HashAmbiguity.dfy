/** Which maps share their serialization, and with it their hash, with another map: the exact
    limit of comparing contents by hash. */
module HashAmbiguity {
  import opened Names
  import opened HashData

  /** Keys free of NUL and newline, as the API server accepts them; values may hold anything. */
  ghost predicate CleanKeys(data: StringMap) {
    forall k :: k in data ==> CleanKey(k)
  }

  ghost function Serialized(data: StringMap): string {
    Serialize(SortSet(data.Keys), data)
  }

  /** One entry whose value contains a newline, a larger clean key and a NUL, in that order. */
  ghost predicate ReadsAsTwo(data: StringMap) {
    exists k, a, l, b :: CleanKey(l) && Less(k, l) && data == SplitValue(k, a, l, b)
  }

  function SplitValue(k: string, a: string, l: string, b: string): StringMap {
    map[k := a + [NEWLINE] + l + [NUL] + b]
  }

  ghost predicate Ambiguous(data: StringMap) {
    |data| >= 2 || ReadsAsTwo(data)
  }

  // ---------------------------------------------------------------------------
  // Several entries read as one
  // ---------------------------------------------------------------------------

  /** A serialization ends in a newline. */
  lemma {:induction false} EndsInNewline(keys: seq<string>, data: StringMap) returns (body: string)
    requires keys != [] && forall k :: k in keys ==> k in data
    ensures Serialize(keys, data) == body + [NEWLINE]
  {
    var first, rest := Entry(keys[0], data[keys[0]]), Serialize(keys[1..], data);
    if keys[1..] == [] {
      body := keys[0] + [NUL] + data[keys[0]];
      assert first + rest == body + [NEWLINE];
    } else {
      var tail := EndsInNewline(keys[1..], data);
      body := first + tail;
    }
  }

  /** What follows the first key and its NUL is a value and a newline. */
  lemma FirstKeyApart(keys: seq<string>, data: StringMap) returns (value: string)
    requires keys != [] && forall k :: k in keys ==> k in data
    ensures Serialize(keys, data) == Entry(keys[0], value)
    ensures value + [NEWLINE] == data[keys[0]] + [NEWLINE] + Serialize(keys[1..], data)
  {
    var k, rest := keys[0], Serialize(keys[1..], data);
    EntrySplits(k, data[k], rest);
    if keys[1..] == [] {
      value := data[k];
    } else {
      var tail := EndsInNewline(keys[1..], data);
      value := data[k] + [NEWLINE] + tail;
    }
    assert value + [NEWLINE] == data[k] + [NEWLINE] + rest;
    EntrySplits(k, value, "");
    assert Entry(k, value) + "" == Entry(k, value);
    assert value + [NEWLINE] + "" == value + [NEWLINE];
  }

  /** All entries of a map together read as a single one. */
  lemma MergeAll(data: StringMap) returns (one: StringMap)
    requires CleanKeys(data) && data != map[]
    ensures CleanKeys(one) && |one| == 1
    ensures Serialized(one) == Serialized(data)
  {
    var keys := SortSet(data.Keys);
    SortSetCount(data.Keys);
    var value := FirstKeyApart(keys, data);
    one := map[keys[0] := value];
    SerializeOne(keys[0], one);
  }

  // ---------------------------------------------------------------------------
  // One entry read as several
  // ---------------------------------------------------------------------------

  /** The first key of a serialization is determined. */
  lemma SameFirstKey(k: string, v: string, l: string, x: string)
    requires CleanKey(k) && CleanKey(l) && Entry(k, v) == Entry(l, x)
    ensures k == l && v == x
  {
    assert Entry(k, v) == k + [NUL] + (v + [NEWLINE]);
    assert Entry(l, x) == l + [NUL] + (x + [NEWLINE]);
    UpToFinds(NUL, k, v + [NEWLINE]);
    UpToFinds(NUL, l, x + [NEWLINE]);
    DropPast(k, NUL, v + [NEWLINE]);
    DropPast(l, NUL, x + [NEWLINE]);
    assert v == (v + [NEWLINE])[..|v|];
  }

  lemma ValueOfTwo(value: string, a: string, l: string, x: string, rest: string)
    requires value + [NEWLINE] == a + [NEWLINE] + rest && rest == Entry(l, x)
    ensures value == a + [NEWLINE] + l + [NUL] + x
  {
    assert (value + [NEWLINE])[..|value|] == value;
    assert a + [NEWLINE] + Entry(l, x) == a + [NEWLINE] + l + [NUL] + x + [NEWLINE];
    var whole := a + [NEWLINE] + l + [NUL] + x;
    assert (whole + [NEWLINE])[..|whole|] == whole;
  }

  /** If another map reads like a single entry, its second key is inside the entry's value. */
  lemma OtherReading(k: string, v: string, other: StringMap)
    requires CleanKey(k) && CleanKeys(other)
    requires Serialized(other) == Entry(k, v) && other != map[k := v]
    ensures ReadsAsTwo(map[k := v])
  {
    var keys := SortSet(other.Keys);
    SortSetCount(other.Keys);
    assert keys != [];
    var value := FirstKeyApart(keys, other);
    SameFirstKey(k, v, keys[0], value);
    if keys[1..] == [] {
      assert v + [NEWLINE] == other[k] + [NEWLINE];
      assert (v + [NEWLINE])[..|v|] == v && (other[k] + [NEWLINE])[..|other[k]|] == other[k];
      OnlyKey(keys, other);
    } else {
      var l := keys[1];
      assert keys[1..][0] == l;
      var x := FirstKeyApart(keys[1..], other);
      ValueOfTwo(v, other[k], l, x, Serialize(keys[1..], other));
      assert map[k := v] == SplitValue(k, other[k], l, x);
    }
  }

  lemma OnlyKey(keys: seq<string>, data: StringMap)
    requires keys == SortSet(data.Keys) && |keys| == 1
    ensures data == map[keys[0] := data[keys[0]]]
  {
    assert forall k :: k in data <==> k in keys;
  }

  // ---------------------------------------------------------------------------
  // The exact condition
  // ---------------------------------------------------------------------------

  ghost predicate SharesSerialization(data: StringMap) {
    exists other :: CleanKeys(other) && other != data && Serialized(other) == Serialized(data)
  }

  lemma AmbiguousIsShared(data: StringMap)
    requires CleanKeys(data) && Ambiguous(data)
    ensures SharesSerialization(data)
  {
    if |data| >= 2 {
      var one := MergeAll(data);
      assert CleanKeys(one) && one != data && Serialized(one) == Serialized(data);
    } else {
      var k, a, l, b :| CleanKey(l) && Less(k, l) && data == SplitValue(k, a, l, b);
      var two := map[k := a, l := b];
      assert k in data;
      SerializeOne(k, data);
      SerializeTwo(k, l, two);
      OneEntryReadsAsTwo(k, a, l, b);
      assert l in two && l !in data;
      assert CleanKeys(two) && two != data && Serialized(two) == Serialized(data);
    }
  }

  lemma SharedIsAmbiguous(data: StringMap)
    requires CleanKeys(data) && SharesSerialization(data)
    ensures Ambiguous(data)
  {
    var other :| CleanKeys(other) && other != data && Serialized(other) == Serialized(data);
    if data == map[] {
      SortSetCount(data.Keys);
      SortSetCount(other.Keys);
      var value := FirstKeyApart(SortSet(other.Keys), other);
    } else if |data| == 1 {
      SortSetCount(data.Keys);
      var k := SortSet(data.Keys)[0];
      OnlyKey(SortSet(data.Keys), data);
      SerializeOne(k, data);
      OtherReading(k, data[k], other);
    }
  }

  /** The hash of a map is also that of another map exactly if the map has two entries or more, or
      one whose value contains a newline, a larger clean key and a NUL in that order. */
  lemma HashSharedIff(digest: Digest, data: StringMap)
    requires GoodDigest(digest) && CleanKeys(data)
    ensures (exists other :: CleanKeys(other) && other != data && HashOf(digest, other) == HashOf(digest, data))
            <==> Ambiguous(data)
  {
    if Ambiguous(data) {
      AmbiguousIsShared(data);
      var other :| CleanKeys(other) && other != data && Serialized(other) == Serialized(data);
      SameSerializationSameHash(digest, data, other);
    }
    if other :| CleanKeys(other) && other != data && HashOf(digest, other) == HashOf(digest, data) {
      SameSerializationSameHash(digest, data, other);
      SharedIsAmbiguous(data);
    }
  }

  /** With a collision-free digest, hashing compares serializations. */
  lemma SameSerializationSameHash(digest: Digest, a: StringMap, b: StringMap)
    requires GoodDigest(digest)
    ensures HashOf(digest, a) == HashOf(digest, b) <==> Serialized(a) == Serialized(b)
  {
    EmptySerialization(a);
    EmptySerialization(b);
  }

  lemma EmptySerialization(data: StringMap)
    ensures Serialized(data) == "" <==> data == map[]
  {
    SortSetCount(data.Keys);
    if data != map[] {
      var value := FirstKeyApart(SortSet(data.Keys), data);
    }
  }

  /** Whatever shares the hash of a map with values free of NUL has a NUL in some value. */
  lemma OnlyNulCollides(digest: Digest, data: StringMap, other: StringMap)
    requires GoodDigest(digest) && Clean(data) && CleanKeys(other) && other != data
    requires HashOf(digest, other) == HashOf(digest, data)
    ensures exists k :: k in other && NUL in other[k]
  {
    if Clean(other) {
      EqualHashesMeanEqualData(digest, data, other);
    }
  }
}
