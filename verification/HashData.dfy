/** The canonical serialization of a ConfigMap's data and its hash. */
module HashData {
  import opened Names

  type StringMap = map<string, string>

  const NUL: char := '\0'
  const NEWLINE: char := '\n'

  // ---------------------------------------------------------------------------
  // Serialization
  // ---------------------------------------------------------------------------

  /** One record of the serialization. */
  function Entry(key: string, value: string): string {
    key + [NUL] + value + [NEWLINE]
  }

  /** The records of the listed keys, in list order. */
  function Serialize(keys: seq<string>, data: StringMap): string
    requires forall k :: k in keys ==> k in data
  {
    if keys == [] then "" else Entry(keys[0], data[keys[0]]) + Serialize(keys[1..], data)
  }

  lemma {:induction false} SerializeSnoc(keys: seq<string>, key: string, data: StringMap)
    requires forall k :: k in keys + [key] ==> k in data
    ensures Serialize(keys + [key], data) == Serialize(keys, data) + Entry(key, data[key])
  {
    if keys == [] {
      assert [key][1..] == [];
    } else {
      assert (keys + [key])[1..] == keys[1..] + [key];
      SerializeSnoc(keys[1..], key, data);
    }
  }

  /** Writing a key, a NUL, a value and a newline one after another appends one record. */
  lemma FourWrites(builder: string, key: string, value: string)
    ensures builder + key + [NUL] + value + [NEWLINE] == builder + Entry(key, value)
  {
  }

  type Digest = string -> string

  /** What hex-encoded SHA-256 is taken to be: never empty and collision-free. */
  ghost predicate GoodDigest(digest: Digest) {
    && (forall s :: digest(s) != "")
    && (forall s, t :: digest(s) == digest(t) ==> s == t)
  }

  /** The hash, for any digest. */
  ghost function HashOf(digest: Digest, data: StringMap): string {
    if data == map[] then "" else digest(Serialize(SortSet(data.Keys), data))
  }

  /** Ranges over the map in whatever order the map yields its keys. */
  method KeysOf(data: StringMap) returns (keys: seq<string>)
    ensures NoDuplicates(keys) && Elements(keys) == data.Keys
  {
    keys := [];
    var remaining := data.Keys;
    while remaining != {}
      invariant remaining <= data.Keys
      invariant Elements(keys) == data.Keys - remaining
      invariant NoDuplicates(keys)
      decreases remaining
    {
      var key :| key in remaining;
      assert key !in Elements(keys);
      assert Elements(keys + [key]) == Elements(keys) + {key};
      keys := keys + [key];
      remaining := remaining - {key};
    }
  }

  method ComputeHash(digest: Digest, data: StringMap) returns (hash: string)
    ensures hash == HashOf(digest, data)
    ensures data == map[] ==> hash == ""
    ensures data != map[] ==> hash == digest(Serialize(SortSet(data.Keys), data))
  {
    if data == map[] {
      return "";
    }
    var keys := KeysOf(data);
    SortIsSortSet(keys);
    var serialized := WriteEntries(Sort(keys), data);
    hash := digest(serialized);
  }

  method WriteEntries(keys: seq<string>, data: StringMap) returns (builder: string)
    requires forall k :: k in keys ==> k in data
    ensures builder == Serialize(keys, data)
  {
    builder := "";
    for i := 0 to |keys|
      invariant builder == Serialize(keys[..i], data)
    {
      assert keys[..i + 1] == keys[..i] + [keys[i]];
      SerializeSnoc(keys[..i], keys[i], data);
      FourWrites(builder, keys[i], data[keys[i]]);
      builder := builder + keys[i];
      builder := builder + [NUL];
      builder := builder + data[keys[i]];
      builder := builder + [NEWLINE];
    }
    assert keys[..|keys|] == keys;
  }

  // ---------------------------------------------------------------------------
  // Decoding
  // ---------------------------------------------------------------------------

  /** The text before the first `c`, all of it if there is none. */
  function UpTo(c: char, s: string): (r: string)
    ensures |r| <= |s|
  {
    if s == "" || s[0] == c then "" else [s[0]] + UpTo(c, s[1..])
  }

  /** The text before the last `c`, nothing if there is none. */
  function UpToLast(c: char, s: string): (r: string)
    ensures |r| <= |s|
  {
    if s == "" then "" else
      var n := |s| - 1;
      if s[n] == c then s[..n] else UpToLast(c, s[..n])
  }

  lemma {:induction false} UpToFinds(c: char, a: string, b: string)
    requires c !in a
    ensures UpTo(c, a) == a
    ensures UpTo(c, a + [c] + b) == a
  {
    if a == "" {
    } else {
      UpToFinds(c, a[1..], b);
      assert (a + [c] + b)[1..] == a[1..] + [c] + b;
      assert a == [a[0]] + a[1..];
    }
  }

  lemma {:induction false} UpToLastFinds(c: char, a: string, b: string)
    requires c !in b
    ensures UpToLast(c, a + [c] + b) == a
  {
    var s := a + [c] + b;
    if b == "" {
      assert s[..|s| - 1] == a;
    } else {
      var n := |b| - 1;
      assert s[..|s| - 1] == a + [c] + b[..n];
      UpToLastFinds(c, a, b[..n]);
    }
  }

  /** Reads the records back: a key runs to the first NUL; its value runs to the last newline
      before the next NUL, or to the last newline of all. */
  function Decode(s: string): StringMap
    decreases |s|
  {
    if s == "" then map[] else
      var key := UpTo(NUL, s);
      if |key| == |s| then map[] else
        var rest := s[|key| + 1..];
        var value := UpToLast(NEWLINE, UpTo(NUL, rest));
        var next := if |value| < |rest| then rest[|value| + 1..] else "";
        Decode(next)[key := value]
  }

  predicate CleanKey(key: string) {
    NUL !in key && NEWLINE !in key
  }

  /** Keys are free of NUL and newline and values are free of NUL; values may hold newlines. */
  ghost predicate Clean(data: StringMap) {
    forall k :: k in data ==> CleanKey(k) && NUL !in data[k]
  }

  /** The value of a record ends where the decoder looks, whether or not a record follows. */
  lemma ValueFound(value: string, tail: string)
    requires NUL !in value
    requires tail == "" || (NUL in tail && NEWLINE !in UpTo(NUL, tail))
    ensures UpToLast(NEWLINE, UpTo(NUL, value + [NEWLINE] + tail)) == value
  {
    var rest := value + [NEWLINE] + tail;
    if tail == "" {
      UpToFinds(NUL, rest, "");
      UpToLastFinds(NEWLINE, value, tail);
    } else {
      var nextKey := UpTo(NUL, tail);
      var after := SplitAtNul(tail);
      assert rest == (value + [NEWLINE] + nextKey) + [NUL] + after;
      UpToFinds(NUL, value + [NEWLINE] + nextKey, after);
      UpToLastFinds(NEWLINE, value, nextKey);
    }
  }

  lemma DropPast(a: string, c: char, b: string)
    ensures (a + [c] + b)[|a| + 1..] == b
  {
  }

  lemma EntrySplits(key: string, value: string, tail: string)
    ensures Entry(key, value) + tail == key + [NUL] + (value + [NEWLINE] + tail)
  {
  }

  /** The decoder takes exactly the first record off a serialization. */
  lemma DecodeEntry(key: string, value: string, tail: string)
    requires CleanKey(key) && NUL !in value
    requires tail == "" || (NUL in tail && NEWLINE !in UpTo(NUL, tail))
    ensures Decode(Entry(key, value) + tail) == Decode(tail)[key := value]
  {
    var rest := value + [NEWLINE] + tail;
    EntrySplits(key, value, tail);
    UpToFinds(NUL, key, rest);
    DropPast(key, NUL, rest);
    ValueFound(value, tail);
    DropPast(value, NEWLINE, tail);
  }

  lemma {:induction false} SplitAtNul(s: string) returns (after: string)
    requires NUL in s
    ensures NUL !in UpTo(NUL, s)
    ensures s == UpTo(NUL, s) + [NUL] + after
  {
    if s[0] == NUL {
      after := s[1..];
      assert s == [NUL] + after;
    } else {
      after := SplitAtNul(s[1..]);
      assert s == [s[0]] + s[1..];
    }
  }

  function Restrict(data: StringMap, keys: set<string>): StringMap {
    map k | k in data && k in keys :: data[k]
  }

  /** A serialization, unless empty, begins with a key and a NUL. */
  lemma StartsWithKey(keys: seq<string>, data: StringMap)
    requires forall k :: k in keys ==> k in data && CleanKey(k)
    ensures var s := Serialize(keys, data);
            s == "" || (NUL in s && NEWLINE !in UpTo(NUL, s))
  {
    if keys == [] {
    } else {
      var k, rest := keys[0], Serialize(keys[1..], data);
      EntrySplits(k, data[k], rest);
      var more := data[k] + [NEWLINE] + rest;
      UpToFinds(NUL, k, more);
      assert (k + [NUL] + more)[|k|] == NUL;
    }
  }

  lemma RestrictFirst(keys: seq<string>, data: StringMap)
    requires keys != [] && keys[0] in data
    ensures Restrict(data, Elements(keys)) == Restrict(data, Elements(keys[1..]))[keys[0] := data[keys[0]]]
  {
  }

  /** Decoding the serialization of any list of keys recovers their values. */
  lemma {:induction false} DecodeSerialize(keys: seq<string>, data: StringMap)
    requires forall k :: k in keys ==> k in data
    requires Clean(data)
    ensures Decode(Serialize(keys, data)) == Restrict(data, Elements(keys))
  {
    if keys == [] {
    } else {
      var key, tail := keys[0], Serialize(keys[1..], data);
      StartsWithKey(keys[1..], data);
      DecodeEntry(key, data[key], tail);
      DecodeSerialize(keys[1..], data);
      RestrictFirst(keys, data);
    }
  }

  /** Round trip: the string that is digested determines the data. */
  lemma RoundTrip(data: StringMap)
    requires Clean(data)
    ensures Decode(Serialize(SortSet(data.Keys), data)) == data
  {
    DecodeSerialize(SortSet(data.Keys), data);
    SortSetElements(data.Keys);
  }

  /** The drift check compares hashes; on clean data that is comparing contents. */
  lemma EqualHashesMeanEqualData(digest: Digest, a: StringMap, b: StringMap)
    requires GoodDigest(digest) && Clean(a) && Clean(b)
    ensures HashOf(digest, a) == HashOf(digest, b) <==> a == b
    ensures HashOf(digest, a) == "" <==> a == map[]
  {
    RoundTrip(a);
    RoundTrip(b);
  }

  /** Serializing the keys in any order they are ranged over, then sorted, gives one string. */
  lemma IterationOrderIrrelevant(keys: seq<string>, data: StringMap)
    requires NoDuplicates(keys) && Elements(keys) == data.Keys
    ensures Serialize(Sort(keys), data) == Serialize(SortSet(data.Keys), data)
  {
    SortIsSortSet(keys);
  }

  lemma OneEntryReadsAsTwo(k: string, v: string, l: string, x: string)
    ensures Entry(k, v + [NEWLINE] + l + [NUL] + x) == Entry(k, v) + Entry(l, x)
  {
  }

  /** A NUL inside a value can break this: any map of two keys has the hash of a map of one key,
      whatever the digest. Module HashAmbiguity says exactly when it does. */
  lemma NulInValueCollides(digest: Digest, k: string, l: string, v: string, x: string)
    requires Less(k, l)
    ensures var one := map[k := v + [NEWLINE] + l + [NUL] + x];
            var two := map[k := v, l := x];
            one != two && HashOf(digest, one) == HashOf(digest, two)
  {
    var one := map[k := v + [NEWLINE] + l + [NUL] + x];
    var two := map[k := v, l := x];
    SerializeOne(k, one);
    SerializeTwo(k, l, two);
    OneEntryReadsAsTwo(k, v, l, x);
    assert l in two && l !in one;
  }

  lemma SerializeOne(k: string, data: StringMap)
    requires data.Keys == {k}
    ensures Serialize(SortSet(data.Keys), data) == Entry(k, data[k])
  {
    AscendingUnique(SortSet(data.Keys), [k]);
    SerializeSnoc([], k, data);
    assert [] + [k] == [k];
  }

  /** The layout, character by character: key, NUL, value, newline, smaller keys first. */
  lemma Layout(k: string, l: string, data: StringMap)
    requires data.Keys == {k, l} && Less(k, l)
    ensures Serialize(SortSet(data.Keys), data) == k + "\0" + data[k] + "\n" + l + "\0" + data[l] + "\n"
  {
    SerializeTwo(k, l, data);
    assert "\0" == [NUL] && "\n" == [NEWLINE];
    assert Entry(l, data[l]) == l + "\0" + data[l] + "\n";
    assert Entry(k, data[k]) + Entry(l, data[l]) == k + "\0" + data[k] + "\n" + l + "\0" + data[l] + "\n";
  }

  lemma SerializeTwo(k: string, l: string, data: StringMap)
    requires data.Keys == {k, l} && Less(k, l)
    ensures Serialize(SortSet(data.Keys), data) == Entry(k, data[k]) + Entry(l, data[l])
  {
    AscendingUnique(SortSet(data.Keys), [k, l]);
    SerializeSnoc([], k, data);
    SerializeSnoc([k], l, data);
    assert [] + [k] == [k] && [k] + [l] == [k, l];
  }
}
