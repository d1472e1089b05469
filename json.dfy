/**
 * The structured values that Ruby's json library produces from hashes, arrays,
 * strings, numbers and nil, together with the two `compact` operations the
 * serialiser relies on (Array#compact and Hash#compact) and key lookup.
 * A Ruby hash is kept as its ordered list of pairs, since Ruby hashes keep
 * insertion order and `to_json` writes the keys in that order.
 */
module Json {
  import opened Wrappers

  datatype Json =
    | JNull
    | JNum(num: real)
    | JStr(str: string)
    | JArr(items: seq<Json>)
    | JObj(members: seq<(string, Json)>)

  /** The keys of a hash, in order. */
  function Keys(ms: seq<(string, Json)>): seq<string>
  {
    seq(|ms|, i requires 0 <= i < |ms| => ms[i].0)
  }

  /** No key occurs twice: what a Ruby hash guarantees of its pairs. */
  ghost predicate DistinctKeys(ms: seq<(string, Json)>)
  {
    forall i, j :: 0 <= i < j < |ms| ==> ms[i].0 != ms[j].0
  }

  /** No pair of the hash has a nil value. */
  ghost predicate NoNullValues(ms: seq<(string, Json)>)
  {
    forall i :: 0 <= i < |ms| ==> ms[i].1 != JNull
  }

  /** `r` is `s` with some elements removed and the rest kept in order. */
  ghost predicate IsSubsequence<T>(r: seq<T>, s: seq<T>)
    decreases |s|
  {
    |r| == 0 || (|s| > 0 && ((r[0] == s[0] && IsSubsequence(r[1..], s[1..])) || IsSubsequence(r, s[1..])))
  }

  /** Ruby's `nil` or a number, as it appears inside a literal array or hash. */
  function OptionalNumber(x: Option<real>): (j: Json)
    ensures j == JNull <==> x.None?
    ensures x.Some? ==> j == JNum(x.value)
  {
    match x
    case None => JNull
    case Some(n) => JNum(n)
  }

  /** Ruby's `nil` or a string, as it appears inside a literal array or hash. */
  function OptionalString(x: Option<string>): (j: Json)
    ensures j == JNull <==> x.None?
    ensures x.Some? ==> j == JStr(x.value)
  {
    match x
    case None => JNull
    case Some(s) => JStr(s)
  }

  /** Hash lookup by key: the value of the pair with that key, if there is one. */
  function Lookup(ms: seq<(string, Json)>, key: string): (r: Option<Json>)
    ensures r.None? <==> key !in Keys(ms)
    ensures r.Some? ==> (key, r.value) in ms
  {
    if |ms| == 0 then None
    else if ms[0].0 == key then
      assert Keys(ms)[0] == key;
      Some(ms[0].1)
    else
      assert Keys(ms) == [ms[0].0] + Keys(ms[1..]);
      Lookup(ms[1..], key)
  }

  /** Member access on a JSON value: a key of an object, nothing on anything else. */
  function Get(j: Json, key: string): Option<Json>
  {
    if j.JObj? then Lookup(j.members, key) else None
  }

  /** A lookup in a nested object, where both steps must exist. */
  function GetIn(j: Json, outer: string, inner: string): Option<Json>
  {
    match Get(j, outer)
    case None => None
    case Some(o) => Get(o, inner)
  }

  /** What can be read from a literal hash with two distinct keys. */
  lemma PairObject(k0: string, v0: Json, k1: string, v1: Json)
    requires k0 != k1
    ensures Keys([(k0, v0), (k1, v1)]) == [k0, k1]
    ensures Get(JObj([(k0, v0), (k1, v1)]), k0) == Some(v0)
    ensures Get(JObj([(k0, v0), (k1, v1)]), k1) == Some(v1)
  {
    assert [(k0, v0), (k1, v1)][1..] == [(k1, v1)];
  }

  /** What can be read from a literal hash with three distinct keys. */
  lemma TripleObject(k0: string, v0: Json, k1: string, v1: Json, k2: string, v2: Json)
    requires k0 != k1 && k0 != k2 && k1 != k2
    ensures Keys([(k0, v0), (k1, v1), (k2, v2)]) == [k0, k1, k2]
    ensures Get(JObj([(k0, v0), (k1, v1), (k2, v2)]), k0) == Some(v0)
    ensures Get(JObj([(k0, v0), (k1, v1), (k2, v2)]), k1) == Some(v1)
    ensures Get(JObj([(k0, v0), (k1, v1), (k2, v2)]), k2) == Some(v2)
  {
    var ms := [(k0, v0), (k1, v1), (k2, v2)];
    assert ms[1..] == [(k1, v1), (k2, v2)];
    assert ms[1..][1..] == [(k2, v2)];
  }

  /** Array#compact: the same array without its nil elements. */
  function CompactArray(xs: seq<Json>): (r: seq<Json>)
    ensures |r| <= |xs|
    ensures JNull !in r
    ensures forall x :: x in r <==> x in xs && x != JNull
    ensures IsSubsequence(r, xs)
    ensures JNull !in xs ==> r == xs
  {
    if |xs| == 0 then []
    else if xs[0] == JNull then CompactArray(xs[1..])
    else [xs[0]] + CompactArray(xs[1..])
  }

  /** Array#compact keeps every non-nil element as often as it occurs: only the nils go. */
  lemma {:induction false} CompactArrayCounts(xs: seq<Json>)
    ensures multiset(CompactArray(xs)) == multiset(xs)[JNull := 0]
  {
    if |xs| > 0 {
      assert xs == [xs[0]] + xs[1..];
      CompactArrayCounts(xs[1..]);
    }
  }

  /** Hash#compact: the same hash without the pairs whose value is nil. */
  function CompactObject(ms: seq<(string, Json)>): (r: seq<(string, Json)>)
    ensures |r| <= |ms|
    ensures NoNullValues(r)
    ensures forall p :: p in r <==> p in ms && p.1 != JNull
    ensures IsSubsequence(r, ms)
    ensures NoNullValues(ms) ==> r == ms
  {
    if |ms| == 0 then []
    else if ms[0].1 == JNull then CompactObject(ms[1..])
    else [ms[0]] + CompactObject(ms[1..])
  }

  /** Hash#compact keeps every pair with a non-nil value as often as it occurs. */
  lemma {:induction false} CompactObjectCounts(ms: seq<(string, Json)>)
    ensures forall p: (string, Json) :: p.1 != JNull ==> multiset(CompactObject(ms))[p] == multiset(ms)[p]
  {
    if |ms| > 0 {
      assert ms == [ms[0]] + ms[1..];
      CompactObjectCounts(ms[1..]);
    }
  }

  /** Compacting twice is compacting once. */
  lemma CompactObjectIdempotent(ms: seq<(string, Json)>)
    ensures CompactObject(CompactObject(ms)) == CompactObject(ms)
  {
  }

  /** Removing pairs from a hash keeps its keys distinct. */
  lemma {:induction false} CompactObjectDistinctKeys(ms: seq<(string, Json)>)
    requires DistinctKeys(ms)
    ensures DistinctKeys(CompactObject(ms))
  {
    if |ms| > 0 {
      CompactObjectDistinctKeys(ms[1..]);
      if ms[0].1 != JNull {
        var r := CompactObject(ms);
        var rest := CompactObject(ms[1..]);
        assert r == [ms[0]] + rest;
        forall j | 0 < j < |r| ensures r[0].0 != r[j].0 {
          assert r[j] in rest;
          assert r[j] in ms[1..];
          var k :| 0 <= k < |ms[1..]| && ms[1..][k] == r[j];
          assert ms[k + 1] == r[j];
        }
      }
    }
  }

  /**
   * Looking a key up in the compacted hash finds what the original hash has
   * under that key, except that a nil value now reads as absent.
   */
  lemma {:induction false} LookupCompactObject(ms: seq<(string, Json)>, key: string)
    requires DistinctKeys(ms)
    ensures Lookup(CompactObject(ms), key) ==
            match Lookup(ms, key)
            case None => None
            case Some(v) => if v == JNull then None else Some(v)
  {
    if |ms| > 0 {
      var rest := ms[1..];
      assert Keys(ms) == [ms[0].0] + Keys(rest);
      assert DistinctKeys(rest);
      LookupCompactObject(rest, key);
      if ms[0].0 == key {
        assert key !in Keys(rest);
        if ms[0].1 != JNull {
          assert CompactObject(ms) == [ms[0]] + CompactObject(rest);
        }
      } else if ms[0].1 != JNull {
        assert CompactObject(ms) == [ms[0]] + CompactObject(rest);
      }
    }
  }
}
