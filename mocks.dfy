/**
 * The mock registry `mockMap` of loader.mjs: an object literal from an
 * importer URL tail to an object literal from an import URL tail to the
 * replacement source text. Object literals keep their keys in insertion
 * order, which decides which of several matching tails `find` returns.
 */
module Mocks {
  import opened Wrappers
  import opened Strings

  /**
   * A JavaScript object: its entries in key insertion order, each key once.
   * (In a literal that repeats a key, the key keeps its first position and
   * the last value; the object that results still has each key once.)
   */
  type Table<V> = t: seq<(string, V)> | DistinctKeys(t) witness []

  /** Import URL tail -> replacement module source. */
  type Imports = Table<string>

  /** Importer URL tail -> the imports mocked for that importer. */
  type MockMap = Table<Imports>

  /**
   * The property name JavaScript reads when an object is indexed with
   * `undefined`: `mockMap[undefined]` is `mockMap["undefined"]`.
   */
  const UndefinedKey := "undefined"

  /** The keys of `t`, in insertion order. */
  function Keys<V>(t: Table<V>): seq<string> {
    seq(|t|, i requires 0 <= i < |t| => t[i].0)
  }

  /** Position of the first occurrence of `key` in `keys`, or `|keys|`. */
  function KeyIndex(keys: seq<string>, key: string): (i: nat)
    ensures i <= |keys|
    ensures forall j :: 0 <= j < i ==> keys[j] != key
    ensures i < |keys| ==> keys[i] == key
  {
    if |keys| == 0 then 0
    else if keys[0] == key then 0
    else 1 + KeyIndex(keys[1..], key)
  }

  /** Indexing `t` with `key`: the value of the entry named `key`, if there is one. */
  function Get<V>(t: Table<V>, key: string): (r: Option<V>)
    ensures r.Some? <==> key in Keys(t)
    ensures r.Some? ==> (key, r.value) in t
  {
    var i := KeyIndex(Keys(t), key);
    if i < |t| then Some(t[i].1) else None
  }

  /**
   * The code registered for an import under an importer; absent when either
   * level has no entry for its key.
   */
  function MockCode(reg: MockMap, importerKey: string, importKey: string): Option<string> {
    match Get(reg, importerKey)
    case None => None
    case Some(imports) => Get(imports, importKey)
  }

  /** No two entries share a key. */
  predicate DistinctKeys<V>(t: seq<(string, V)>) {
    forall a, b :: 0 <= a < b < |t| ==> t[a].0 != t[b].0
  }

  /** Every entry is found by its own key. */
  lemma GetEntry<V>(t: Table<V>, i: nat)
    requires i < |t|
    ensures Get(t, t[i].0) == Some(t[i].1)
  {
    var k := KeyIndex(Keys(t), t[i].0);
    assert Keys(t)[i] == t[i].0;
  }

  /** `i` is the first position whose key `url` ends with. */
  ghost predicate IsFirstSuffix(keys: seq<string>, url: string, i: nat) {
    && i < |keys|
    && EndsWith(url, keys[i])
    && forall j :: 0 <= j < i ==> !EndsWith(url, keys[j])
  }

  /** No key is a suffix of `url`: `find` returns `undefined`. */
  predicate NoSuffix(keys: seq<string>, url: string) {
    forall k :: k in keys ==> !EndsWith(url, k)
  }

  /**
   * The position a first-match search over `keys` with a suffix test stops at:
   * the first key that is a suffix of `url`, or `|keys|` when none is.
   */
  function FirstSuffixIndex(keys: seq<string>, url: string): (i: nat)
    ensures i <= |keys|
    ensures i < |keys| ==> IsFirstSuffix(keys, url, i)
    ensures i == |keys| ==> NoSuffix(keys, url)
  {
    if |keys| == 0 then 0
    else if EndsWith(url, keys[0]) then 0
    else
      var i := 1 + FirstSuffixIndex(keys[1..], url);
      assert forall j :: 1 <= j < |keys| ==> keys[j] == keys[1..][j - 1];
      i
  }

  /** The first-match position is determined by its defining property. */
  lemma FirstSuffixUnique(keys: seq<string>, url: string, i: nat)
    requires i == |keys| ==> NoSuffix(keys, url)
    requires i < |keys| ==> IsFirstSuffix(keys, url, i)
    requires i <= |keys|
    ensures FirstSuffixIndex(keys, url) == i
  {
  }

  /**
   * The linear search for the first key that `url` ends with, front to back.
   */
  method FindSuffix(keys: seq<string>, url: string) returns (i: nat)
    ensures i == FirstSuffixIndex(keys, url)
  {
    i := 0;
    while i < |keys| && !EndsWith(url, keys[i])
      invariant i <= |keys|
      invariant forall j :: 0 <= j < i ==> !EndsWith(url, keys[j])
    {
      i := i + 1;
    }
    FirstSuffixUnique(keys, url, i);
  }
}
