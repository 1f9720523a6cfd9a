/**
 * What the two hooks promise, stated over `ResolveSpec` (what the `resolve`
 * method returns), `Match` and `Load`.
 */
module Properties {
  import opened Wrappers
  import opened Strings
  import opened Mocks
  import opened Address
  import opened Loader

  // ---- resolve: the cases that always fall through ----

  /** The entry script (no parent, or an empty one) gets the host's answer. */
  lemma ResolveWithoutParent(reg: MockMap, specifier: string, parentURL: Option<string>, resolver: Resolver)
    requires parentURL == None || parentURL == Some("")
    ensures ResolveSpec(reg, specifier, parentURL, resolver) == resolver(specifier, parentURL)
  {
  }

  /**
   * An import issued by a mock module is resolved as if it had no parent:
   * the host sees no parent URL and its answer is returned unchanged.
   */
  lemma ResolveFromMockModule(reg: MockMap, specifier: string, parentURL: Option<string>, resolver: Resolver)
    requires parentURL.Some? && StartsWith(parentURL.value, MockScheme)
    ensures ResolveSpec(reg, specifier, parentURL, resolver) == resolver(specifier, None)
  {
  }

  /** A failure of the host's resolver propagates unchanged, on every path. */
  lemma ResolvePropagatesHostFailure(reg: MockMap, specifier: string, parentURL: Option<string>, resolver: Resolver)
    requires resolver(specifier, EffectiveParent(parentURL)).Err?
    ensures ResolveSpec(reg, specifier, parentURL, resolver) == resolver(specifier, EffectiveParent(parentURL))
  {
  }

  // ---- the matching step, both directions ----

  /**
   * A mock is chosen only for a non-empty parent URL, from the first
   * importer key that is a suffix of it (or, when none is, from an entry
   * literally named "undefined"), and for the first import key of that entry
   * that is a suffix of the target URL, provided it is not the empty tail;
   * the chosen pair has a registered replacement.
   */
  lemma MatchSound(reg: MockMap, sourceURL: Option<string>, targetURL: string, importerKey: string, importKey: string)
    requires Match(reg, sourceURL, targetURL) == Some((importerKey, importKey))
    ensures sourceURL.Some? && sourceURL.value != ""
    ensures || (exists i: nat :: IsFirstSuffix(Keys(reg), sourceURL.value, i) && reg[i].0 == importerKey)
            || (NoSuffix(Keys(reg), sourceURL.value) && importerKey == UndefinedKey)
    ensures Get(reg, importerKey).Some?
    ensures exists j: nat :: IsFirstSuffix(Keys(Get(reg, importerKey).value), targetURL, j)
                        && Get(reg, importerKey).value[j].0 == importKey
    ensures EndsWith(targetURL, importKey) && importKey != ""
    ensures MockCode(reg, importerKey, importKey).Some?
  {
    var p := sourceURL.value;
    var i := FirstSuffixIndex(Keys(reg), p);
    assert i < |reg| ==> reg[i].0 == Keys(reg)[i];
    var imports := Get(reg, importerKey).value;
    var j := FirstSuffixIndex(Keys(imports), targetURL);
    assert imports[j].0 == Keys(imports)[j];
  }

  /** The first matching importer and its first matching non-empty import key are mocked. */
  lemma MatchComplete(reg: MockMap, sourceURL: string, targetURL: string, i: nat, j: nat)
    requires sourceURL != ""
    requires IsFirstSuffix(Keys(reg), sourceURL, i)
    requires IsFirstSuffix(Keys(reg[i].1), targetURL, j)
    requires reg[i].1[j].0 != ""
    ensures Match(reg, Some(sourceURL), targetURL) == Some((reg[i].0, reg[i].1[j].0))
  {
    FirstSuffixUnique(Keys(reg), sourceURL, i);
    GetEntry(reg, i);
    FirstSuffixUnique(Keys(reg[i].1), targetURL, j);
  }

  /** No importer key matches (and none is named "undefined"): no mock. */
  lemma MatchMissesImporter(reg: MockMap, sourceURL: string, targetURL: string)
    requires NoSuffix(Keys(reg), sourceURL)
    requires UndefinedKey !in Keys(reg)
    ensures Match(reg, Some(sourceURL), targetURL) == None
  {
    FirstSuffixUnique(Keys(reg), sourceURL, |reg|);
  }

  /**
   * The importer matches, but no import key is a suffix of the target, or
   * the first one that is is the empty tail: no mock, and no error.
   */
  lemma MatchMissesImport(reg: MockMap, sourceURL: string, targetURL: string, i: nat)
    requires IsFirstSuffix(Keys(reg), sourceURL, i)
    requires forall j: nat :: IsFirstSuffix(Keys(reg[i].1), targetURL, j) ==> reg[i].1[j].0 == ""
    ensures Match(reg, Some(sourceURL), targetURL) == None
  {
    FirstSuffixUnique(Keys(reg), sourceURL, i);
    GetEntry(reg, i);
    var j := FirstSuffixIndex(Keys(reg[i].1), targetURL);
    assert j < |reg[i].1| ==> reg[i].1[j].0 == Keys(reg[i].1)[j];
  }

  /**
   * A registry entry named "undefined" applies to every importer that no
   * key matches, because `mockMap[undefined]` reads that property.
   */
  lemma UndefinedEntryCatchesUnmatchedImporters(reg: MockMap, sourceURL: string, targetURL: string, j: nat)
    requires sourceURL != ""
    requires NoSuffix(Keys(reg), sourceURL)
    requires Get(reg, UndefinedKey).Some?
    requires IsFirstSuffix(Keys(Get(reg, UndefinedKey).value), targetURL, j)
    requires Get(reg, UndefinedKey).value[j].0 != ""
    ensures Match(reg, Some(sourceURL), targetURL) == Some((UndefinedKey, Get(reg, UndefinedKey).value[j].0))
  {
    FirstSuffixUnique(Keys(reg), sourceURL, |reg|);
    FirstSuffixUnique(Keys(Get(reg, UndefinedKey).value), targetURL, j);
  }

  // ---- resolve: the whole hook ----

  /** An importer with no registry entry gets exactly the host's resolution. */
  lemma ResolveUnmatchedImporter(reg: MockMap, specifier: string, parentURL: string, resolver: Resolver)
    requires !StartsWith(parentURL, MockScheme)
    requires NoSuffix(Keys(reg), parentURL)
    requires UndefinedKey !in Keys(reg)
    ensures ResolveSpec(reg, specifier, Some(parentURL), resolver) == resolver(specifier, Some(parentURL))
  {
    var r := resolver(specifier, Some(parentURL));
    if r.Ok? {
      MatchMissesImporter(reg, parentURL, r.value.url);
    }
  }

  /** A matched importer whose entry has no key for the target falls through silently. */
  lemma ResolveUnmatchedImport(reg: MockMap, specifier: string, parentURL: string, resolver: Resolver, target: Resolution, i: nat)
    requires !StartsWith(parentURL, MockScheme)
    requires resolver(specifier, Some(parentURL)) == Ok(target)
    requires IsFirstSuffix(Keys(reg), parentURL, i)
    requires forall j: nat :: IsFirstSuffix(Keys(reg[i].1), target.url, j) ==> reg[i].1[j].0 == ""
    ensures ResolveSpec(reg, specifier, Some(parentURL), resolver) == Ok(target)
  {
    MatchMissesImport(reg, parentURL, target.url, i);
  }

  /**
   * On a full match the hook returns `mock:<importerKey>,<importKey>` with
   * format "module", built from the registry keys, not from the real URLs.
   */
  lemma ResolveMatched(reg: MockMap, specifier: string, parentURL: string, resolver: Resolver, target: Resolution, i: nat, j: nat)
    requires parentURL != "" && !StartsWith(parentURL, MockScheme)
    requires resolver(specifier, Some(parentURL)) == Ok(target)
    requires IsFirstSuffix(Keys(reg), parentURL, i)
    requires IsFirstSuffix(Keys(reg[i].1), target.url, j)
    requires reg[i].1[j].0 != ""
    ensures ResolveSpec(reg, specifier, Some(parentURL), resolver)
         == Ok(Resolution(MockScheme + reg[i].0 + [Separator] + reg[i].1[j].0, Some(ModuleFormat)))
  {
    MatchComplete(reg, parentURL, target.url, i, j);
  }

  // ---- load ----

  /** A URL outside the `mock:` scheme is the host loader's business alone. */
  lemma LoadDelegates(reg: MockMap, url: string, fetch: Fetcher)
    requires !StartsWith(url, MockScheme)
    ensures Load(reg, url, fetch) == fetch(url)
  {
  }

  /**
   * A `mock:` URL never reaches the host loader: the outcome does not depend
   * on it, and the only failure is `MockUrlUndefined` for that URL.
   */
  lemma LoadMockIgnoresHost(reg: MockMap, url: string, fetch: Fetcher, other: Fetcher)
    requires StartsWith(url, MockScheme)
    ensures Load(reg, url, fetch) == Load(reg, url, other)
    ensures Load(reg, url, fetch).Err? ==> Load(reg, url, fetch) == Err(MockUrlUndefined(url))
    ensures Load(reg, url, fetch).Ok? ==> Load(reg, url, fetch).value.format == ModuleFormat
  {
  }

  /** A well-formed synthetic address for a pair the registry lacks is fatal. */
  lemma LoadOrphanedAddress(reg: MockMap, importerKey: string, importKey: string, fetch: Fetcher)
    requires Separator !in importerKey && Separator !in importKey
    requires MockCode(reg, importerKey, importKey).None?
    ensures Load(reg, Encode(importerKey, importKey), fetch) == Err(MockUrlUndefined(Encode(importerKey, importKey)))
  {
    DecodeEncode(importerKey, importKey);
  }

  /**
   * Every registered replacement is served for its synthetic address; an
   * empty replacement is falsy and is refused like a missing one.
   */
  lemma LoadRegistered(reg: MockMap, i: nat, j: nat, fetch: Fetcher)
    requires i < |reg|
    requires j < |reg[i].1|
    requires Separator !in reg[i].0 && Separator !in reg[i].1[j].0
    ensures var url := Encode(reg[i].0, reg[i].1[j].0);
            Load(reg, url, fetch)
            == if reg[i].1[j].1 == "" then Err(MockUrlUndefined(url)) else Ok(Loaded(reg[i].1[j].1, ModuleFormat))
  {
    DecodeEncode(reg[i].0, reg[i].1[j].0);
    GetEntry(reg, i);
    GetEntry(reg[i].1, j);
  }

  // ---- the two hooks together ----

  /**
   * Round trip: when `resolve` mocks a pair whose keys hold no comma, `load`
   * on the address it returned serves exactly that pair's registered source
   * (and throws if that source is empty).
   */
  lemma ResolveThenLoad(reg: MockMap, specifier: string, parentURL: Option<string>, resolver: Resolver, fetch: Fetcher,
                        importerKey: string, importKey: string)
    requires resolver(specifier, EffectiveParent(parentURL)).Ok?
    requires Match(reg, EffectiveParent(parentURL), resolver(specifier, EffectiveParent(parentURL)).value.url)
             == Some((importerKey, importKey))
    requires Separator !in importerKey && Separator !in importKey
    ensures ResolveSpec(reg, specifier, parentURL, resolver) == Ok(Resolution(Encode(importerKey, importKey), Some(ModuleFormat)))
    ensures MockCode(reg, importerKey, importKey).Some?
    ensures var code := MockCode(reg, importerKey, importKey).value;
            Load(reg, Encode(importerKey, importKey), fetch)
            == if code == "" then Err(MockUrlUndefined(Encode(importerKey, importKey))) else Ok(Loaded(code, ModuleFormat))
  {
    MatchSound(reg, EffectiveParent(parentURL), resolver(specifier, EffectiveParent(parentURL)).value.url, importerKey, importKey);
    DecodeEncode(importerKey, importKey);
  }

  /**
   * Scoped substitution: two importers reach the same real target; the one
   * with a registry entry gets the replacement source, the one without gets
   * the host's own module.
   */
  lemma ScopedSubstitution(reg: MockMap, specifier: string, mocked: string, plain: string, resolver: Resolver, fetch: Fetcher,
                           target: Resolution, i: nat, j: nat)
    requires mocked != "" && !StartsWith(mocked, MockScheme) && !StartsWith(plain, MockScheme)
    requires resolver(specifier, Some(mocked)) == Ok(target) && resolver(specifier, Some(plain)) == Ok(target)
    requires !StartsWith(target.url, MockScheme)
    requires IsFirstSuffix(Keys(reg), mocked, i)
    requires IsFirstSuffix(Keys(reg[i].1), target.url, j)
    requires reg[i].1[j].0 != "" && reg[i].1[j].1 != ""
    requires Separator !in reg[i].0 && Separator !in reg[i].1[j].0
    requires NoSuffix(Keys(reg), plain) && UndefinedKey !in Keys(reg)
    ensures ResolveSpec(reg, specifier, Some(mocked), resolver).Ok?
    ensures Load(reg, ResolveSpec(reg, specifier, Some(mocked), resolver).value.url, fetch) == Ok(Loaded(reg[i].1[j].1, ModuleFormat))
    ensures ResolveSpec(reg, specifier, Some(plain), resolver) == Ok(target)
    ensures Load(reg, ResolveSpec(reg, specifier, Some(plain), resolver).value.url, fetch) == fetch(target.url)
  {
    MatchComplete(reg, mocked, target.url, i, j);
    GetEntry(reg, i);
    GetEntry(reg[i].1, j);
    DecodeEncode(reg[i].0, reg[i].1[j].0);
    ResolveUnmatchedImporter(reg, specifier, plain, resolver);
  }

  /** With an empty registry both hooks pass everything real through to the host. */
  lemma EmptyRegistryPassesThrough(specifier: string, parentURL: Option<string>, resolver: Resolver, url: string, fetch: Fetcher)
    ensures ResolveSpec([], specifier, parentURL, resolver) == resolver(specifier, EffectiveParent(parentURL))
    ensures !StartsWith(url, MockScheme) ==> Load([], url, fetch) == fetch(url)
    ensures StartsWith(url, MockScheme) ==> Load([], url, fetch) == Err(MockUrlUndefined(url))
  {
  }
}
