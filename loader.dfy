/**
 * The two loader hooks of loader.mjs. `resolve` asks the host's resolver
 * for the real target and then may replace it with a synthetic `mock:`
 * address built from the matched registry keys; `load` serves the
 * registered source for a synthetic address and hands every other URL to
 * the host's loader.
 */
module Loader {
  import opened Wrappers
  import opened Strings
  import opened Mocks
  import opened Address

  /** What a resolve hook returns: `{ url, format }`. */
  datatype Resolution = Resolution(url: string, format: Option<string>)

  /** What a load hook returns: `{ source, format }`. */
  datatype Loaded = Loaded(source: string, format: string)

  datatype Error =
    | MockUrlUndefined(url: string)  // `Mock URL isn't defined: "<url>"`
    | HostFailure(reason: string)    // an error thrown by the host's own hooks

  /** A hook either returns a value or throws. */
  datatype Result<T> = Ok(value: T) | Err(error: Error)

  /** The format both hooks attach to a mock. */
  const ModuleFormat := "module"

  /** The host's `defaultResolve`, seen through the parent URL it is given. */
  type Resolver = (string, Option<string>) -> Result<Resolution>

  /** The host's `defaultLoad`. */
  type Fetcher = string -> Result<Loaded>

  /** The parent URL left once a `mock:` parent has been deleted. */
  function EffectiveParent(parentURL: Option<string>): (parent: Option<string>)
    ensures parent.Some? ==> parent == parentURL && !StartsWith(parent.value, MockScheme)
    ensures parentURL.Some? && !StartsWith(parentURL.value, MockScheme) ==> parent == parentURL
  {
    if parentURL.Some? && StartsWith(parentURL.value, MockScheme) then None else parentURL
  }

  /**
   * The first registry key, in insertion order, that the parent URL ends
   * with; when there is none, the property name a miss indexes with.
   */
  function ImporterKey(reg: MockMap, sourceURL: string): string {
    var keys := Keys(reg);
    var i := FirstSuffixIndex(keys, sourceURL);
    if i < |keys| then keys[i] else UndefinedKey
  }

  /**
   * The matching part of `resolve`: given the (effective) parent URL and the
   * real target URL, the registry key pair to mock, or `None` to fall
   * through. A falsy parent URL (absent or empty) and a falsy found import
   * key (the empty tail) both fall through.
   */
  function Match(reg: MockMap, sourceURL: Option<string>, targetURL: string): Option<(string, string)> {
    if sourceURL.None? || sourceURL.value == "" then None
    else
      var importerKey := ImporterKey(reg, sourceURL.value);
      match Get(reg, importerKey)
      case None => None
      case Some(imports) =>
        var keys := Keys(imports);
        var j := FirstSuffixIndex(keys, targetURL);
        if j < |keys| && keys[j] != "" then Some((importerKey, keys[j])) else None
  }

  /** What the `resolve` hook returns for `specifier` from `parentURL`. */
  function ResolveSpec(reg: MockMap, specifier: string, parentURL: Option<string>, resolver: Resolver): Result<Resolution> {
    var parent := EffectiveParent(parentURL);
    match resolver(specifier, parent)
    case Err(e) => Err(e)
    case Ok(target) =>
      match Match(reg, parent, target.url)
      case None => Ok(target)
      case Some((importerKey, importKey)) =>
        Ok(Resolution(Encode(importerKey, importKey), Some(ModuleFormat)))
  }

  /** The `load` hook. */
  function Load(reg: MockMap, url: string, fetch: Fetcher): Result<Loaded> {
    if StartsWith(url, MockScheme) then
      var (importerKey, importKey) := Decode(url);
      var code := MockCode(reg, importerKey, importKey);
      if code.None? || code.value == "" then Err(MockUrlUndefined(url))
      else Ok(Loaded(code.value, ModuleFormat))
    else
      fetch(url)
  }

  /** The part of the hook context `resolve` reads and changes. */
  class ResolveContext {
    var parentURL: Option<string>

    constructor (parentURL: Option<string>)
      ensures this.parentURL == parentURL
    {
      this.parentURL := parentURL;
    }
  }

  /** One call of the host's resolver, with the parent URL it was given. */
  datatype ResolveRequest = ResolveRequest(specifier: string, parentURL: Option<string>)

  /**
   * The host behind `defaultResolve`. Resolving may have effects of its own
   * (cache warm-up), so every call is recorded in `requests`.
   */
  class Host {
    const resolver: Resolver
    var requests: seq<ResolveRequest>

    constructor (resolver: Resolver)
      ensures this.resolver == resolver && requests == []
    {
      this.resolver := resolver;
      requests := [];
    }

    method DefaultResolve(specifier: string, parentURL: Option<string>) returns (r: Result<Resolution>)
      modifies this
      ensures r == resolver(specifier, parentURL)
      ensures requests == old(requests) + [ResolveRequest(specifier, parentURL)]
    {
      requests := requests + [ResolveRequest(specifier, parentURL)];
      r := resolver(specifier, parentURL);
    }
  }

  /**
   * The `resolve` hook. It deletes a `mock:` parent from the context, then
   * calls the host's resolver exactly once with that context, whatever it
   * goes on to return, and returns what `ResolveSpec` describes.
   */
  method Resolve(reg: MockMap, specifier: string, context: ResolveContext, host: Host) returns (r: Result<Resolution>)
    modifies context, host
    ensures context.parentURL == EffectiveParent(old(context.parentURL))
    ensures host.requests == old(host.requests) + [ResolveRequest(specifier, context.parentURL)]
    ensures r == ResolveSpec(reg, specifier, old(context.parentURL), host.resolver)
  {
    if context.parentURL.Some? && StartsWith(context.parentURL.value, MockScheme) {
      context.parentURL := None;
    }
    var sourceURL := context.parentURL;
    r := host.DefaultResolve(specifier, context.parentURL);
    if r.Err? || sourceURL.None? || sourceURL.value == "" {
      return;
    }
    var resolvedImportURL := r.value;
    var keys := Keys(reg);
    var i := FindSuffix(keys, sourceURL.value);
    var matchedSourceURL := if i < |keys| then keys[i] else UndefinedKey;
    var mockedImports := Get(reg, matchedSourceURL);
    if mockedImports.Some? {
      var importKeys := Keys(mockedImports.value);
      var j := FindSuffix(importKeys, resolvedImportURL.url);
      if j < |importKeys| && importKeys[j] != "" {
        r := Ok(Resolution(Encode(matchedSourceURL, importKeys[j]), Some(ModuleFormat)));
      }
    }
  }
}
