# esm-mock-loader, modelled in Dafny

`loader.mjs` is a pair of Node.js ESM loader hooks that replaces one import
with mock source text, but only as seen from one particular importer.

- **Registry** (`mockMap`). An object literal that maps an importer URL
  tail to a second object literal. That literal maps an import URL tail to
  replacement source text. Both levels keep insertion order. Importers and
  imports are matched with `String#endsWith`, and `find` returns the
  *first* key that matches.
- **`resolve`.**
  1. It deletes a parent URL that starts with `mock:`.
  2. It always calls the host's `defaultResolve`, before any matching.
  3. With no (or an empty) parent URL, it returns the host's answer.
  4. Otherwise it suffix-matches the parent against the importer keys, and
     then the real target URL against that importer's import keys.
  5. On a full match it returns `{ url: "mock:<importerKey>,<importKey>", format: "module" }`.
     Otherwise it returns the host's answer unchanged.
- **`load`.** A `mock:` URL is decoded with `split(',')`. The model looks
  the pair up by exact key and serves the code with format `module`. It
  throws `Mock URL isn't defined` when the code is missing or empty. Any
  other URL goes to the host's `defaultLoad`.

Files:
- `strings.dfy`: `endsWith`, `startsWith`, `split` and `join`.
- `mocks.dfy`: the registry, exact lookup and the first-suffix search. The
  search is a function, plus a looping method proved equal to it.
- `address.dfy`: the synthetic address, its encoding, decoding and round trip.
- `loader.dfy`: the hooks.
  - `Resolve` is a method. It mutates a `ResolveContext` object (the
    `delete context.parentURL`). It calls the host through a `Host` object
    that records every resolver request.
  - `ResolveSpec` is the function that `Resolve` is proved to compute.
  - `Load` is a function.
- `properties.dfy`: what the hooks promise, as lemmas.
- `scenarios.dfy`: two worked instances.

The host's `defaultResolve` and `defaultLoad` are parameters: `Resolver`
and `Fetcher` are total functions that return a value or an error. The
registry is a parameter, not a module-level constant. The model takes it
as given, after Node's resolver has computed some of its keys.

JavaScript behaviour the model keeps on purpose:
- **`undefined` as a key.** `mockMap[undefined]` reads the property
  `"undefined"`. This happens in `resolve` when no importer key matches. It
  also happens in `load` when the decoded URL has no comma, because the
  second key is then `undefined`. The model writes this as `UndefinedKey`.
  One consequence: a registry entry named `undefined` applies to every
  importer that no other key matches (`UndefinedEntryCatchesUnmatchedImporters`).
- **Truthiness.**
  - An empty parent URL counts as no parent.
  - An empty import key found by `find` is falsy. The import then falls
    through, even if a later key would also match.
  - An empty replacement source makes `load` throw.
- **Comma-free keys.** Keys are not escaped. The round trip holds only for
  keys without a comma: `CommaInKeyIsMisread` shows the importer key
  `"a,b"` being read back as `"a"`.

Behaviour of the code worth knowing:
- Decoding takes the first two comma-separated pieces after the scheme
  (loader.mjs:83). Extra pieces are ignored, a missing second piece becomes
  `"undefined"`, and empty keys are allowed.
- A synthetic address emitted by `resolve` does not always load. When the
  registered source is the empty string, `load` throws (loader.mjs:85).
- A host address that starts with `mock:` is always decoded, never passed
  to the host loader. With an empty registry, `load` throws on it
  (loader.mjs:81-85).
- Registry tables are JavaScript objects, so each key occurs once. A
  literal that repeats a key keeps that key at its first position with its
  last value; the model's `Table` type is the resulting object.

## Model

| member | source | states |
|---|---|---|
| `Strings.EndsWith` | loader.mjs:62 | no contract of its own (the predicate is the definition of a suffix); the suffix tests it drives are stated by `FirstSuffixIndex`, `MatchSound`, `MatchComplete` |
| `Strings.StartsWith` | loader.mjs:57 | no contract of its own (the definition of a prefix); used at loader.mjs:57 and 81, stated by `EffectiveParent`, `Encode`, `LoadDelegates`, `LoadMockIgnoresHost` |
| `Strings.Split` | loader.mjs:83 | `split(',')` gives at least one piece, no piece holds the separator, and joining the pieces gives back the input |
| `Strings.SplitJoin` | loader.mjs:83 | splitting a join of separator-free parts gives back exactly those parts |
| `Strings.SplitAtFirstSeparator` | loader.mjs:83 | the first separator ends the first piece, and the rest splits on its own |
| `Strings.SplitNoSeparator` | loader.mjs:83 | a string without the separator splits into itself alone |
| `Mocks.Get` | loader.mjs:63 | object indexing: a value exactly when the key is present, and the value is that key's entry |
| `Mocks.GetEntry` | loader.mjs:84 | every entry of an object is found by its own key |
| `Mocks.MockCode` | loader.mjs:84 | no contract of its own (two nested `Get` lookups); see `LoadRegistered`, `LoadOrphanedAddress`, `ResolveThenLoad` |
| `Mocks.FirstSuffixIndex` | loader.mjs:62 | `Object.keys(...).find(tail => url.endsWith(tail))`: the first key that is a suffix, with no earlier key a suffix, or past the end when no key is a suffix |
| `Mocks.FirstSuffixUnique` | loader.mjs:66 | the position `find` stops at is the only one with the first-match property |
| `Mocks.FindSuffix` | loader.mjs:62 | the linear search returns exactly the first-suffix position |
| `Address.Encode` | loader.mjs:70 | the synthetic URL starts with `mock:`, and after the scheme it is the two keys joined by `,` |
| `Address.Decode` | loader.mjs:83 | both decoded keys are comma-free |
| `Address.DecodeEncode` | loader.mjs:70 | decoding the URL `resolve` builds gives back both keys when neither contains a comma |
| `Address.EncodeInjective` | loader.mjs:70 | distinct comma-free key pairs never share a synthetic URL |
| `Address.CommaInKeyIsMisread` | loader.mjs:83 | a comma in the importer key is read as the separator, so the round trip fails |
| `Address.DecodeWithoutSeparator` | loader.mjs:83-84 | a `mock:` URL without a comma decodes to its payload and the key `"undefined"` |
| `Loader.EffectiveParent` | loader.mjs:57 | the parent survives exactly when it does not start with `mock:` |
| `Loader.ImporterKey` | loader.mjs:62-63 | no contract of its own; see `MatchSound`, `MatchComplete`, `MatchMissesImporter`, `UndefinedEntryCatchesUnmatchedImporters` |
| `Loader.Match` | loader.mjs:61-67 | no contract of its own; see `MatchSound` and `MatchComplete` (both directions), `MatchMissesImporter`, `MatchMissesImport` |
| `Loader.ResolveSpec` | loader.mjs:55-78 | no contract of its own; see `ResolveWithoutParent`, `ResolveFromMockModule`, `ResolvePropagatesHostFailure`, `ResolveUnmatchedImporter`, `ResolveUnmatchedImport`, `ResolveMatched`, and `Resolve`, which is proved to compute it |
| `Loader.Load` | loader.mjs:80-91 | no contract of its own; see `LoadDelegates`, `LoadMockIgnoresHost`, `LoadRegistered`, `LoadOrphanedAddress`, `ResolveThenLoad` |
| `Loader.Host.DefaultResolve` | loader.mjs:59 | the host returns its resolver's answer and records the request |
| `Loader.Resolve` | loader.mjs:55-78 | deletes a `mock:` parent from the context; calls the host exactly once, with the context after the deletion; returns `ResolveSpec` of the original context |
| `Properties.ResolveWithoutParent` | loader.mjs:58-61 | with no parent or an empty one, the result is exactly the host resolver's answer |
| `Properties.ResolveFromMockModule` | loader.mjs:57-61 | an import from a `mock:` module gets the host's resolution for "no parent", unchanged, and is never mocked |
| `Properties.ResolvePropagatesHostFailure` | loader.mjs:59 | a resolver failure is returned unchanged on every path |
| `Properties.MatchSound` | loader.mjs:62-70 | a mock is chosen only for a non-empty parent, and only from the first matching importer key (or an `undefined` entry when none matches). The import key is the first matching, non-empty key of that entry, and the pair has registered code |
| `Properties.MatchComplete` | loader.mjs:62-70 | the first matching importer plus its first matching non-empty import key is always mocked |
| `Properties.MatchMissesImporter` | loader.mjs:62-64 | if no importer key is a suffix of the parent (and none is named `undefined`), nothing is mocked |
| `Properties.MatchMissesImport` | loader.mjs:66-67 | if the importer matches but no import key does (or the first match is the empty tail), nothing is mocked |
| `Properties.UndefinedEntryCatchesUnmatchedImporters` | loader.mjs:62-63 | an entry named `undefined` mocks for every importer that no key matches |
| `Properties.ResolveUnmatchedImporter` | loader.mjs:62-64 | an importer without an entry gets exactly the host's resolution |
| `Properties.ResolveUnmatchedImport` | loader.mjs:71-77 | a matched importer with no matching import key gets the host's resolution, with no error |
| `Properties.ResolveMatched` | loader.mjs:70 | on a full match the result is `mock:` + importer key + `,` + import key with format `module`, built from the registry keys |
| `Properties.LoadDelegates` | loader.mjs:89-90 | a URL outside the `mock:` scheme gets exactly the host loader's result |
| `Properties.LoadMockIgnoresHost` | loader.mjs:81-87 | a `mock:` URL never reaches the host loader; it fails only with `MockUrlUndefined` for that URL, and succeeds with format `module` |
| `Properties.LoadOrphanedAddress` | loader.mjs:84-85 | a well-formed synthetic URL for an unregistered pair throws, and never falls back |
| `Properties.LoadRegistered` | loader.mjs:83-87 | every registered replacement is served verbatim for its synthetic URL; an empty one throws |
| `Properties.ResolveThenLoad` | loader.mjs:70 | round trip: loading the URL `resolve` returned serves that comma-free pair's registered code (or throws if it is empty) |
| `Properties.ScopedSubstitution` | loader.mjs:62-90 | two importers with the same real target: the one with an entry loads the replacement, the one without loads the host's module |
| `Properties.EmptyRegistryPassesThrough` | loader.mjs:61-90 | with an empty registry, resolve and load of real URLs are pure pass-through, and a `mock:` URL throws |
| `Scenarios.ScenarioAResolve` | loader.mjs:62-70 | `mod/app.js` importing `mod/net.js` resolves to `mock:mod/app.js,mod/net.js` |
| `Scenarios.ScenarioALoad` | loader.mjs:83-87 | that URL loads the registered source |
| `Scenarios.ScenarioB` | loader.mjs:62-64 | an importer ending `mod/other.js` gets the host's resolution unchanged |

## Left out

- `index.js`: a demo consumer script with no loader logic.
- `console.log` MATCHED/SKIP tracing (loader.mjs:68, loader.mjs:73): diagnostic output only.
- `createRequire`/`nodeResolve` (loader.mjs:8-11, 24, 37): these call into Node's resolver. The registry is an input value instead.
- The mock module bodies (loader.mjs:18-48): opaque strings.
- The internals of `defaultResolve`/`defaultLoad`: they are function parameters.
  - The resolver sees only the specifier and the parent URL. Other context fields, and the third argument, are not modelled.
  - The loader sees only the URL.
  - The model assumes neither one changes the context object.
- Resolution fields other than `url` and `format` (such as `shortCircuit`) are not modelled. A fall-through returns the host's whole value, so nothing is lost.
- Property names inherited from `Object.prototype` (`constructor`, `__proto__`, ...). In JavaScript, `mockMap[k]?.[j]` can find these. The model's tables hold only their own entries.
- `Object.keys` puts integer-like keys first. The model keeps plain insertion order.
- Asynchronous and concurrent scheduling of the hooks by the host.
- The wording of the thrown error message. It is the `MockUrlUndefined(url)` error value.
- JavaScript strings are sequences of UTF-16 code units and may hold lone surrogates; Dafny strings are sequences of Unicode scalar values. `endsWith`, `startsWith` and `split(',')` agree on well-formed strings, but strings with lone surrogates have no counterpart in the model.
