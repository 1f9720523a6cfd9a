/**
 * The synthetic `mock:` address through which `resolve` tells the stateless
 * `load` hook which replacement to serve: `mock:<importerKey>,<importKey>`.
 */
module Address {
  import opened Strings
  import opened Mocks

  /** The reserved scheme that marks a synthetic address. */
  const MockScheme := "mock:"

  /** The character between the two keys. */
  const Separator := ','

  /** The template literal `mock:${importerKey},${importKey}`. */
  function Encode(importerKey: string, importKey: string): (url: string)
    ensures StartsWith(url, MockScheme)
    ensures url[|MockScheme|..] == Join([importerKey, importKey], Separator)
  {
    var url := MockScheme + importerKey + [Separator] + importKey;
    assert url[..|MockScheme|] == MockScheme;
    url
  }

  /**
   * The first two comma-separated pieces of what follows the scheme; any
   * further pieces are dropped. A missing second piece is `undefined`, which
   * indexes the registry as the property name "undefined".
   */
  function Decode(url: string): (keys: (string, string))
    requires StartsWith(url, MockScheme)
    ensures Separator !in keys.0 && Separator !in keys.1
  {
    var parts := Split(url[|MockScheme|..], Separator);
    (parts[0], if |parts| > 1 then parts[1] else UndefinedKey)
  }

  /** Decoding recovers both keys exactly when neither contains a comma. */
  lemma DecodeEncode(importerKey: string, importKey: string)
    requires Separator !in importerKey && Separator !in importKey
    ensures Decode(Encode(importerKey, importKey)) == (importerKey, importKey)
  {
    SplitJoin([importerKey, importKey], Separator);
  }

  /** Two comma-free key pairs never share a synthetic address. */
  lemma EncodeInjective(k1: string, j1: string, k2: string, j2: string)
    requires Separator !in k1 && Separator !in j1
    requires Separator !in k2 && Separator !in j2
    requires Encode(k1, j1) == Encode(k2, j2)
    ensures k1 == k2 && j1 == j2
  {
    DecodeEncode(k1, j1);
    DecodeEncode(k2, j2);
  }

  /**
   * A comma inside a key is read as the separator: the importer key "a,b"
   * with import key "c" decodes as the pair ("a", "b").
   */
  lemma CommaInKeyIsMisread()
    ensures Decode(Encode("a,b", "c")) == ("a", "b")
  {
    assert Encode("a,b", "c")[|MockScheme|..] == "a" + [Separator] + ("b" + [Separator] + "c");
    SplitAtFirstSeparator("a", "b" + [Separator] + "c", Separator);
    SplitAtFirstSeparator("b", "c", Separator);
    SplitNoSeparator("c", Separator);
  }

  /** Without a comma the second key is the property name "undefined". */
  lemma DecodeWithoutSeparator(url: string)
    requires StartsWith(url, MockScheme)
    requires Separator !in url
    ensures Decode(url) == (url[|MockScheme|..], UndefinedKey)
  {
    SplitNoSeparator(url[|MockScheme|..], Separator);
  }
}
