/**
 * Worked instances over a one-entry registry: the importer tail
 * "mod/app.js" mocks the import tail "mod/net.js".
 */
module Scenarios {
  import opened Wrappers
  import opened Strings
  import opened Mocks
  import opened Address
  import opened Loader
  import opened Properties

  const AppRegistry: MockMap := [("mod/app.js", [("mod/net.js", "export default 'mocked';")])]

  /** The string facts Scenario A rests on. */
  lemma ScenarioAMatches()
    ensures IsFirstSuffix(Keys(AppRegistry), "file:///x/mod/app.js", 0)
    ensures IsFirstSuffix(Keys(AppRegistry[0].1), "file:///x/mod/net.js", 0)
    ensures !StartsWith("file:///x/mod/app.js", MockScheme)
    ensures MockScheme + "mod/app.js" + [Separator] + "mod/net.js" == "mock:mod/app.js,mod/net.js"
  {
    var p, t := "file:///x/mod/app.js", "file:///x/mod/net.js";
    assert Keys(AppRegistry)[0] == "mod/app.js";
    assert p[|p| - 10..] == "mod/app.js";
    assert Keys(AppRegistry[0].1)[0] == "mod/net.js";
    assert t[|t| - 10..] == "mod/net.js";
    assert p[..5][0] != MockScheme[0];
  }

  lemma ScenarioAResolve(resolver: Resolver)
    requires resolver("./net.js", Some("file:///x/mod/app.js")) == Ok(Resolution("file:///x/mod/net.js", None))
    ensures ResolveSpec(AppRegistry, "./net.js", Some("file:///x/mod/app.js"), resolver)
         == Ok(Resolution("mock:mod/app.js,mod/net.js", Some("module")))
  {
    ScenarioAMatches();
    ResolveMatched(AppRegistry, "./net.js", "file:///x/mod/app.js", resolver, Resolution("file:///x/mod/net.js", None), 0, 0);
  }

  lemma ScenarioALoad(fetch: Fetcher)
    ensures Load(AppRegistry, "mock:mod/app.js,mod/net.js", fetch) == Ok(Loaded("export default 'mocked';", "module"))
  {
    assert Separator !in "mod/app.js" && Separator !in "mod/net.js";
    assert Encode("mod/app.js", "mod/net.js") == "mock:mod/app.js,mod/net.js";
    LoadRegistered(AppRegistry, 0, 0, fetch);
  }

  lemma ScenarioB(specifier: string, resolver: Resolver)
    ensures ResolveSpec(AppRegistry, specifier, Some("file:///x/mod/other.js"), resolver)
         == resolver(specifier, Some("file:///x/mod/other.js"))
  {
    var p := "file:///x/mod/other.js";
    assert !StartsWith(p, MockScheme) by { assert p[..5][0] != MockScheme[0]; }
    assert !EndsWith(p, "mod/app.js") by { assert p[|p| - 10..][0] != "mod/app.js"[0]; }
    assert Keys(AppRegistry) == ["mod/app.js"];
    assert UndefinedKey != "mod/app.js" by { assert UndefinedKey[0] != "mod/app.js"[0]; }
    ResolveUnmatchedImporter(AppRegistry, specifier, p, resolver);
  }
}
