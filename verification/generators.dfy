/** The key generator registry (jwk/handler.go:56-66): a map from algorithm name to generator,
    filled lazily with the four built-in generators when it is empty. */
module GeneratorRegistry {
  import opened JwkTypes

  /** The built-in generators, keyed by the algorithm names a client sends. */
  function BuiltinGenerators(): map<string, KeyGenerator> {
    map["RS256" := RS256Generator, "ES512" := ECDSA512Generator,
        "HS256" := HS256Generator, "HS512" := HS512Generator]
  }

  /** The registry after `GetGenerators`, given the registry before. A nil map is the empty map here. */
  function Registry(current: map<string, KeyGenerator>): (r: map<string, KeyGenerator>)
    ensures |current| == 0 ==> r.Keys == {"RS256", "ES512", "HS256", "HS512"}
    ensures |current| == 0 ==>
      && r["RS256"] == RS256Generator && r["ES512"] == ECDSA512Generator
      && r["HS256"] == HS256Generator && r["HS512"] == HS512Generator
    ensures |current| != 0 ==> r == current
    ensures |r| != 0
  {
    if |current| == 0 then BuiltinGenerators() else current
  }

  /** Filling the registry is done once: asking again changes nothing. */
  lemma RegistryIdempotent(current: map<string, KeyGenerator>)
    ensures Registry(Registry(current)) == Registry(current)
  {
  }

  /** Lookups are exact: an algorithm outside the four built-in names is unknown to a lazily
      filled registry, whatever its spelling. */
  lemma UnknownAlgorithm(alg: string)
    requires alg !in {"RS256", "ES512", "HS256", "HS512"}
    ensures alg !in Registry(map[])
  {
  }
}
