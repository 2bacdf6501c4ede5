/** The HTTP handler for JSON Web Key sets (jwk/handler.go). Each endpoint is a method that runs
    the source's steps in order against the firewall `W`, the key store `Manager` and the response
    log `Log`, returning early where the source returns. HTTP routing and JSON decoding are not
    modelled: path parameters arrive as `Params`, decoded bodies as `Result` values. */
module Jwk {
  import opened JwkTypes
  import opened ResourceNaming
  import opened GeneratorRegistry
  import opened Authorization
  import opened Decoding
  import opened KeyStore

  /** The location of a created set: `<scheme>://<host>/keys/<set>`. */
  function Location(r: Request, setName: string): string {
    r.scheme + "://" + r.host + "/keys/" + setName
  }

  /** The write that passes on the answer of a store read. */
  function ReadResponse(answer: Result<seq<Key>>): Response {
    match answer
    case Ok(keys) => WriteKeySet(keys)
    case Err(e) => WriteError(e)
  }

  class Handler {
    /** The key store. */
    const Manager: Manager
    /** Algorithm name to key generator; filled lazily. */
    var Generators: map<string, KeyGenerator>
    /** Everything written to the response, oldest first (the herodot writer and the raw header write). */
    var Log: seq<Response>
    /** The firewall. */
    const W: Firewall
    /** The prefix of every policy resource; defaulted lazily. */
    var ResourcePrefix: string

    constructor (manager: Manager, generators: map<string, KeyGenerator>, w: Firewall, resourcePrefix: string)
      ensures Manager == manager && Generators == generators && W == w
      ensures ResourcePrefix == resourcePrefix && Log == []
    {
      Manager := manager;
      Generators := generators;
      W := w;
      ResourcePrefix := resourcePrefix;
      Log := [];
    }

    /** Names a policy resource. Defaults an empty prefix to "rn:hydra", strips one trailing colon,
        stores the result back in the field and joins it to `resource` with a colon. */
    method PrefixResource(resource: string) returns (r: string)
      modifies this`ResourcePrefix
      ensures ResourcePrefix == NextPrefix(old(ResourcePrefix))
      ensures r == ResourcePrefix + ":" + resource
      ensures old(ResourcePrefix) == "" ==> r == "rn:hydra:" + resource
      ensures Stable(old(ResourcePrefix)) ==> ResourcePrefix == old(ResourcePrefix) && r == old(ResourcePrefix) + ":" + resource
    {
      if ResourcePrefix == "" {
        ResourcePrefix := DefaultResourcePrefix;
      }
      if ResourcePrefix[|ResourcePrefix| - 1] == ':' {
        ResourcePrefix := ResourcePrefix[..|ResourcePrefix| - 1];
      }
      r := ResourcePrefix + ":" + resource;
    }

    /** The generator registry, filled with the four built-in generators if it is empty. */
    method GetGenerators() returns (g: map<string, KeyGenerator>)
      modifies this`Generators
      ensures Generators == Registry(old(Generators)) && g == Generators
      ensures |old(Generators)| == 0 ==> g.Keys == {"RS256", "ES512", "HS256", "HS512"}
      ensures |old(Generators)| != 0 ==> g == old(Generators)
    {
      if |Generators| == 0 {
        Generators := map["RS256" := RS256Generator, "ES512" := ECDSA512Generator,
                          "HS256" := HS256Generator, "HS512" := HS512Generator];
      }
      g := Generators;
    }

    /** The token check on `suffix`, bound to the request's token and the required scope. */
    method TokenCheck(token: string, suffix: string, action: string, scope: string) returns (c: Check)
      modifies this`ResourcePrefix
      ensures ResourcePrefix == NextPrefix(old(ResourcePrefix))
      ensures c == W.tokenAllowed(token, Resource(old(ResourcePrefix), suffix), action, scope)
    {
      var resource := PrefixResource(suffix);
      c := W.tokenAllowed(token, resource, action, scope);
    }

    /** The token check on `suffix`, falling back to the check for the anonymous subject when it
        fails; the error of a denial is the anonymous check's. */
    method TokenOrAnonymous(token: string, suffix: string, action: string, scope: string) returns (c: Check)
      modifies this`ResourcePrefix
      ensures Gate(c, ResourcePrefix) == TwoTier(W, token, old(ResourcePrefix), suffix, action, scope)
    {
      c := TokenCheck(token, suffix, action, scope);
      if c.Denied? {
        var resource := PrefixResource(suffix);
        c := W.isAllowed("", resource, action);
      }
    }

    /** WellKnown's loop (jwk/handler.go:172-176): the two-tier check for every public key of the
        ID-token set, in order, stopping at the first denial. */
    method GateEachKey(token: string, keys: seq<Key>) returns (c: Check)
      modifies this`ResourcePrefix
      ensures var s := GateScan(WellKnownGate(W, token), old(ResourcePrefix), keys);
        && ResourcePrefix == s.prefix
        && c == (if s.Passed? then Allowed else Denied(s.error))
    {
      ghost var gate := WellKnownGate(W, token);
      ghost var p0 := ResourcePrefix;
      var i := 0;
      while i < |keys|
        invariant 0 <= i <= |keys|
        invariant GateScan(gate, p0, keys) == Shift(GateScan(gate, ResourcePrefix, keys[i..]), i)
      {
        c := TokenOrAnonymous(token, KeyResource(IDTokenKeyName, keys[i].kid), "get", "hydra.keys.get");
        assert keys[i..][1..] == keys[i + 1..];
        if c.Denied? {
          return;
        }
        i := i + 1;
      }
      c := Allowed;
    }

    /** GetKeySet's loop (jwk/handler.go:289-297): the token check alone for every key of the set,
        in order, stopping at the first denial. */
    method CheckEachKey(token: string, setName: string, keys: seq<Key>) returns (c: Check)
      modifies this`ResourcePrefix
      ensures var s := TokenScan(GetKeySetCheck(W, token, setName), old(ResourcePrefix), keys);
        && ResourcePrefix == s.prefix
        && c == (if s.Passed? then Allowed else Denied(s.error))
    {
      ghost var verdict := GetKeySetCheck(W, token, setName);
      ghost var p0 := ResourcePrefix;
      var i := 0;
      while i < |keys|
        invariant 0 <= i <= |keys|
        invariant TokenScan(verdict, p0, keys) == Shift(TokenScan(verdict, ResourcePrefix, keys[i..]), i)
      {
        c := TokenCheck(token, KeyResource(setName, keys[i].kid), "get", "hydra.keys.get");
        assert keys[i..][1..] == keys[i + 1..];
        if c.Denied? {
          return;
        }
        i := i + 1;
      }
      c := Allowed;
    }

    /** GET /.well-known/jwks.json: the public keys of the ID-token set. A failed fetch is reported
        as exactly one error, the anonymous check's if the caller is denied the "public:" resource,
        the store's otherwise. A successful fetch is filtered, then every remaining key is checked
        in order and the first denial aborts without writing any key. */
    method WellKnown(r: Request, findKeysByPrefix: (seq<Key>, string) -> Result<seq<Key>>)
      modifies this`ResourcePrefix, this`Log, Manager`Calls
      ensures Manager.Sets == old(Manager.Sets)
      ensures Manager.Calls == old(Manager.Calls) + [GetKeySetCall(IDTokenKeyName)]
      ensures match old(Manager.Read(GetKeySetCall(IDTokenKeyName)))
        case Err(e) =>
          var g := TwoTier(W, r.token, old(ResourcePrefix), KeyResource(IDTokenKeyName, "public:"), "get", "hydra.keys.get");
          && ResourcePrefix == g.prefix
          && Log == old(Log) + [WriteError(if g.check.Denied? then g.check.error else e)]
        case Ok(keys) =>
          match findKeysByPrefix(keys, "public")
          case Err(e) => ResourcePrefix == old(ResourcePrefix) && Log == old(Log) + [WriteError(e)]
          case Ok(pub) =>
            var s := GateScan(WellKnownGate(W, r.token), old(ResourcePrefix), pub);
            && ResourcePrefix == s.prefix
            && Log == old(Log) + [if s.Passed? then WriteKeySet(pub) else WriteError(s.error)]
    {
      var fetched := Manager.GetKeySet(IDTokenKeyName);
      if fetched.Err? {
        var c := TokenOrAnonymous(r.token, KeyResource(IDTokenKeyName, "public:"), "get", "hydra.keys.get");
        if c.Denied? {
          Log := Log + [WriteError(c.error)];
          return;
        }
        Log := Log + [WriteError(fetched.error)];
        return;
      }

      var found := findKeysByPrefix(fetched.value, "public");
      if found.Err? {
        Log := Log + [WriteError(found.error)];
        return;
      }

      var keys := found.value;
      var c := GateEachKey(r.token, keys);
      if c.Denied? {
        Log := Log + [WriteError(c.error)];
        return;
      }
      Log := Log + [WriteKeySet(keys)];
    }

    /** GET /keys/:set/:key: one key. The store is asked only when the token check or its
        anonymous fallback allows; otherwise the fallback's error is the only write. */
    method GetKey(r: Request, ps: Params)
      modifies this`ResourcePrefix, this`Log, Manager`Calls
      ensures Manager.Sets == old(Manager.Sets)
      ensures var g := TwoTier(W, r.token, old(ResourcePrefix), KeyResource(ps.setName, ps.keyName), "get", "hydra.keys.get");
        && ResourcePrefix == g.prefix
        && (g.check.Denied? ==>
             && Manager.Calls == old(Manager.Calls)
             && Log == old(Log) + [WriteError(g.check.error)])
        && (g.check == Allowed ==>
             && Manager.Calls == old(Manager.Calls) + [GetKeyCall(ps.setName, ps.keyName)]
             && Log == old(Log) + [ReadResponse(old(Manager.Read(GetKeyCall(ps.setName, ps.keyName))))])
    {
      var c := TokenOrAnonymous(r.token, KeyResource(ps.setName, ps.keyName), "get", "hydra.keys.get");
      if c.Denied? {
        Log := Log + [WriteError(c.error)];
        return;
      }

      var keys := Manager.GetKey(ps.setName, ps.keyName);
      if keys.Err? {
        Log := Log + [WriteError(keys.error)];
        return;
      }

      Log := Log + [WriteKeySet(keys.value)];
    }

    /** GET /keys/:set: a whole set. The set is read first; it is written only if the token check
        (with no anonymous fallback) allows every key's resource, and otherwise only the error of
        the first key denied is written. */
    method GetKeySet(r: Request, ps: Params)
      modifies this`ResourcePrefix, this`Log, Manager`Calls
      ensures Manager.Sets == old(Manager.Sets)
      ensures Manager.Calls == old(Manager.Calls) + [GetKeySetCall(ps.setName)]
      ensures match old(Manager.Read(GetKeySetCall(ps.setName)))
        case Err(e) => ResourcePrefix == old(ResourcePrefix) && Log == old(Log) + [WriteError(e)]
        case Ok(keys) =>
          var s := TokenScan(GetKeySetCheck(W, r.token, ps.setName), old(ResourcePrefix), keys);
          && ResourcePrefix == s.prefix
          && Log == old(Log) + [if s.Passed? then WriteKeySet(keys) else WriteError(s.error)]
    {
      var fetched := Manager.GetKeySet(ps.setName);
      if fetched.Err? {
        Log := Log + [WriteError(fetched.error)];
        return;
      }

      var keys := fetched.value;
      var c := CheckEachKey(r.token, ps.setName, keys);
      if c.Denied? {
        Log := Log + [WriteError(c.error)];
        return;
      }
      Log := Log + [WriteKeySet(keys)];
    }

    /** The part of Create after the body is decoded (jwk/handler.go:353-370): look the algorithm
        up in the registry, generate, add the keys to the set and answer "201 Created". */
    method GenerateAndStore(r: Request, setName: string, req: CreateRequest, generate: (KeyGenerator, string) -> Result<seq<Key>>)
      modifies this`Generators, this`Log, Manager
      ensures Generators == Registry(old(Generators))
      ensures req.alg !in Generators ==>
        && Log == old(Log) + [WriteErrorCode(StatusBadRequest, Failure("Generator " + req.alg + " unknown"))]
        && unchanged(Manager)
      ensures req.alg in Generators ==>
        match generate(Generators[req.alg], req.kid)
        case Err(e) => Log == old(Log) + [WriteError(e)] && unchanged(Manager)
        case Ok(keys) =>
          var call := AddKeySetCall(setName, keys);
          && Manager.Calls == old(Manager.Calls) + [call]
          && Manager.Sets == old(Manager.Written(call))
          && Log == old(Log) +
               [if Manager.Fault(call).Some? then WriteError(Manager.Fault(call).value)
                else WriteCreated(Location(r, setName), keys)]
    {
      var generators := GetGenerators();
      if req.alg !in generators {
        Log := Log + [WriteErrorCode(StatusBadRequest, Failure("Generator " + req.alg + " unknown"))];
        return;
      }

      var keys := generate(generators[req.alg], req.kid);
      if keys.Err? {
        Log := Log + [WriteError(keys.error)];
        return;
      }

      var err := Manager.AddKeySet(setName, keys.value);
      if err.Some? {
        Log := Log + [WriteError(err.value)];
        return;
      }

      Log := Log + [WriteCreated(Location(r, setName), keys.value)];
    }

    /** POST /keys/:set: generate a set. After the token check, a body that fails to decode is
        reported but the handler carries on with the zero request. An unknown algorithm is a 400
        and no store call; a generator failure is reported and no store call; otherwise the
        generated keys are added to the set and a 201 with the set's location is written. */
    method Create(r: Request, ps: Params, body: Result<CreateRequest>, generate: (KeyGenerator, string) -> Result<seq<Key>>)
      modifies this`ResourcePrefix, this`Generators, this`Log, Manager
      ensures ResourcePrefix == NextPrefix(old(ResourcePrefix))
      ensures var check := W.tokenAllowed(r.token, Resource(old(ResourcePrefix), SetResource(ps.setName)), "create", "hydra.keys.create");
        && (check.Denied? ==>
             && Log == old(Log) + [WriteError(check.error)]
             && Generators == old(Generators)
             && unchanged(Manager))
        && (check == Allowed ==>
             var req := if body.Ok? then body.value else EmptyCreateRequest;
             var decodeError := if body.Err? then [WriteError(body.error)] else [];
             && Generators == Registry(old(Generators))
             && (req.alg !in Generators ==>
                  && Log == old(Log) + decodeError + [WriteErrorCode(StatusBadRequest, Failure("Generator " + req.alg + " unknown"))]
                  && unchanged(Manager))
             && (req.alg in Generators ==>
                  match generate(Generators[req.alg], req.kid)
                  case Err(e) => Log == old(Log) + decodeError + [WriteError(e)] && unchanged(Manager)
                  case Ok(keys) =>
                    var call := AddKeySetCall(ps.setName, keys);
                    && Manager.Calls == old(Manager.Calls) + [call]
                    && Manager.Sets == old(Manager.Written(call))
                    && Log == old(Log) + decodeError +
                         [if Manager.Fault(call).Some? then WriteError(Manager.Fault(call).value)
                          else WriteCreated(Location(r, ps.setName), keys)]))
    {
      var c := TokenCheck(r.token, SetResource(ps.setName), "create", "hydra.keys.create");
      if c.Denied? {
        Log := Log + [WriteError(c.error)];
        return;
      }

      var keyRequest := EmptyCreateRequest;
      match body {
        case Ok(req) => keyRequest := req;
        case Err(e) => Log := Log + [WriteError(e)];
      }

      GenerateAndStore(r, ps.setName, keyRequest, generate);
    }

    /** UpdateKeySet's loop over the raw keys: each one is unmarshalled, a failure is reported, and
        the key (the zero key after a failure) is appended either way. */
    method DecodeKeys(requests: seq<Result<Key>>) returns (keySet: seq<Key>)
      modifies this`Log
      ensures keySet == DecodedKeys(requests)
      ensures Log == old(Log) + DecodeErrors(requests)
    {
      keySet := [];
      var i := 0;
      while i < |requests|
        invariant 0 <= i <= |requests|
        invariant keySet == DecodedKeys(requests[..i])
        invariant Log == old(Log) + DecodeErrors(requests[..i])
      {
        var key := EmptyKey;
        match requests[i] {
          case Ok(k) => key := k;
          case Err(e) => Log := Log + [WriteError(e)];
        }
        keySet := keySet + [key];
        DecodeStep(requests, i);
        i := i + 1;
      }
      assert requests[..i] == requests;
    }

    /** PUT /keys/:set: store caller-supplied keys. After the token check and the body decode, every
        raw key is unmarshalled; a failure is reported and the zero key is appended anyway. The
        whole list is then added to the set and written back. */
    method UpdateKeySet(r: Request, ps: Params, body: Result<seq<Result<Key>>>)
      modifies this`ResourcePrefix, this`Log, Manager
      ensures ResourcePrefix == NextPrefix(old(ResourcePrefix))
      ensures var check := W.tokenAllowed(r.token, Resource(old(ResourcePrefix), SetResource(ps.setName)), "update", "hydra.keys.update");
        && (check.Denied? ==> Log == old(Log) + [WriteError(check.error)] && unchanged(Manager))
        && (check == Allowed && body.Err? ==> Log == old(Log) + [WriteError(body.error)] && unchanged(Manager))
        && (check == Allowed && body.Ok? ==>
             var keys := DecodedKeys(body.value);
             var call := AddKeySetCall(ps.setName, keys);
             && Manager.Calls == old(Manager.Calls) + [call]
             && Manager.Sets == old(Manager.Written(call))
             && Log == old(Log) + DecodeErrors(body.value) +
                  [if Manager.Fault(call).Some? then WriteError(Manager.Fault(call).value) else WriteKeySet(keys)])
    {
      var c := TokenCheck(r.token, SetResource(ps.setName), "update", "hydra.keys.update");
      if c.Denied? {
        Log := Log + [WriteError(c.error)];
        return;
      }

      if body.Err? {
        Log := Log + [WriteError(body.error)];
        return;
      }

      var keySet := DecodeKeys(body.value);

      var err := Manager.AddKeySet(ps.setName, keySet);
      if err.Some? {
        Log := Log + [WriteError(err.value)];
        return;
      }

      Log := Log + [WriteKeySet(keySet)];
    }

    /** PUT /keys/:set/:key: store one caller-supplied key. The body is decoded BEFORE the token
        check, and the checked resource uses the body's key id; the path's key is never read. */
    method UpdateKey(r: Request, ps: Params, body: Result<Key>)
      modifies this`ResourcePrefix, this`Log, Manager
      ensures body.Err? ==>
        && ResourcePrefix == old(ResourcePrefix)
        && Log == old(Log) + [WriteError(body.error)]
        && unchanged(Manager)
      ensures body.Ok? ==>
        var key := body.value;
        var check := W.tokenAllowed(r.token, Resource(old(ResourcePrefix), KeyResource(ps.setName, key.kid)), "update", "hydra.keys.update");
        && ResourcePrefix == NextPrefix(old(ResourcePrefix))
        && (check.Denied? ==> Log == old(Log) + [WriteError(check.error)] && unchanged(Manager))
        && (check == Allowed ==>
             var call := AddKeyCall(ps.setName, key);
             && Manager.Calls == old(Manager.Calls) + [call]
             && Manager.Sets == old(Manager.Written(call))
             && Log == old(Log) + [if Manager.Fault(call).Some? then WriteError(Manager.Fault(call).value) else WriteKey(key)])
    {
      if body.Err? {
        Log := Log + [WriteError(body.error)];
        return;
      }
      var key := body.value;

      var c := TokenCheck(r.token, KeyResource(ps.setName, key.kid), "update", "hydra.keys.update");
      if c.Denied? {
        Log := Log + [WriteError(c.error)];
        return;
      }

      var err := Manager.AddKey(ps.setName, key);
      if err.Some? {
        Log := Log + [WriteError(err.value)];
        return;
      }

      Log := Log + [WriteKey(key)];
    }

    /** DELETE /keys/:set: remove a set. Nothing is removed unless the token check allows. */
    method DeleteKeySet(r: Request, ps: Params)
      modifies this`ResourcePrefix, this`Log, Manager
      ensures ResourcePrefix == NextPrefix(old(ResourcePrefix))
      ensures var check := W.tokenAllowed(r.token, Resource(old(ResourcePrefix), SetResource(ps.setName)), "delete", "hydra.keys.delete");
        && (check.Denied? ==> Log == old(Log) + [WriteError(check.error)] && unchanged(Manager))
        && (check == Allowed ==>
             var call := DeleteKeySetCall(ps.setName);
             && Manager.Calls == old(Manager.Calls) + [call]
             && Manager.Sets == old(Manager.Written(call))
             && Log == old(Log) + [if Manager.Fault(call).Some? then WriteError(Manager.Fault(call).value) else WriteHeader(StatusNoContent)])
    {
      var c := TokenCheck(r.token, SetResource(ps.setName), "delete", "hydra.keys.delete");
      if c.Denied? {
        Log := Log + [WriteError(c.error)];
        return;
      }

      var err := Manager.DeleteKeySet(ps.setName);
      if err.Some? {
        Log := Log + [WriteError(err.value)];
        return;
      }

      Log := Log + [WriteHeader(StatusNoContent)];
    }

    /** DELETE /keys/:set/:key: remove one key. Nothing is removed unless the token check allows. */
    method DeleteKey(r: Request, ps: Params)
      modifies this`ResourcePrefix, this`Log, Manager
      ensures ResourcePrefix == NextPrefix(old(ResourcePrefix))
      ensures var check := W.tokenAllowed(r.token, Resource(old(ResourcePrefix), KeyResource(ps.setName, ps.keyName)), "delete", "hydra.keys.delete");
        && (check.Denied? ==> Log == old(Log) + [WriteError(check.error)] && unchanged(Manager))
        && (check == Allowed ==>
             var call := DeleteKeyCall(ps.setName, ps.keyName);
             && Manager.Calls == old(Manager.Calls) + [call]
             && Manager.Sets == old(Manager.Written(call))
             && Log == old(Log) + [if Manager.Fault(call).Some? then WriteError(Manager.Fault(call).value) else WriteHeader(StatusNoContent)])
    {
      var c := TokenCheck(r.token, KeyResource(ps.setName, ps.keyName), "delete", "hydra.keys.delete");
      if c.Denied? {
        Log := Log + [WriteError(c.error)];
        return;
      }

      var err := Manager.DeleteKey(ps.setName, ps.keyName);
      if err.Some? {
        Log := Log + [WriteError(err.value)];
        return;
      }

      Log := Log + [WriteHeader(StatusNoContent)];
    }
  }
}
