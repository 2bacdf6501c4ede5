# JSON Web Key handler of ORY Hydra, modelled in Dafny

This project models `jwk/handler.go`, the HTTP handler that serves JSON Web Key sets. It covers
the policy-gated access point between requests and three collaborators:

- the key store (`Manager`);
- the firewall (the policy engine);
- the key generators.

The model covers:

- **Resource naming.** `PrefixResource` defaults the handler's prefix to `rn:hydra`, strips one
  trailing colon per call, writes the stripped prefix back to the handler, and joins it to the
  suffix with a colon.
- **The lazy generator registry.** `GetGenerators` fills an empty registry with RS256, ES512,
  HS256 and HS512.
- **The two-tier authorization.** `WellKnown` and `GetKey` use the token check with a fallback to
  the anonymous check for subject `""`. Every other handler uses the token check alone.
  `GetKeySet` has no fallback.
- **Each handler as a step-by-step method** on a `Handler` class. The method runs against the
  store, the firewall, and a response log that holds everything written. Its contract states:
  - the new prefix field;
  - the exact responses written;
  - which store call was made, if any;
  - the store's new contents.

  A denied check leaves the store unchanged. The per-key loops of `WellKnown` and `GetKeySet`
  stop at the first denial.

Modules:

| file | module | contents |
|---|---|---|
| `types.dfy` | `JwkTypes` | keys, errors, firewall verdicts, requests, responses |
| `naming.dfy` | `ResourceNaming` | the prefix field's evolution and resource names |
| `generators.dfy` | `GeneratorRegistry` | the lazily filled registry |
| `authorization.dfy` | `Authorization` | the two-tier gate and the first-denial loops, as functions |
| `decoding.dfy` | `Decoding` | what `UpdateKeySet` builds from the raw keys of its body |
| `store.dfy` | `KeyStore` | the store as a class: a map from set name to keys, a call trace, a fault oracle, a merge rule |
| `handler.dfy` | `Jwk` | the `Handler` class and its endpoint methods |
| `scenario.dfy` | `Scenario` | clients that use only the handler's contracts |

The model follows the code as written:

- **A failed body decode in `Create` does not return.** Both the decode error and the generator's
  answer are written (`jwk/handler.go:349-351`).
- **A failed key unmarshal in `UpdateKeySet` still appends a key.** The zero key is appended and
  the error is written (`jwk/handler.go:426-432`).

Because of these two, one request can write more than one response, so the writer is a log.

### Behaviours of the code worth knowing

- **Resource naming settles only gradually.** `PrefixResource` strips one colon per call
  (`jwk/handler.go:49-51`), so two consecutive calls can name different resources.
  - With the prefix `":"` the first call names `:<suffix>` and the second names
    `rn:hydra:<suffix>`.
  - With a prefix ending in `"::"` each call drops one more colon.
  - So a token check and its anonymous fallback can be asked about different resources.
  - `ResourceNaming.RepeatedCallsAgree` and `ResourceNaming.DoubleColonDrifts` state this.
  - `ResourceNaming.EventuallyStable` shows that the prefix settles after finitely many calls.
- **A denied caller never sees why discovery failed.** When the ID-token set cannot be fetched
  and the caller is denied the public resource, only the denial is written
  (`jwk/handler.go:156-160`). The fetch error is written only to a caller who is allowed.
- **The public resource has a trailing colon.** That resource is
  `keys:hydra.openid.id-token:public:` (the check is passed the id `"public:"`). The endpoint's
  documentation names `...:public` (`jwk/handler.go:111`).

## Model

| member | source | states |
|---|---|---|
| ResourceNaming.NextPrefix | jwk/handler.go:44-54 | an empty prefix becomes "rn:hydra"; a prefix ending in ':' loses exactly that one colon; any other prefix is kept |
| ResourceNaming.Resource | jwk/handler.go:53 | the name a call returns: the prefix after the call, a colon and the suffix; its three concrete shapes are stated by ResourceShape |
| ResourceNaming.ResourceShape | jwk/handler.go:44-54 | a name is "rn:hydra:"+suffix for the empty prefix, prefix+":"+suffix for a stable prefix, and prefix+suffix when the prefix's trailing colon serves as the separator |
| ResourceNaming.PrefixAfter | jwk/handler.go:44-54 | the prefix field after n naming calls, each writing back one NextPrefix step; its properties are stated by PrefixAfterStep, StableStaysFixed and EventuallyStable |
| ResourceNaming.SetResource | jwk/handler.go:342 | the suffix `keys:<set>` named by Create, UpdateKeySet and DeleteKeySet (also lines 414 and 541) |
| ResourceNaming.KeyResource | jwk/handler.go:221 | the suffix `keys:<set>:<kid>` named for a single key by GetKey, WellKnown, GetKeySet, UpdateKey and DeleteKey (also lines 138, 143, 226, 291, 487 and 596) |
| ResourceNaming.PrefixAfterStep | jwk/handler.go:44-54 | n+1 calls leave the prefix one call further on than n calls |
| ResourceNaming.StableStaysFixed | jwk/handler.go:49-53 | a non-empty prefix without a trailing colon is left unchanged by any number of calls |
| ResourceNaming.EventuallyStable | jwk/handler.go:44-54 | every prefix is stable after at most its length plus one calls |
| ResourceNaming.RepeatedCallsAgree | jwk/handler.go:44-54 | two consecutive calls use the same prefix exactly when the configured prefix is neither ":" nor ends in "::" |
| ResourceNaming.DoubleColonDrifts | jwk/handler.go:44-54 | with the prefix "rn:hydra::" two consecutive calls name "rn:hydra::keys:a" and then "rn:hydra:keys:a" |
| GeneratorRegistry.Registry | jwk/handler.go:56-66 | an empty registry becomes exactly RS256, ES512, HS256 and HS512 with their generators; a non-empty one is kept; the result is never empty |
| GeneratorRegistry.RegistryIdempotent | jwk/handler.go:56-66 | filling the registry a second time changes nothing |
| GeneratorRegistry.UnknownAlgorithm | jwk/handler.go:353-357 | a name other than the four built-in ones is not in a lazily filled registry |
| Authorization.TwoTier | jwk/handler.go:136-154 | a passing token check decides alone after one naming call; otherwise the anonymous check decides, with its error, after two calls; with a stable prefix the result is allowed exactly when either check allows and a denial carries the anonymous check's error |
| Authorization.GetKeySetCheck | jwk/handler.go:290-293 | GetKeySet's per-key check: the token check on `keys:<set>:<kid>` with action "get" and scope "hydra.keys.get", named from the prefix before the call |
| Authorization.TokenScan | jwk/handler.go:289-297 | the first-denial loop stops only at an index inside the key list |
| Authorization.TokenScanFirstDenial | jwk/handler.go:289-297 | the loop passes exactly when every key's check passes; otherwise it stops at the first key whose check fails, with that error, after one naming call per key checked |
| Authorization.VerdictAtShift | jwk/handler.go:289-297 | the check of the key at `i` is the check of the key at `i - 1` of the remaining keys after one call on the prefix |
| Authorization.GetKeySetFirstDenial | jwk/handler.go:283-299 | with a stable prefix GetKeySet's loop keeps the prefix and passes exactly when the token check allows `<prefix>:keys:<set>:<kid>` for every key; otherwise it reports the first denied key's token error |
| Authorization.WellKnownGate | jwk/handler.go:136-154 | WellKnown's per-key check, the `fw` closure: the two-tier gate on `keys:hydra.openid.id-token:<kid>` with action "get" and scope "hydra.keys.get" |
| Authorization.GatePrefixAt | jwk/handler.go:172-176 | the prefix field when the gate for the key at `i` runs, each earlier gate passing on the prefix it left |
| Authorization.GateScan | jwk/handler.go:172-176 | the two-tier loop stops only at an index inside the key list |
| Authorization.GateScanFirstDenial | jwk/handler.go:172-176 | for any prefix, the loop passes exactly when every key's gate allows on the prefix the earlier gates left; otherwise it stops at the first key denied, with its error and the prefix its gate left |
| Authorization.FixedGatePrefix | jwk/handler.go:172-176 | when no gate moves the prefix, every gate runs on that prefix |
| Authorization.WellKnownFirstDenial | jwk/handler.go:166-178 | for a prefix one call makes stable (a fresh handler's "", or a non-empty prefix other than ":" with at most one trailing colon) every key is checked on that stable prefix q; WellKnown's loop passes exactly when every public key passes the two-tier check; a stop means that both the token check and the anonymous check denied `<q>:keys:hydra.openid.id-token:<kid>`, with the anonymous error |
| Authorization.WellKnownGateSettles | jwk/handler.go:136-154 | on a prefix one call makes stable, a key's two-tier gate acts as on that stable prefix and leaves it behind, and a denial is both checks' denial of `<q>:keys:hydra.openid.id-token:<kid>` |
| Authorization.WellKnownStableScan | jwk/handler.go:172-176 | with a stable prefix WellKnown's loop keeps it and passes exactly when every public key passes; a stop means both checks denied the key's resource, with the anonymous error |
| Authorization.WellKnownScanSettles | jwk/handler.go:172-176 | over at least one key, the loop on a prefix one call makes stable is the loop on that stable prefix |
| Decoding.DecodedKeys | jwk/handler.go:426-432 | the key list has one entry per raw key |
| Decoding.DecodedKeysAt | jwk/handler.go:426-432 | the key at `i` is the raw key at `i` when it unmarshalled, and the zero key otherwise |
| Decoding.DecodeStep | jwk/handler.go:426-432 | one more raw key appends its key, and its error too when it failed |
| Decoding.DecodeErrors | jwk/handler.go:426-432 | there are as many error writes as raw keys that failed |
| Decoding.DecodeErrorsFromRaws | jwk/handler.go:426-432 | no error is written exactly when every raw key unmarshals, and every write is the error of a raw key |
| Decoding.NoFailures | jwk/handler.go:428-430 | no failure is counted exactly when every raw key unmarshals |
| Decoding.FailureCount | jwk/handler.go:428-430 | the number of raw keys that fail to unmarshal, at most their number |
| Decoding.DecodeErrorsInOrder | jwk/handler.go:426-432 | the error of the raw key at `i` is the write numbered by the failures before `i`: one write per failure, in the raw keys' order |
| Decoding.EveryFailureReported | jwk/handler.go:428-430 | every raw key that fails to unmarshal has its own error written |
| KeyStore.Manager.GetKey | jwk/handler.go:236 | the call is recorded; the answer is the store's keys with that id, or the fault, or "not found" when the set or the id is missing; a found answer is non-empty and holds only keys with that id |
| KeyStore.Manager.GetKeySet | jwk/handler.go:283 | the call is recorded; the answer is the stored set, or the fault, or "not found" when the set is missing |
| KeyStore.Manager.AddKey | jwk/handler.go:494 | the call is recorded; the key is merged into the set unless the call fails, and the fault is returned |
| KeyStore.Manager.AddKeySet | jwk/handler.go:434 | the call is recorded; the keys are merged into the set unless the call fails, and the fault is returned |
| KeyStore.KeysWithId | jwk/handler.go:236 | the store's key lookup returns exactly the keys of the set with the asked id |
| KeyStore.KeysWithoutId | jwk/handler.go:603 | deleting a key keeps exactly the keys of the set with another id |
| KeyStore.Manager.DeleteKey | jwk/handler.go:603 | a successful delete keeps every set name, removes exactly the keys with that id from the set, and leaves the other sets alone |
| KeyStore.Manager.DeleteKeySet | jwk/handler.go:548 | a successful delete removes exactly that set |
| Jwk.Location | jwk/handler.go:370 | the location of a created set, `<scheme>://<host>/keys/<set>` |
| Jwk.ReadResponse | jwk/handler.go:236-242 | the write GetKey's contract uses for the store's answer: the keys on a successful read, the read error otherwise |
| Jwk.Handler.PrefixResource | jwk/handler.go:44-54 | the field becomes the stripped prefix and the result is the field, ":" and the resource; an empty prefix gives "rn:hydra:"+resource; a stable prefix is kept |
| Jwk.Handler.GetGenerators | jwk/handler.go:56-66 | the field becomes the registry after lazy filling, with exactly the four built-in names when it was empty, and is returned |
| Jwk.Handler.TokenCheck | jwk/handler.go:341-347 | the token check is asked about the name built from the prefix, and the prefix moves one call on |
| Jwk.Handler.TokenOrAnonymous | jwk/handler.go:220-234 | the verdict and the new prefix are those of the two-tier gate |
| Jwk.Handler.GateEachKey | jwk/handler.go:172-176 | the prefix and the verdict after the loop are those of the two-tier scan over the keys: allowed when every key passes, else the first denied key's error |
| Jwk.Handler.WellKnown | jwk/handler.go:133-179 | a failed fetch writes exactly one error: the anonymous error if the "public:" resource is denied, the fetch error otherwise; a failed filter writes its error; otherwise every public key is gated in order, and the first denial is the only write, else the public keys are written; the store is read once and never changed |
| Jwk.Handler.GetKey | jwk/handler.go:215-243 | when both checks deny, only the anonymous error is written and the store is not called; otherwise the store is asked for the key and its keys or its error are written; the store never changes |
| Jwk.Handler.CheckEachKey | jwk/handler.go:289-297 | the prefix and the verdict after the loop are those of the token-check scan over the keys: allowed when every key passes, else the first denied key's error |
| Jwk.Handler.GetKeySet | jwk/handler.go:279-300 | the set is read first; a read error is written alone; otherwise the set is written only if the token check allows every key, else only the first denied key's error; the store never changes |
| Jwk.Handler.GenerateAndStore | jwk/handler.go:353-370 | the registry is filled lazily; an unknown algorithm writes a 400 and makes no store call; a failed generation writes its error and makes no store call; otherwise the generated keys are added and "201 Created" is written unless the store fails |
| Jwk.Handler.Create | jwk/handler.go:336-371 | a denied token check writes its error and changes neither store nor registry; a failed decode is written and the zero request used; an unknown algorithm writes a 400 and makes no store call; a failed generation writes its error and makes no store call; otherwise the generated keys are added to the set and "201 Created" with `<scheme>://<host>/keys/<set>` is written unless the store fails |
| Jwk.Handler.UpdateKeySet | jwk/handler.go:407-440 | a denied check or a failed body decode writes one error and leaves the store alone; otherwise one error per failed key is written, the decoded list (zero keys included) is added to the set, and the list or the store's error is written |
| Jwk.Handler.DecodeKeys | jwk/handler.go:426-432 | the key list built is DecodedKeys of the raw keys, and exactly DecodeErrors of them is appended to the log |
| Jwk.Handler.UpdateKey | jwk/handler.go:476-500 | the body is decoded before any check; the checked resource uses the body's key id; a denial leaves the store alone; otherwise the key is added and written back unless the store fails |
| Jwk.Handler.DeleteKeySet | jwk/handler.go:536-554 | a denied check writes its error and leaves the store alone; otherwise the set is deleted and 204 is written unless the store fails |
| Jwk.Handler.DeleteKey | jwk/handler.go:590-609 | a denied check writes its error and leaves the store alone; otherwise the key is deleted and 204 is written unless the store fails |
| Scenario.KeysByPrefix | jwk/handler.go:166 | a key survives the public-key filter exactly when its id starts with the prefix |
| Scenario.CreateThenFetch | jwk/handler.go:336-371 | an administrator who generates an HS256 key "k1" in "myset" gets "201 Created" at https://hydra.example/keys/myset and then reads that key back |
| Scenario.DeleteThenFetch | jwk/handler.go:590-609 | deleting the only key of a set writes 204, and reading it afterwards gives "not found" while the set stays, empty |
| Scenario.DiscoveryDenied | jwk/handler.go:133-179 | discovery over the keys "public:abc" and "private:abc", by a caller denied "public:abc", writes only that denial and no key |

## Left out

- HTTP transport and routing (`SetRoutes`, `jwk/handler.go:68-80`) are not modelled. A request is the token, scheme and host the handlers read; path parameters are plain strings.
- JSON decoding is not modelled. A decoded body is an input `Ok(value)` or `Err(error)`. A key that fails to unmarshal is the zero key `Key("", "")`, and a request that fails to decode is the zero request with empty algorithm and key id. What a partial decode leaves behind in Go is not captured.
- Key generation is foreign cryptographic code. Generation is a parameter `generate` of `Create`, called with the registered generator and the requested key id.
- `FindKeysByPrefix` is not part of this model. It is a parameter of `WellKnown`; the scenarios use `Scenario.KeysByPrefix` as a stand-in.
- The store is an abstract collaborator. Several of its behaviours are stand-ins:
  - Its merge rule for additions is an uninterpreted function.
  - Whether a call fails is an oracle on the call.
  - A read of a missing set or key id is "not found".
  - A read returns the stored keys by value, so aliasing between returned and stored keys is not captured.
- The firewall's policy engine is not modelled. The token check and the anonymous check are two functions from their arguments to a verdict. `TokenFromRequest` is the request's `token` field.
- Error wrapping (`errors.WithStack`) and the status code the writer picks for an error are not modelled: an error is passed through as a value.
- `context.Background` and concurrent use of the handler's lazily set fields are not modelled; every handler runs sequentially.
- A nil generator map is modelled as the empty map. Both are filled the same way.
- WellKnownFirstDenial: states the closed form with literal resource names only for a prefix that one call makes stable. For the prefix ":" and any prefix ending in "::", which still move between keys, the characterization is the general one of GateScanFirstDenial over GatePrefixAt.
