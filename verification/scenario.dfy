/** Clients of the handler that use only its contracts: the create / fetch / delete / fetch round of
    an authorized administrator, and discovery of the ID-token keys by a caller who is denied the
    public key. */
module Scenario {
  import opened JwkTypes
  import opened KeyStore
  import opened Jwk

  /** The keys whose id starts with `prefix`, in order: a stand-in for the store's key filter. */
  function KeysByPrefix(keys: seq<Key>, prefix: string): (r: seq<Key>)
    ensures forall k :: k in r <==> k in keys && prefix <= k.kid
    decreases |keys|
  {
    if keys == [] then []
    else (if prefix <= keys[0].kid then [keys[0]] else []) + KeysByPrefix(keys[1..], prefix)
  }

  /** A firewall whose token check allows everything and whose anonymous check allows nothing. */
  function AdminFirewall(): Firewall {
    Firewall(
      (token, resource, action, scope) => Allowed,
      (subject, resource, action) => Denied(Failure("anonymous access denied")))
  }

  /** The merge rule the scenarios' store uses: append. */
  function Append(current: seq<Key>, added: seq<Key>): seq<Key> {
    current + added
  }

  /** Where a set "myset" created over https on hydra.example lives. */
  lemma AdminLocation()
    ensures Location(Request("admin-token", "https", "hydra.example"), "myset") == "https://hydra.example/keys/myset"
  {
  }

  /** An administrator generates an HS256 key "k1" in the new set "myset" and reads it back. */
  method CreateThenFetch() returns (written: seq<Response>, stored: map<string, seq<Key>>)
    ensures written == [
      WriteCreated("https://hydra.example/keys/myset", [Key("k1", "HS256")]),
      WriteKeySet([Key("k1", "HS256")])]
    ensures stored == map["myset" := [Key("k1", "HS256")]]
  {
    var store := new Manager(map[], _ => None, Append);
    var h := new Handler(store, map[], AdminFirewall(), "");
    var r := Request("admin-token", "https", "hydra.example");
    var k1 := Key("k1", "HS256");
    var hs256 := (g: KeyGenerator, kid: string) => Ok([Key(kid, "HS256")]);

    assert store.Merge([], [k1]) == [k1];
    assert store.Written(AddKeySetCall("myset", [k1])) == map["myset" := [k1]];
    h.Create(r, Params("myset", ""), Ok(CreateRequest("HS256", "k1")), hs256);
    assert "HS256" in h.Generators;
    assert h.Log == [WriteCreated(Location(r, "myset"), [k1])];
    assert store.Sets == map["myset" := [k1]];

    assert KeysWithId([k1], "k1") == [k1];
    assert store.Read(GetKeyCall("myset", "k1")) == Ok([k1]);
    h.GetKey(r, Params("myset", "k1"));
    assert h.Log == [WriteCreated(Location(r, "myset"), [k1]), WriteKeySet([k1])];
    AdminLocation();
    written := h.Log;
    stored := store.Sets;
  }

  /** An administrator deletes the only key "k1" of "myset" and then reads NotFound for it; the
      set itself stays, empty. */
  method DeleteThenFetch() returns (written: seq<Response>, stored: map<string, seq<Key>>)
    ensures written == [WriteHeader(StatusNoContent), WriteError(NotFound)]
    ensures stored == map["myset" := []]
  {
    var k1 := Key("k1", "HS256");
    var store := new Manager(map["myset" := [k1]], _ => None, Append);
    var h := new Handler(store, map[], AdminFirewall(), "rn:hydra");
    var r := Request("admin-token", "https", "hydra.example");

    assert KeysWithoutId([k1], "k1") == [];
    assert store.Fault(DeleteKeyCall("myset", "k1")) == None;
    assert store.Written(DeleteKeyCall("myset", "k1")) == map["myset" := []];
    h.DeleteKey(r, Params("myset", "k1"));

    assert store.Read(GetKeyCall("myset", "k1")) == Err(NotFound);
    h.GetKey(r, Params("myset", "k1"));
    written := h.Log;
    stored := store.Sets;
  }

  /** The ID-token set holds "public:abc" and "private:abc". A caller whose token is rejected and
      whose anonymous access to "public:abc" is denied gets exactly that denial and no key. */
  method DiscoveryDenied() returns (written: seq<Response>)
    ensures written == [WriteError(Failure("no public access"))]
  {
    var idTokenKeys := [Key("public:abc", "RS256 public"), Key("private:abc", "RS256 private")];
    var store := new Manager(map[IDTokenKeyName := idTokenKeys], _ => None, (current: seq<Key>, added: seq<Key>) => current + added);
    var firewall := Firewall(
      (token, resource, action, scope) => Denied(Failure("token rejected")),
      (subject, resource, action) => Denied(Failure("no public access")));
    var h := new Handler(store, map[], firewall, "");
    assert "public" <= "public:abc";
    assert "private:abc"[1] != "public"[1];
    assert KeysByPrefix(idTokenKeys, "public") == [Key("public:abc", "RS256 public")];
    h.WellKnown(Request("", "https", "hydra.example"),
                (keys: seq<Key>, prefix: string) => Ok(KeysByPrefix(keys, prefix)));
    written := h.Log;
  }
}
