/** The key store the handlers call (the `Manager` interface of package jwk). Its implementations are
    not part of this model: here it is a map from set name to key list, a trace of the calls made
    to it, an oracle saying which calls fail, and an uninterpreted merge rule for the two add
    operations. A failing call changes nothing. */
module KeyStore {
  import opened JwkTypes

  /** One call into the store, with its arguments. */
  datatype StoreCall =
    | GetKeyCall(setName: string, kid: string)
    | GetKeySetCall(setName: string)
    | AddKeyCall(setName: string, key: Key)
    | AddKeySetCall(setName: string, keys: seq<Key>)
    | DeleteKeyCall(setName: string, kid: string)
    | DeleteKeySetCall(setName: string)

  /** The keys of `keys` whose id is `kid`, in order. */
  function KeysWithId(keys: seq<Key>, kid: string): (r: seq<Key>)
    ensures forall k :: k in r <==> k in keys && k.kid == kid
    decreases |keys|
  {
    if keys == [] then []
    else (if keys[0].kid == kid then [keys[0]] else []) + KeysWithId(keys[1..], kid)
  }

  /** The keys of `keys` whose id is not `kid`, in order. */
  function KeysWithoutId(keys: seq<Key>, kid: string): (r: seq<Key>)
    ensures forall k :: k in r <==> k in keys && k.kid != kid
    decreases |keys|
  {
    if keys == [] then []
    else (if keys[0].kid != kid then [keys[0]] else []) + KeysWithoutId(keys[1..], kid)
  }

  class Manager {
    /** The stored key sets. */
    var Sets: map<string, seq<Key>>
    /** Every call made to the store, oldest first. */
    var Calls: seq<StoreCall>
    /** Which calls fail, and with what error. */
    const Fault: StoreCall -> Option<Error>
    /** How the store merges added keys into a set's current keys. */
    const Merge: (seq<Key>, seq<Key>) -> seq<Key>

    constructor (sets: map<string, seq<Key>>, fault: StoreCall -> Option<Error>, merge: (seq<Key>, seq<Key>) -> seq<Key>)
      ensures Sets == sets && Calls == [] && Fault == fault && Merge == merge
    {
      Sets := sets;
      Calls := [];
      Fault := fault;
      Merge := merge;
    }

    /** The answer to a read: the fault if the call fails, otherwise the set (or the keys of the
        set with the asked id), or NotFound when there is none. */
    function Read(call: StoreCall): Result<seq<Key>>
      requires call.GetKeyCall? || call.GetKeySetCall?
      reads this`Sets
    {
      match Fault(call)
      case Some(e) => Err(e)
      case None =>
        if call.setName !in Sets then Err(NotFound)
        else if call.GetKeySetCall? then Ok(Sets[call.setName])
        else
          var found := KeysWithId(Sets[call.setName], call.kid);
          if found == [] then Err(NotFound) else Ok(found)
    }

    /** The stored sets after a write: unchanged if the call fails, otherwise merged into, or with
        the set or the key removed. */
    function Written(call: StoreCall): map<string, seq<Key>>
      requires !(call.GetKeyCall? || call.GetKeySetCall?)
      reads this`Sets
    {
      if Fault(call).Some? then Sets
      else
        var current := if call.setName in Sets then Sets[call.setName] else [];
        match call
        case AddKeyCall(s, key) => Sets[s := Merge(current, [key])]
        case AddKeySetCall(s, keys) => Sets[s := Merge(current, keys)]
        case DeleteKeyCall(s, kid) => if s in Sets then Sets[s := KeysWithoutId(current, kid)] else Sets
        case DeleteKeySetCall(s) => Sets - {s}
    }

    method GetKey(setName: string, kid: string) returns (r: Result<seq<Key>>)
      modifies this`Calls
      ensures Calls == old(Calls) + [GetKeyCall(setName, kid)]
      ensures r == Read(GetKeyCall(setName, kid))
      ensures r.Ok? ==> r.value != [] && forall k :: k in r.value ==> k.kid == kid
    {
      Calls := Calls + [GetKeyCall(setName, kid)];
      r := Read(GetKeyCall(setName, kid));
    }

    method GetKeySet(setName: string) returns (r: Result<seq<Key>>)
      modifies this`Calls
      ensures Calls == old(Calls) + [GetKeySetCall(setName)]
      ensures r == Read(GetKeySetCall(setName))
    {
      Calls := Calls + [GetKeySetCall(setName)];
      r := Read(GetKeySetCall(setName));
    }

    method AddKey(setName: string, key: Key) returns (err: Option<Error>)
      modifies this
      ensures Calls == old(Calls) + [AddKeyCall(setName, key)]
      ensures Sets == old(Written(AddKeyCall(setName, key)))
      ensures err == Fault(AddKeyCall(setName, key))
    {
      var call := AddKeyCall(setName, key);
      Sets := Written(call);
      Calls := Calls + [call];
      err := Fault(call);
    }

    method AddKeySet(setName: string, keys: seq<Key>) returns (err: Option<Error>)
      modifies this
      ensures Calls == old(Calls) + [AddKeySetCall(setName, keys)]
      ensures Sets == old(Written(AddKeySetCall(setName, keys)))
      ensures err == Fault(AddKeySetCall(setName, keys))
    {
      var call := AddKeySetCall(setName, keys);
      Sets := Written(call);
      Calls := Calls + [call];
      err := Fault(call);
    }

    method DeleteKey(setName: string, kid: string) returns (err: Option<Error>)
      modifies this
      ensures Calls == old(Calls) + [DeleteKeyCall(setName, kid)]
      ensures Sets == old(Written(DeleteKeyCall(setName, kid)))
      ensures err == Fault(DeleteKeyCall(setName, kid))
      // a successful delete removes the key's id from its set and touches nothing else
      ensures err.None? ==> Sets.Keys == old(Sets.Keys)
      ensures err.None? && setName in Sets ==>
        forall k :: k in Sets[setName] <==> k in old(Sets[setName]) && k.kid != kid
      ensures forall s :: s in Sets && s != setName ==> s in old(Sets) && Sets[s] == old(Sets[s])
    {
      var call := DeleteKeyCall(setName, kid);
      Sets := Written(call);
      Calls := Calls + [call];
      err := Fault(call);
    }

    method DeleteKeySet(setName: string) returns (err: Option<Error>)
      modifies this
      ensures Calls == old(Calls) + [DeleteKeySetCall(setName)]
      ensures Sets == old(Written(DeleteKeySetCall(setName)))
      ensures err == Fault(DeleteKeySetCall(setName))
      ensures err.None? ==> Sets == old(Sets) - {setName}
    {
      var call := DeleteKeySetCall(setName);
      Sets := Written(call);
      Calls := Calls + [call];
      err := Fault(call);
    }
  }
}
