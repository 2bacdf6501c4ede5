/** What UpdateKeySet makes of the raw keys in its request body (jwk/handler.go:426-432): each raw
    key is unmarshalled on its own; a key that fails is reported and STILL appended, as the zero key. */
module Decoding {
  import opened JwkTypes

  /** One unmarshalled key, or the zero key when unmarshalling failed. */
  function KeyOrEmpty(raw: Result<Key>): Key {
    match raw
    case Ok(k) => k
    case Err(_) => EmptyKey
  }

  /** The key list UpdateKeySet builds: one entry per raw key, in order (see DecodedKeysAt). */
  function DecodedKeys(raws: seq<Result<Key>>): (keys: seq<Key>)
    ensures |keys| == |raws|
    decreases |raws|
  {
    if raws == [] then [] else DecodedKeys(raws[..|raws| - 1]) + [KeyOrEmpty(raws[|raws| - 1])]
  }

  /** How many raw keys failed to unmarshal. */
  function FailureCount(raws: seq<Result<Key>>): (n: nat)
    ensures n <= |raws|
    decreases |raws|
  {
    if raws == [] then 0
    else FailureCount(raws[..|raws| - 1]) + (if raws[|raws| - 1].Err? then 1 else 0)
  }

  /** The error writes UpdateKeySet makes while building the list: one per raw key that failed
      (see DecodeErrorsInOrder). */
  function DecodeErrors(raws: seq<Result<Key>>): (written: seq<Response>)
    ensures |written| == FailureCount(raws)
    decreases |raws|
  {
    if raws == [] then []
    else
      var last := raws[|raws| - 1];
      DecodeErrors(raws[..|raws| - 1]) + (if last.Err? then [WriteError(last.error)] else [])
  }

  /** One more raw key: its key is appended, and its error too when it failed. */
  lemma DecodeStep(raws: seq<Result<Key>>, i: nat)
    requires i < |raws|
    ensures DecodedKeys(raws[..i + 1]) == DecodedKeys(raws[..i]) + [KeyOrEmpty(raws[i])]
    ensures DecodeErrors(raws[..i + 1]) ==
      DecodeErrors(raws[..i]) + (if raws[i].Err? then [WriteError(raws[i].error)] else [])
  {
    assert raws[..i + 1][..i] == raws[..i];
  }

  /** The key at `i` is the raw key at `i` when it unmarshalled, and the zero key otherwise. */
  lemma {:induction false} DecodedKeysAt(raws: seq<Result<Key>>)
    ensures forall i :: 0 <= i < |raws| ==>
      DecodedKeys(raws)[i] == if raws[i].Ok? then raws[i].value else EmptyKey
    decreases |raws|
  {
    if raws != [] {
      var init := raws[..|raws| - 1];
      DecodedKeysAt(init);
      forall i | 0 <= i < |raws| - 1
        ensures DecodedKeys(raws)[i] == if raws[i].Ok? then raws[i].value else EmptyKey
      {
        assert init[i] == raws[i];
      }
    }
  }

  /** No raw key failed exactly when none is counted. */
  lemma {:induction false} NoFailures(raws: seq<Result<Key>>)
    ensures FailureCount(raws) == 0 <==> forall i :: 0 <= i < |raws| ==> raws[i].Ok?
    decreases |raws|
  {
    if raws != [] {
      var init := raws[..|raws| - 1];
      NoFailures(init);
      if forall i :: 0 <= i < |raws| ==> raws[i].Ok? {
        assert forall i :: 0 <= i < |init| ==> init[i] == raws[i];
      } else if FailureCount(raws) == 0 {
        assert forall i :: 0 <= i < |init| ==> init[i] == raws[i];
        assert raws[|raws| - 1].Ok?;
      }
    }
  }

  /** Nothing is written exactly when every raw key unmarshals, and every write is the error of a
      raw key. */
  lemma {:induction false} DecodeErrorsFromRaws(raws: seq<Result<Key>>)
    ensures DecodeErrors(raws) == [] <==> forall i :: 0 <= i < |raws| ==> raws[i].Ok?
    ensures forall j :: 0 <= j < |DecodeErrors(raws)| ==>
      DecodeErrors(raws)[j].WriteError? && Err(DecodeErrors(raws)[j].error) in raws
    decreases |raws|
  {
    NoFailures(raws);
    if raws != [] {
      var init := raws[..|raws| - 1];
      DecodeErrorsFromRaws(init);
      assert forall r :: r in init ==> r in raws;
    }
  }

  /** Exactly one error is written per raw key that failed, in the order of the raw keys: the
      failure at `i` is the write numbered by the failures before it. */
  lemma {:induction false} DecodeErrorsInOrder(raws: seq<Result<Key>>)
    ensures forall i :: 0 <= i < |raws| && raws[i].Err? ==>
      && FailureCount(raws[..i]) < |DecodeErrors(raws)|
      && DecodeErrors(raws)[FailureCount(raws[..i])] == WriteError(raws[i].error)
    decreases |raws|
  {
    if raws != [] {
      var init := raws[..|raws| - 1];
      DecodeErrorsInOrder(init);
      forall i | 0 <= i < |raws| && raws[i].Err?
        ensures FailureCount(raws[..i]) < |DecodeErrors(raws)|
        ensures DecodeErrors(raws)[FailureCount(raws[..i])] == WriteError(raws[i].error)
      {
        if i < |raws| - 1 {
          assert init[..i] == raws[..i];
          assert init[i] == raws[i];
        } else {
          assert raws[..i] == init;
        }
      }
    }
  }

  /** Every raw key that failed has its own error among the writes. */
  lemma EveryFailureReported(raws: seq<Result<Key>>)
    ensures forall i :: 0 <= i < |raws| && raws[i].Err? ==> WriteError(raws[i].error) in DecodeErrors(raws)
  {
    DecodeErrorsInOrder(raws);
  }
}
