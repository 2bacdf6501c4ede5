/** The authorization decisions the handlers of jwk/handler.go take before touching the store:
    the two-tier check (token, then anonymous fallback) and the per-key loops that stop at the
    first denial. Each decision also says what the resource prefix field is afterwards, because
    every resource name is built by a call that may rewrite that field. */
module Authorization {
  import opened JwkTypes
  import opened ResourceNaming

  /** A decision together with the prefix field after the calls that produced it. */
  datatype Gate = Gate(check: Check, prefix: string)

  /** The two-tier check on `suffix` (jwk/handler.go:136-154, 220-234): the token check first;
      only if it fails, the check for the anonymous subject "", on a freshly built name. */
  function TwoTier(W: Firewall, token: string, p: string, suffix: string, action: string, scope: string): (g: Gate)
    // the token check alone decides when it passes, and the fallback is then never asked
    ensures W.tokenAllowed(token, Resource(p, suffix), action, scope) == Allowed ==>
      g == Gate(Allowed, NextPrefix(p))
    // when it fails the anonymous check decides, with its own error
    ensures W.tokenAllowed(token, Resource(p, suffix), action, scope).Denied? ==>
      g.check == W.isAllowed("", Resource(NextPrefix(p), suffix), action) && g.prefix == PrefixAfter(p, 2)
    // with a stable prefix both checks are asked about the same resource and the prefix stays
    ensures Stable(p) ==>
      var tok := W.tokenAllowed(token, p + ":" + suffix, action, scope);
      var anon := W.isAllowed("", p + ":" + suffix, action);
      && g.prefix == p
      && (g.check == Allowed <==> tok == Allowed || anon == Allowed)
      && (g.check.Denied? ==> tok.Denied? && g.check == anon)
  {
    var p1 := NextPrefix(p);
    match W.tokenAllowed(token, p1 + ":" + suffix, action, scope)
    case Allowed => Gate(Allowed, p1)
    case Denied(_) =>
      var p2 := NextPrefix(p1);
      Gate(W.isAllowed("", p2 + ":" + suffix, action), p2)
  }

  /** The outcome of a loop over the keys of a set that stops at the first denial: every key
      passed, or the loop stopped at `index` with that key's error. `prefix` is the prefix field
      when the loop is left. */
  datatype Scan = Passed(prefix: string) | Stopped(index: nat, error: Error, prefix: string)

  /** A scan result seen from `i` keys earlier in the same loop. */
  function Shift(s: Scan, i: nat): Scan {
    match s
    case Passed(q) => Passed(q)
    case Stopped(j, e, q) => Stopped(j + i, e, q)
  }

  /** The token check GetKeySet runs for one key, given the prefix field before the call that
      names the key's resource. */
  function GetKeySetCheck(W: Firewall, token: string, setName: string): (string, Key) -> Check {
    (q: string, key: Key) => W.tokenAllowed(token, Resource(q, KeyResource(setName, key.kid)), "get", "hydra.keys.get")
  }

  /** The verdict of the per-key check for the key at `i`, after `i` earlier calls on the prefix. */
  function VerdictAt(verdict: (string, Key) -> Check, p: string, keys: seq<Key>, i: nat): Check
    requires i < |keys|
  {
    verdict(PrefixAfter(p, i), keys[i])
  }

  /** A loop that runs one check per key, in order, each check naming its resource with one call
      on the prefix, and stops at the first check that fails: GetKeySet's loop
      (jwk/handler.go:289-297) with `verdict` = GetKeySetCheck. */
  function TokenScan(verdict: (string, Key) -> Check, p: string, keys: seq<Key>): (s: Scan)
    ensures s.Stopped? ==> s.index < |keys|
    decreases |keys|
  {
    if keys == [] then Passed(p)
    else
      match verdict(p, keys[0])
      case Denied(e) => Stopped(0, e, NextPrefix(p))
      case Allowed => Shift(TokenScan(verdict, NextPrefix(p), keys[1..]), 1)
  }

  /** The loop passes exactly when every key's check passes; otherwise it stops at the first key
      whose check fails, with that key's error, after one call on the prefix per key checked. */
  lemma {:induction false} TokenScanFirstDenial(verdict: (string, Key) -> Check, p: string, keys: seq<Key>)
    ensures var s := TokenScan(verdict, p, keys);
      && (s.Passed? <==> forall i :: 0 <= i < |keys| ==> VerdictAt(verdict, p, keys, i) == Allowed)
      && (s.Stopped? ==>
        && (forall i :: 0 <= i < s.index ==> VerdictAt(verdict, p, keys, i) == Allowed)
        && VerdictAt(verdict, p, keys, s.index) == Denied(s.error))
      && s.prefix == PrefixAfter(p, if s.Passed? then |keys| else s.index + 1)
    decreases |keys|
  {
    if keys != [] && verdict(p, keys[0]) == Allowed {
      var q := NextPrefix(p);
      TokenScanFirstDenial(verdict, q, keys[1..]);
      assert VerdictAt(verdict, p, keys, 0) == Allowed;
      forall i | 1 <= i < |keys|
        ensures VerdictAt(verdict, q, keys[1..], i - 1) == VerdictAt(verdict, p, keys, i)
      {
        VerdictAtShift(verdict, p, keys, i);
      }
      if forall i :: 0 <= i < |keys| ==> VerdictAt(verdict, p, keys, i) == Allowed {
        forall i | 0 <= i < |keys| - 1
          ensures VerdictAt(verdict, q, keys[1..], i) == Allowed
        {
          assert VerdictAt(verdict, p, keys, i + 1) == Allowed;
        }
      }
    } else if keys != [] {
      assert VerdictAt(verdict, p, keys, 0) == verdict(p, keys[0]);
    }
  }

  /** The check of the key at `i` is the check of the key at `i - 1` of the rest of the keys, after
      one call on the prefix. */
  lemma VerdictAtShift(verdict: (string, Key) -> Check, p: string, keys: seq<Key>, i: nat)
    requires 1 <= i < |keys|
    ensures VerdictAt(verdict, NextPrefix(p), keys[1..], i - 1) == VerdictAt(verdict, p, keys, i)
  {
    assert PrefixAfter(p, i) == PrefixAfter(NextPrefix(p), i - 1);
  }

  /** GetKeySet's loop with a stable prefix: the prefix stays, and the loop passes exactly when the
      token check allows `<prefix>:keys:<set>:<kid>` for every key; otherwise it stops at the first
      key denied, with the token check's error. */
  lemma GetKeySetFirstDenial(W: Firewall, token: string, p: string, setName: string, keys: seq<Key>)
    requires Stable(p)
    ensures var s := TokenScan(GetKeySetCheck(W, token, setName), p, keys);
      && s.prefix == p
      && (s.Passed? <==> forall i :: 0 <= i < |keys| ==>
            W.tokenAllowed(token, p + ":" + KeyResource(setName, keys[i].kid), "get", "hydra.keys.get") == Allowed)
      && (s.Stopped? ==>
        && (forall i :: 0 <= i < s.index ==>
              W.tokenAllowed(token, p + ":" + KeyResource(setName, keys[i].kid), "get", "hydra.keys.get") == Allowed)
        && W.tokenAllowed(token, p + ":" + KeyResource(setName, keys[s.index].kid), "get", "hydra.keys.get") == Denied(s.error))
  {
    var verdict := GetKeySetCheck(W, token, setName);
    TokenScanFirstDenial(verdict, p, keys);
    forall i | 0 <= i < |keys|
      ensures VerdictAt(verdict, p, keys, i) ==
        W.tokenAllowed(token, p + ":" + KeyResource(setName, keys[i].kid), "get", "hydra.keys.get")
    {
      StableStaysFixed(p, i);
      ResourceShape(p, KeyResource(setName, keys[i].kid));
    }
    var s := TokenScan(verdict, p, keys);
    StableStaysFixed(p, if s.Passed? then |keys| else s.index + 1);
  }

  /** The two-tier check WellKnown runs for one public key of the ID-token set, given the prefix
      field before it. */
  function WellKnownGate(W: Firewall, token: string): (string, Key) -> Gate {
    (q: string, key: Key) => TwoTier(W, token, q, KeyResource(IDTokenKeyName, key.kid), "get", "hydra.keys.get")
  }

  /** A loop that runs one gate per key, in order, threading the prefix field from gate to gate,
      and stops at the first gate that denies: WellKnown's loop (jwk/handler.go:172-176) with
      `gate` = WellKnownGate. */
  function GateScan(gate: (string, Key) -> Gate, p: string, keys: seq<Key>): (s: Scan)
    ensures s.Stopped? ==> s.index < |keys|
    decreases |keys|
  {
    if keys == [] then Passed(p)
    else
      var g := gate(p, keys[0]);
      match g.check
      case Denied(e) => Stopped(0, e, g.prefix)
      case Allowed => Shift(GateScan(gate, g.prefix, keys[1..]), 1)
  }

  /** The prefix field when the gate for the key at `i` runs: each earlier gate passes on the
      prefix it leaves behind. */
  function GatePrefixAt(gate: (string, Key) -> Gate, p: string, keys: seq<Key>, i: nat): string
    requires i <= |keys|
    decreases i
  {
    if i == 0 then p else GatePrefixAt(gate, gate(p, keys[0]).prefix, keys[1..], i - 1)
  }

  /** The gate for the key at `i`, run on the prefix the earlier gates left. */
  function GateAt(gate: (string, Key) -> Gate, p: string, keys: seq<Key>, i: nat): Gate
    requires i < |keys|
  {
    gate(GatePrefixAt(gate, p, keys, i), keys[i])
  }

  /** For any prefix, the loop passes exactly when every key's gate allows on the prefix threaded
      through the earlier gates; otherwise it stops at the first key denied, with that key's error,
      and the prefix is the one that key's gate left. */
  lemma {:induction false} GateScanFirstDenial(gate: (string, Key) -> Gate, p: string, keys: seq<Key>)
    ensures var s := GateScan(gate, p, keys);
      && (s.Passed? <==> forall i :: 0 <= i < |keys| ==> GateAt(gate, p, keys, i).check == Allowed)
      && (s.Passed? ==> s.prefix == GatePrefixAt(gate, p, keys, |keys|))
      && (s.Stopped? ==>
        && (forall i :: 0 <= i < s.index ==> GateAt(gate, p, keys, i).check == Allowed)
        && GateAt(gate, p, keys, s.index).check == Denied(s.error)
        && s.prefix == GateAt(gate, p, keys, s.index).prefix)
    decreases |keys|
  {
    if keys != [] {
      var g := gate(p, keys[0]);
      assert GateAt(gate, p, keys, 0) == g;
      if g.check == Allowed {
        var q := g.prefix;
        GateScanFirstDenial(gate, q, keys[1..]);
        forall i | 1 <= i < |keys|
          ensures GateAt(gate, q, keys[1..], i - 1) == GateAt(gate, p, keys, i)
        {
          assert GatePrefixAt(gate, p, keys, i) == GatePrefixAt(gate, q, keys[1..], i - 1);
          assert keys[1..][i - 1] == keys[i];
        }
        assert GatePrefixAt(gate, p, keys, |keys|) == GatePrefixAt(gate, q, keys[1..], |keys| - 1);
        if forall i :: 0 <= i < |keys| ==> GateAt(gate, p, keys, i).check == Allowed {
          forall i | 0 <= i < |keys| - 1
            ensures GateAt(gate, q, keys[1..], i).check == Allowed
          {
            assert GateAt(gate, p, keys, i + 1).check == Allowed;
          }
        }
      }
    }
  }

  /** When no gate moves the prefix, every gate runs on that prefix. */
  lemma {:induction false} FixedGatePrefix(gate: (string, Key) -> Gate, p: string, keys: seq<Key>, i: nat)
    requires forall k :: gate(p, k).prefix == p
    requires i <= |keys|
    ensures GatePrefixAt(gate, p, keys, i) == p
    decreases i
  {
    if i > 0 {
      assert gate(p, keys[0]).prefix == p;
      FixedGatePrefix(gate, p, keys[1..], i - 1);
    }
  }

  /** The gate of one public key on a prefix that one call makes stable: it acts as on the stable
      prefix, leaves that prefix behind, and a denial is both checks' denial of the key's resource. */
  lemma WellKnownGateSettles(W: Firewall, token: string, p: string, k: Key)
    requires Stable(NextPrefix(p))
    ensures var q := NextPrefix(p);
      var g := WellKnownGate(W, token)(q, k);
      var resource := q + ":" + KeyResource(IDTokenKeyName, k.kid);
      && WellKnownGate(W, token)(p, k) == g
      && g.prefix == q
      && (g.check.Denied? ==>
           W.tokenAllowed(token, resource, "get", "hydra.keys.get").Denied? && W.isAllowed("", resource, "get") == g.check)
  {
    var q := NextPrefix(p);
    var suffix := KeyResource(IDTokenKeyName, k.kid);
    assert NextPrefix(q) == q;
    assert WellKnownGate(W, token)(p, k) == TwoTier(W, token, p, suffix, "get", "hydra.keys.get");
    assert WellKnownGate(W, token)(q, k) == TwoTier(W, token, q, suffix, "get", "hydra.keys.get");
  }

  /** WellKnown's loop on a stable prefix: the prefix stays, and the loop passes exactly when every
      public key passes the two-tier check; otherwise it stops at the first key that both the token
      check and the anonymous check deny, with the anonymous check's error. */
  lemma WellKnownStableScan(W: Firewall, token: string, q: string, keys: seq<Key>)
    requires Stable(q)
    ensures var s := GateScan(WellKnownGate(W, token), q, keys);
      && s.prefix == q
      && (s.Passed? <==> forall i :: 0 <= i < |keys| ==> WellKnownGate(W, token)(q, keys[i]).check == Allowed)
      && (s.Stopped? ==>
        && (forall i :: 0 <= i < s.index ==> WellKnownGate(W, token)(q, keys[i]).check == Allowed)
        && var resource := q + ":" + KeyResource(IDTokenKeyName, keys[s.index].kid);
           && W.tokenAllowed(token, resource, "get", "hydra.keys.get").Denied?
           && W.isAllowed("", resource, "get") == Denied(s.error))
  {
    var gate := WellKnownGate(W, token);
    forall k
      ensures gate(q, k).prefix == q
    {
      WellKnownGateSettles(W, token, q, k);
    }
    GateScanFirstDenial(gate, q, keys);
    forall i | 0 <= i <= |keys|
      ensures GatePrefixAt(gate, q, keys, i) == q
    {
      FixedGatePrefix(gate, q, keys, i);
    }
    var s := GateScan(gate, q, keys);
    if s.Stopped? {
      assert GateAt(gate, q, keys, s.index) == gate(q, keys[s.index]);
      WellKnownGateSettles(W, token, q, keys[s.index]);
    }
  }

  /** A prefix that one call makes stable gives, over at least one key, the same loop as that
      stable prefix. */
  lemma WellKnownScanSettles(W: Firewall, token: string, p: string, keys: seq<Key>)
    requires Stable(NextPrefix(p))
    requires keys != []
    ensures GateScan(WellKnownGate(W, token), p, keys) == GateScan(WellKnownGate(W, token), NextPrefix(p), keys)
  {
    WellKnownGateSettles(W, token, p, keys[0]);
  }

  /** WellKnown's loop on a prefix that one call makes stable: a fresh handler's empty prefix, a
      configured prefix, or one with a single trailing colon. All keys are checked on that stable
      prefix, which the loop leaves behind unless there is no key. The loop passes exactly when
      every public key passes the two-tier check; otherwise it stops at the first key that both the
      token check and the anonymous check deny, with the anonymous check's error. */
  lemma WellKnownFirstDenial(W: Firewall, token: string, p: string, keys: seq<Key>)
    requires Stable(NextPrefix(p))
    ensures var q := NextPrefix(p);
      var s := GateScan(WellKnownGate(W, token), p, keys);
      && s.prefix == (if keys == [] then p else q)
      && (s.Passed? <==> forall i :: 0 <= i < |keys| ==> WellKnownGate(W, token)(q, keys[i]).check == Allowed)
      && (s.Stopped? ==>
        && (forall i :: 0 <= i < s.index ==> WellKnownGate(W, token)(q, keys[i]).check == Allowed)
        && var resource := q + ":" + KeyResource(IDTokenKeyName, keys[s.index].kid);
           && W.tokenAllowed(token, resource, "get", "hydra.keys.get").Denied?
           && W.isAllowed("", resource, "get") == Denied(s.error))
  {
    if keys != [] {
      WellKnownScanSettles(W, token, p, keys);
      WellKnownStableScan(W, token, NextPrefix(p), keys);
    }
  }
}
