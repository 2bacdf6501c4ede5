/** Resource naming (jwk/handler.go:44-54): every policy resource is the handler's prefix, a colon
    and an operation-specific suffix. The prefix is defaulted lazily and loses ONE trailing colon per
    call, and each call writes the stripped prefix back to the handler. */
module ResourceNaming {
  import opened JwkTypes

  /** A prefix that a call leaves as it is: non-empty and not ending in a colon. */
  predicate Stable(p: string) {
    p != "" && p[|p| - 1] != ':'
  }

  /** The value of the prefix field after one call, given its value before. */
  function NextPrefix(p: string): (q: string)
    ensures p == "" ==> q == DefaultResourcePrefix
    ensures p != "" && p[|p| - 1] == ':' ==> q + [':'] == p
    ensures Stable(p) ==> q == p
  {
    var d := if p == "" then DefaultResourcePrefix else p;
    if d[|d| - 1] == ':' then d[..|d| - 1] else d
  }

  /** The resource name a call returns, given the prefix field before the call. */
  function Resource(p: string, suffix: string): string {
    NextPrefix(p) + ":" + suffix
  }

  /** The three shapes of a resource name: the default prefix, the configured prefix as it is, or
      the configured prefix whose one trailing colon stands for the separator. */
  lemma ResourceShape(p: string, suffix: string)
    ensures p == "" ==> Resource(p, suffix) == "rn:hydra:" + suffix
    ensures Stable(p) ==> Resource(p, suffix) == p + ":" + suffix
    ensures p != "" && p[|p| - 1] == ':' ==> Resource(p, suffix) == p + suffix
  {
    if p != "" && p[|p| - 1] == ':' {
      assert NextPrefix(p) + [':'] == p;
    }
  }

  /** The prefix field after `n` calls. */
  function PrefixAfter(p: string, n: nat): string
    decreases n
  {
    if n == 0 then p else PrefixAfter(NextPrefix(p), n - 1)
  }

  /** The suffix naming a set: `keys:<set>`. */
  function SetResource(setName: string): string {
    "keys:" + setName
  }

  /** The suffix naming one key of a set: `keys:<set>:<kid>`. */
  function KeyResource(setName: string, kid: string): string {
    "keys:" + setName + ":" + kid
  }

  /** Counting calls from the far end: one more call is one more step. */
  lemma {:induction false} PrefixAfterStep(p: string, n: nat)
    ensures PrefixAfter(p, n + 1) == NextPrefix(PrefixAfter(p, n))
    decreases n
  {
    if n > 0 {
      PrefixAfterStep(NextPrefix(p), n - 1);
    }
  }

  /** Once the prefix is stable no call changes it. */
  lemma {:induction false} StableStaysFixed(p: string, n: nat)
    requires Stable(p)
    ensures PrefixAfter(p, n) == p
    decreases n
  {
    if n > 0 {
      StableStaysFixed(NextPrefix(p), n - 1);
    }
  }

  /** Any configured prefix becomes stable after at most one call per character plus one:
      each call strips one colon, and a prefix stripped to nothing is defaulted. */
  lemma {:induction false} EventuallyStable(p: string)
    ensures Stable(PrefixAfter(p, |p| + 1))
    decreases |p|
  {
    if p == "" {
      assert PrefixAfter(p, 1) == NextPrefix(p) == DefaultResourcePrefix;
    } else if p[|p| - 1] != ':' {
      StableStaysFixed(p, |p| + 1);
    } else {
      var q := NextPrefix(p);
      assert |q| == |p| - 1;
      EventuallyStable(q);
      // one call more than q needs keeps it stable
      StableStaysFixed(PrefixAfter(q, |q| + 1), 1);
      PrefixAfterStep(q, |q| + 1);
    }
  }

  /** Two consecutive calls return names built from the same prefix exactly when the configured
      prefix is neither ":" nor ends in "::". For those prefixes the name drifts between calls. */
  lemma RepeatedCallsAgree(p: string)
    ensures NextPrefix(NextPrefix(p)) == NextPrefix(p) <==> !(p == ":" || (|p| >= 2 && p[|p| - 2..] == "::"))
  {
    var q := NextPrefix(p);
    if p == ":" {
      assert q == "";
      assert NextPrefix(q) == DefaultResourcePrefix;
    } else if |p| >= 2 && p[|p| - 2..] == "::" {
      assert q[|q| - 1] == p[|p| - 2] == ':';
      assert |NextPrefix(q)| == |q| - 1;
    } else if p != "" && p[|p| - 1] == ':' {
      assert q[|q| - 1] == p[|p| - 2];
      assert Stable(q);
    }
  }

  /** A concrete drift: with the prefix "rn:hydra::" the first call names "rn:hydra::keys:a" and
      the next names "rn:hydra:keys:a", so a token check and its anonymous fallback can be asked
      about different resources. */
  lemma DoubleColonDrifts()
    ensures Resource("rn:hydra::", "keys:a") == "rn:hydra::keys:a"
    ensures Resource(NextPrefix("rn:hydra::"), "keys:a") == "rn:hydra:keys:a"
  {
    ResourceShape("rn:hydra::", "keys:a");
    assert NextPrefix("rn:hydra::") == "rn:hydra:";
    ResourceShape("rn:hydra:", "keys:a");
  }
}
