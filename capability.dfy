/**
 * Capability probing: which functions a contract handle exposes, and which of
 * several candidate signatures implements a logical operation.
 *
 * The exposed list is `Object.keys(contract.functions)`, the full signatures
 * (and, in ethers, the bare names) that the contract's ABI declares.
 */
module Capability {
  import opened Wrappers

  /** `s.startsWith(p)` */
  predicate StartsWith(s: string, p: string) {
    |p| <= |s| && s[..|p|] == p
  }

  /** `fns.some(s => s.startsWith(p))`: the `has` helper of most scripts. */
  predicate Exposes(fns: seq<string>, p: string) {
    exists i :: 0 <= i < |fns| && StartsWith(fns[i], p)
  }

  /** `fns.includes(sig) || fns.some(s => s.startsWith(sig))`: the `has` helper of
      forceTransfer.js and pauseToken.js. */
  predicate ExposesExactOrPrefix(fns: seq<string>, sig: string) {
    sig in fns || Exposes(fns, sig)
  }

  /** The exact-match half of the two-part `has` adds nothing: every name is a
      prefix of itself. */
  lemma ExactOrPrefixIsPrefix(fns: seq<string>, sig: string)
    ensures ExposesExactOrPrefix(fns, sig) <==> Exposes(fns, sig)
  {
    if sig in fns {
      var i :| 0 <= i < |fns| && fns[i] == sig;
      assert StartsWith(fns[i], sig);
    }
  }

  /** Whether a name is exposed depends only on which names are exposed, not on
      their order or multiplicity. */
  lemma ExposesDependsOnlyOnNames(f1: seq<string>, f2: seq<string>, p: string)
    requires forall s :: s in f1 <==> s in f2
    ensures Exposes(f1, p) <==> Exposes(f2, p)
  {
    if Exposes(f1, p) {
      var i :| 0 <= i < |f1| && StartsWith(f1[i], p);
      assert f1[i] in f2;
      var j :| 0 <= j < |f2| && f2[j] == f1[i];
    }
    if Exposes(f2, p) {
      var j :| 0 <= j < |f2| && StartsWith(f2[j], p);
      assert f2[j] in f1;
      var i :| 0 <= i < |f1| && f1[i] == f2[j];
    }
  }

  /**
   * Priority resolution: the index of the first candidate that the contract
   * exposes, or None when it exposes none of them.
   */
  function Resolve(fns: seq<string>, candidates: seq<string>): (r: Option<nat>)
    ensures r.Some? ==> r.value < |candidates| && Exposes(fns, candidates[r.value])
    ensures r.Some? ==> forall j :: 0 <= j < r.value ==> !Exposes(fns, candidates[j])
    ensures r.None? <==> forall j :: 0 <= j < |candidates| ==> !Exposes(fns, candidates[j])
  {
    if candidates == [] then None
    else if Exposes(fns, candidates[0]) then Some(0)
    else match Resolve(fns, candidates[1..])
      case None => None
      case Some(k) => Some(k + 1)
  }

  /** The signature that resolution picks. */
  function Chosen(fns: seq<string>, candidates: seq<string>): Option<string> {
    match Resolve(fns, candidates)
    case None => None
    case Some(k) => Some(candidates[k])
  }

  /** An exposed candidate is never passed over for a later one: the winner comes
      no later than any exposed candidate. */
  lemma ResolvePrefersEarlier(fns: seq<string>, candidates: seq<string>, i: nat)
    requires i < |candidates| && Exposes(fns, candidates[i])
    ensures Resolve(fns, candidates).Some? && Resolve(fns, candidates).value <= i
  {
  }

  /** Resolution is deterministic in the exposed set: two lists with the same names,
      in any order, resolve every candidate list to the same winner. */
  lemma {:induction false} ResolveDependsOnlyOnNames(f1: seq<string>, f2: seq<string>, candidates: seq<string>)
    requires forall s :: s in f1 <==> s in f2
    ensures Resolve(f1, candidates) == Resolve(f2, candidates)
  {
    if candidates != [] {
      ExposesDependsOnlyOnNames(f1, f2, candidates[0]);
      ResolveDependsOnlyOnNames(f1, f2, candidates[1..]);
    }
  }

  /** Adding names to the exposed list never makes a resolvable operation
      unresolvable, and can only move the winner earlier. */
  lemma {:induction false} ResolveMonotone(fns: seq<string>, more: seq<string>, candidates: seq<string>)
    requires Resolve(fns, candidates).Some?
    ensures Resolve(fns + more, candidates).Some?
    ensures Resolve(fns + more, candidates).value <= Resolve(fns, candidates).value
  {
    var k := Resolve(fns, candidates).value;
    var i :| 0 <= i < |fns| && StartsWith(fns[i], candidates[k]);
    assert (fns + more)[i] == fns[i];
    ResolvePrefersEarlier(fns + more, candidates, k);
  }
}
