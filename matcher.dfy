/** The threshold-signature matcher: which listed owner addresses the wallet
    signs for, in listed order, up to the owners' threshold. */
module Matcher {
  import opened Types

  /** The signer indices are valid positions of controlled addresses, in
      strictly increasing order. */
  ghost predicate Signers(controlled: set<Address>, addrs: seq<Address>, sigs: seq<nat>)
  {
    && (forall k :: 0 <= k < |sigs| ==> sigs[k] < |addrs| && addrs[sigs[k]] in controlled)
    && (forall k, l :: 0 <= k < l < |sigs| ==> sigs[k] < sigs[l])
  }

  /** Every position of `addrs` that holds a controlled address, ascending:
      the reference the greedy scan is measured against. */
  function ControlledIndices(controlled: set<Address>, addrs: seq<Address>): (r: seq<nat>)
    ensures |r| <= |addrs|
    ensures Signers(controlled, addrs, r)
    ensures forall j :: 0 <= j < |addrs| && addrs[j] in controlled ==> j in r
    decreases |addrs|
  {
    if addrs == [] then []
    else
      var n := |addrs| - 1;
      ControlledIndices(controlled, addrs[..n]) + (if addrs[n] in controlled then [n] else [])
  }

  /** The positions of `addrs` holding a controlled address. */
  ghost function ControlledPositions(controlled: set<Address>, addrs: seq<Address>): set<nat>
  {
    set j | 0 <= j < |addrs| && addrs[j] in controlled
  }

  /** Extending the list by one address adds at most its own position. */
  lemma ControlledPositionsSnoc(controlled: set<Address>, addrs: seq<Address>)
    requires addrs != []
    ensures var n := |addrs| - 1;
            && ControlledPositions(controlled, addrs)
               == ControlledPositions(controlled, addrs[..n]) + (if addrs[n] in controlled then {n} else {})
            && n !in ControlledPositions(controlled, addrs[..n])
  {
    var n := |addrs| - 1;
    var prefix := addrs[..n];
    forall j | j in ControlledPositions(controlled, addrs) && j < n
      ensures j in ControlledPositions(controlled, prefix)
    {
      assert prefix[j] == addrs[j];
    }
    forall j | j in ControlledPositions(controlled, prefix)
      ensures j in ControlledPositions(controlled, addrs)
    {
      assert prefix[j] == addrs[j];
    }
  }

  /** The scan's reference list holds each controlled position exactly once,
      so its length is the number of listed addresses the wallet controls. */
  lemma {:induction false} ControlledIndicesCount(controlled: set<Address>, addrs: seq<Address>)
    ensures |ControlledIndices(controlled, addrs)| == |ControlledPositions(controlled, addrs)|
    decreases |addrs|
  {
    if addrs == [] {
      assert ControlledPositions(controlled, addrs) == {};
    } else {
      var n := |addrs| - 1;
      var prefix := addrs[..n];
      ControlledIndicesCount(controlled, prefix);
      ControlledPositionsSnoc(controlled, addrs);
      var before := ControlledPositions(controlled, prefix);
      var extra: set<nat> := if addrs[n] in controlled then {n} else {};
      assert |before + extra| == |before| + |extra|;
      assert |ControlledIndices(controlled, addrs)| == |ControlledIndices(controlled, prefix)| + |extra|;
    }
  }

  /** Threshold correctness: match succeeds exactly when the owners are
      unlocked and at least `threshold` listed addresses are controlled. */
  lemma MatchSatisfiedIff(controlled: set<Address>, owners: OutputOwners, minIssuanceTime: U64)
    ensures MatchSpec(controlled, owners, minIssuanceTime).Some?
            <==> owners.locktime <= minIssuanceTime
                 && |ControlledPositions(controlled, owners.addrs)| >= owners.threshold
  {
    ControlledIndicesCount(controlled, owners.addrs);
  }

  /** At most the first `n` elements. */
  function Take(s: seq<nat>, n: nat): (r: seq<nat>)
    ensures |r| == if |s| <= n then |s| else n
    ensures r <= s
  {
    if |s| <= n then s else s[..n]
  }

  /** match's verdict: the signer indices when the owners are unlocked at
      `minIssuanceTime` and the wallet controls enough listed addresses. */
  function MatchSpec(controlled: set<Address>, owners: OutputOwners, minIssuanceTime: U64): (r: Option<seq<nat>>)
    ensures owners.locktime > minIssuanceTime ==> r.None?
    ensures r.Some? <==> owners.locktime <= minIssuanceTime
                         && |ControlledIndices(controlled, owners.addrs)| >= owners.threshold
    ensures r.Some? ==> |r.value| == owners.threshold && Signers(controlled, owners.addrs, r.value)
  {
    if owners.locktime > minIssuanceTime then None
    else
      var sigs := Take(ControlledIndices(controlled, owners.addrs), owners.threshold);
      if |sigs| == owners.threshold then Some(sigs) else None
  }

  /** The indices found in a prefix of the list are a prefix of those found
      in the whole list. */
  lemma {:induction false} ControlledIndicesPrefix(controlled: set<Address>, addrs: seq<Address>, i: nat)
    requires i <= |addrs|
    ensures ControlledIndices(controlled, addrs[..i]) <= ControlledIndices(controlled, addrs)
    decreases |addrs|
  {
    if i == |addrs| {
      assert addrs[..i] == addrs;
    } else {
      var n := |addrs| - 1;
      assert addrs[..n][..i] == addrs[..i];
      ControlledIndicesPrefix(controlled, addrs[..n], i);
    }
  }

  /** Greedy order: a satisfied match skips no controlled position that lies
      before its last chosen index. */
  lemma MatchTakesFirstControlled(controlled: set<Address>, owners: OutputOwners, minIssuanceTime: U64, j: nat)
    requires MatchSpec(controlled, owners, minIssuanceTime).Some?
    requires var sigs := MatchSpec(controlled, owners, minIssuanceTime).value;
             |sigs| > 0 && j <= sigs[|sigs| - 1]
    requires j < |owners.addrs| && owners.addrs[j] in controlled
    ensures j in MatchSpec(controlled, owners, minIssuanceTime).value
  {
    var all := ControlledIndices(controlled, owners.addrs);
    var sigs := MatchSpec(controlled, owners, minIssuanceTime).value;
    assert sigs == all[..owners.threshold];
    var k :| 0 <= k < |all| && all[k] == j;
    assert sigs[k] == j;
  }

  /** builder.match: scans the listed addresses in order, collecting the
      positions of controlled ones until `threshold` are found. */
  method Match(controlled: set<Address>, owners: OutputOwners, minIssuanceTime: U64)
    returns (sigs: seq<nat>, ok: bool)
    ensures ok <==> MatchSpec(controlled, owners, minIssuanceTime).Some?
    ensures ok ==> sigs == MatchSpec(controlled, owners, minIssuanceTime).value
    ensures |sigs| <= owners.threshold
    ensures Signers(controlled, owners.addrs, sigs)
    ensures owners.locktime <= minIssuanceTime ==>
              sigs == Take(ControlledIndices(controlled, owners.addrs), owners.threshold)
  {
    if owners.locktime > minIssuanceTime {
      return [], false;
    }
    var addrs := owners.addrs;
    sigs := [];
    var i := 0;
    while i < |addrs| && |sigs| < owners.threshold
      invariant 0 <= i <= |addrs|
      invariant sigs == Take(ControlledIndices(controlled, addrs[..i]), owners.threshold)
    {
      assert addrs[..i + 1][..i] == addrs[..i];
      if addrs[i] in controlled {
        sigs := sigs + [i];
      }
      i := i + 1;
    }
    var all := ControlledIndices(controlled, addrs);
    ControlledIndicesPrefix(controlled, addrs, i);
    if i == |addrs| {
      assert addrs[..i] == addrs;
    }
    assert sigs == Take(all, owners.threshold);
    ok := |sigs| == owners.threshold;
  }
}
