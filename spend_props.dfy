/** What builder.spend guarantees: exact per-asset accounting, funds drawn
    only from the UTXOs offered, lock preservation, each UTXO consumed at
    most once, and the closed list of errors. */
module SpendProps {
  import opened Types
  import opened Matcher
  import opened Spender

  /** Per-asset bookkeeping of the spend state against the original requests
      `burn0` and `stake0`: the burn remainder never exceeds its request, what
      was staked plus what is still to stake is the stake request, and the
      inputs pay for everything burned, staked and returned as change. */
  ghost predicate Accounted(a: AssetId, burn0: map<AssetId, U64>, stake0: map<AssetId, U64>, p: Plan)
  {
    && Get(p.toBurn, a) <= Get(burn0, a)
    && OutputTotal(a, p.stake) + Get(p.toStake, a) == Get(stake0, a)
    && InputTotal(a, p.inputs) + Get(p.toBurn, a)
       == Get(burn0, a) + OutputTotal(a, p.stake) + OutputTotal(a, p.change)
  }

  /** Consuming one UTXO of `asset` keeps the bookkeeping of every asset:
      the input pays exactly for what was burned, staked and returned, and
      the remaining requests shrink by what was burned and staked. */
  lemma ConsumeAccounts(a: AssetId, burn0: map<AssetId, U64>, stake0: map<AssetId, U64>, p: Plan,
                        asset: AssetId, al: Allocation, amt: U64,
                        burn1: map<AssetId, U64>, stake1: map<AssetId, U64>)
    requires Accounted(a, burn0, stake0, p)
    requires al.input.asset == asset && al.input.input.transfer.amt == amt
    requires al.burned <= Get(p.toBurn, asset) && al.staked <= Get(p.toStake, asset)
    requires OutputTotal(asset, al.stake) == al.staked
    requires amt == al.burned + al.staked + OutputTotal(asset, al.change)
    requires forall o :: o in al.stake ==> o.asset == asset
    requires forall o :: o in al.change ==> o.asset == asset
    requires Get(burn1, a) == if a == asset then Get(p.toBurn, asset) - al.burned else Get(p.toBurn, a)
    requires Get(stake1, a) == if a == asset then Get(p.toStake, asset) - al.staked else Get(p.toStake, a)
    ensures Accounted(a, burn0, stake0, Plan(p.inputs + [al.input], p.change + al.change,
                                             p.stake + al.stake, burn1, stake1))
  {
    InputTotalAppend(a, p.inputs, al.input);
    OutputTotalAppend(a, p.change, al.change);
    OutputTotalAppend(a, p.stake, al.stake);
    if a != asset {
      OutputTotalOther(a, al.change);
      OutputTotalOther(a, al.stake);
    }
  }

  lemma LockedStepAccounts(controlled: set<Address>, t: U64, u: Utxo, p: Plan,
                           a: AssetId, burn0: map<AssetId, U64>, stake0: map<AssetId, U64>)
    requires Accounted(a, burn0, stake0, p)
    requires LockedStep(controlled, t, u, p).Ok?
    ensures Accounted(a, burn0, stake0, LockedStep(controlled, t, u, p).value)
  {
    var need := Get(p.toStake, u.asset);
    if need != 0 && StillLocked(u, t) {
      var out := u.out.inner;
      match MatchSpec(controlled, out.owners, t)
      case None =>
      case Some(sigs) =>
        var al := LockedAllocation(u, u.out.locktime, out.amt, out.owners, sigs, need);
        LockedAllocationSplits(u, u.out.locktime, out.amt, out.owners, sigs, need);
        ConsumeAccounts(a, burn0, stake0, p, u.asset, al, out.amt, p.toBurn, p.toStake[u.asset := need - al.staked]);
    }
  }

  lemma {:induction false} LockedPassAccounts(controlled: set<Address>, t: U64, us: seq<Utxo>, p: Plan,
                                              a: AssetId, burn0: map<AssetId, U64>, stake0: map<AssetId, U64>)
    requires Accounted(a, burn0, stake0, p)
    requires LockedPass(controlled, t, us, p).Ok?
    ensures Accounted(a, burn0, stake0, LockedPass(controlled, t, us, p).value)
    decreases |us|
  {
    if us != [] {
      LockedStepAccounts(controlled, t, us[0], p, a, burn0, stake0);
      LockedPassAccounts(controlled, t, us[1..], LockedStep(controlled, t, us[0], p).value, a, burn0, stake0);
    }
  }

  lemma UnlockedStepAccounts(controlled: set<Address>, t: U64, owner: OutputOwners, u: Utxo, p: Plan,
                             a: AssetId, burn0: map<AssetId, U64>, stake0: map<AssetId, U64>)
    requires Accounted(a, burn0, stake0, p)
    requires UnlockedStep(controlled, t, owner, u, p).Ok?
    ensures Accounted(a, burn0, stake0, UnlockedStep(controlled, t, owner, u, p).value)
  {
    var needStake := Get(p.toStake, u.asset);
    var needBurn := Get(p.toBurn, u.asset);
    if needStake == 0 && needBurn == 0 {
    } else if StillLocked(u, t) {
    } else {
      var out := Unwrapped(u.out);
      match MatchSpec(controlled, out.owners, t)
      case None =>
      case Some(sigs) =>
        var al := UnlockedAllocation(u, out.amt, sigs, needBurn, needStake, owner);
        UnlockedAllocationSplits(u, out.amt, sigs, needBurn, needStake, owner);
        ConsumeAccounts(a, burn0, stake0, p, u.asset, al, out.amt,
                        p.toBurn[u.asset := needBurn - al.burned], p.toStake[u.asset := needStake - al.staked]);
    }
  }

  lemma {:induction false} UnlockedPassAccounts(controlled: set<Address>, t: U64, owner: OutputOwners,
                                                us: seq<Utxo>, p: Plan, a: AssetId,
                                                burn0: map<AssetId, U64>, stake0: map<AssetId, U64>)
    requires Accounted(a, burn0, stake0, p)
    requires UnlockedPass(controlled, t, owner, us, p).Ok?
    ensures Accounted(a, burn0, stake0, UnlockedPass(controlled, t, owner, us, p).value)
    decreases |us|
  {
    if us != [] {
      UnlockedStepAccounts(controlled, t, owner, us[0], p, a, burn0, stake0);
      UnlockedPassAccounts(controlled, t, owner, us[1..], UnlockedStep(controlled, t, owner, us[0], p).value,
                           a, burn0, stake0);
    }
  }

  /** Success means every request was met exactly: the stake outputs of each
      asset add up to its stake request, and its inputs pay for the burn
      request, the stake request and the change. */
  lemma SpendMeetsRequests(controlled: set<Address>, peek: Option<Address>, opts: Options, utxos: seq<Utxo>,
                           toBurn: map<AssetId, U64>, toStake: map<AssetId, U64>, a: AssetId)
    requires SpendSpec(controlled, peek, opts, utxos, toBurn, toStake).Ok?
    ensures var s := SpendSpec(controlled, peek, opts, utxos, toBurn, toStake).value;
            && OutputTotal(a, s.stake) == Get(toStake, a)
            && InputTotal(a, s.inputs) == Get(toBurn, a) + Get(toStake, a) + OutputTotal(a, s.change)
  {
    var t := opts.minIssuanceTime;
    var p0 := Plan([], [], [], toBurn, toStake);
    var p1 := LockedPass(controlled, t, utxos, p0).value;
    var owner := ChangeOwner(opts, peek.value);
    var p2 := UnlockedPass(controlled, t, owner, utxos, p1).value;
    LockedPassAccounts(controlled, t, utxos, p0, a, toBurn, toStake);
    UnlockedPassAccounts(controlled, t, owner, utxos, p1, a, toBurn, toStake);
    assert Get(p2.toBurn, a) == 0 && Get(p2.toStake, a) == 0;
  }

  /** The amount of asset `a` held by the UTXOs that are (`locked`) or are
      not (`!locked`) still locked at `t`. */
  ghost function Funds(a: AssetId, us: seq<Utxo>, t: U64, locked: bool): nat
    decreases |us|
  {
    if us == [] then 0
    else
      (if us[0].asset == a && StillLocked(us[0], t) == locked then Amount(us[0].out) else 0)
      + Funds(a, us[1..], t, locked)
  }

  lemma {:induction false} LockedPassDraws(controlled: set<Address>, t: U64, us: seq<Utxo>, p: Plan, a: AssetId)
    requires LockedPass(controlled, t, us, p).Ok?
    ensures var q := LockedPass(controlled, t, us, p).value;
            && q.toBurn == p.toBurn
            && InputTotal(a, q.inputs) <= InputTotal(a, p.inputs) + Funds(a, us, t, true)
    decreases |us|
  {
    if us != [] {
      var u := us[0];
      var q1 := LockedStep(controlled, t, u, p).value;
      LockedStepSpends(controlled, t, u, p);
      LockedPassDraws(controlled, t, us[1..], q1, a);
      if q1 != p {
        var x := q1.inputs[|p.inputs|];
        assert q1.inputs == p.inputs + [x];
        InputTotalAppend(a, p.inputs, x);
        assert Amount(u.out) == Amount(u.out.inner) == u.out.inner.amt;
      }
    }
  }

  /** Consuming one UTXO of `asset` worth `amt` adds at most `amt` of it to
      the inputs, and at least what it takes off the burn request. */
  lemma ConsumeDraws(a: AssetId, p: Plan, asset: AssetId, al: Allocation, amt: U64, burn1: map<AssetId, U64>)
    requires al.input.asset == asset && al.input.input.transfer.amt == amt
    requires al.burned <= Get(p.toBurn, asset)
    requires Get(burn1, a) == if a == asset then Get(p.toBurn, asset) - al.burned else Get(p.toBurn, a)
    requires al.burned <= amt
    ensures Get(p.toBurn, a) + InputTotal(a, p.inputs) <= Get(burn1, a) + InputTotal(a, p.inputs + [al.input])
    ensures InputTotal(a, p.inputs + [al.input]) <= InputTotal(a, p.inputs) + (if asset == a then amt else 0)
  {
    InputTotalAppend(a, p.inputs, al.input);
  }

  lemma UnlockedStepDraws(controlled: set<Address>, t: U64, owner: OutputOwners, u: Utxo, p: Plan, a: AssetId)
    requires UnlockedStep(controlled, t, owner, u, p).Ok?
    ensures var q := UnlockedStep(controlled, t, owner, u, p).value;
            && Get(p.toBurn, a) + InputTotal(a, p.inputs) <= Get(q.toBurn, a) + InputTotal(a, q.inputs)
            && InputTotal(a, q.inputs)
               <= InputTotal(a, p.inputs) + (if u.asset == a && !StillLocked(u, t) then Amount(u.out) else 0)
  {
    var needStake := Get(p.toStake, u.asset);
    var needBurn := Get(p.toBurn, u.asset);
    if needStake == 0 && needBurn == 0 {
    } else if StillLocked(u, t) {
    } else {
      var out := Unwrapped(u.out);
      match MatchSpec(controlled, out.owners, t)
      case None =>
      case Some(sigs) =>
        var al := UnlockedAllocation(u, out.amt, sigs, needBurn, needStake, owner);
        UnlockedAllocationSplits(u, out.amt, sigs, needBurn, needStake, owner);
        ConsumeDraws(a, p, u.asset, al, out.amt, p.toBurn[u.asset := needBurn - al.burned]);
        assert Amount(u.out) == Amount(out) == out.amt;
    }
  }

  lemma {:induction false} UnlockedPassDraws(controlled: set<Address>, t: U64, owner: OutputOwners,
                                             us: seq<Utxo>, p: Plan, a: AssetId)
    requires UnlockedPass(controlled, t, owner, us, p).Ok?
    ensures var q := UnlockedPass(controlled, t, owner, us, p).value;
            && Get(p.toBurn, a) + InputTotal(a, p.inputs) <= Get(q.toBurn, a) + InputTotal(a, q.inputs)
            && InputTotal(a, q.inputs) <= InputTotal(a, p.inputs) + Funds(a, us, t, false)
    decreases |us|
  {
    if us != [] {
      UnlockedStepDraws(controlled, t, owner, us[0], p, a);
      UnlockedPassDraws(controlled, t, owner, us[1..], UnlockedStep(controlled, t, owner, us[0], p).value, a);
    }
  }

  /** Funds come only from the UTXOs offered: a successful spend never burns
      more of an asset than its unlocked and matured UTXOs hold, and never
      burns and stakes more than all its UTXOs hold. */
  lemma SpendNeedsFunds(controlled: set<Address>, peek: Option<Address>, opts: Options, utxos: seq<Utxo>,
                        toBurn: map<AssetId, U64>, toStake: map<AssetId, U64>, a: AssetId)
    requires SpendSpec(controlled, peek, opts, utxos, toBurn, toStake).Ok?
    ensures Get(toBurn, a) <= Funds(a, utxos, opts.minIssuanceTime, false)
    ensures Get(toBurn, a) + Get(toStake, a)
            <= Funds(a, utxos, opts.minIssuanceTime, false) + Funds(a, utxos, opts.minIssuanceTime, true)
  {
    var t := opts.minIssuanceTime;
    var p0 := Plan([], [], [], toBurn, toStake);
    var p1 := LockedPass(controlled, t, utxos, p0).value;
    var owner := ChangeOwner(opts, peek.value);
    var p2 := UnlockedPass(controlled, t, owner, utxos, p1).value;
    LockedPassDraws(controlled, t, utxos, p0, a);
    UnlockedPassDraws(controlled, t, owner, utxos, p1, a);
    SpendMeetsRequests(controlled, peek, opts, utxos, toBurn, toStake, a);
    assert Get(p2.toBurn, a) == 0;
  }

  /** No two UTXOs share an id. */
  ghost predicate DistinctIds(us: seq<Utxo>)
  {
    forall i, j :: 0 <= i < j < |us| ==> us[i].id != us[j].id
  }

  /** The ids of the UTXOs that are (`locked`) or are not (`!locked`) still
      locked at `t`. */
  ghost function PassIds(us: seq<Utxo>, t: U64, locked: bool): set<UtxoId>
  {
    set u | u in us && StillLocked(u, t) == locked :: u.id
  }

  /** A stake-locked transfer output whose lock has not passed at `t`. */
  ghost predicate LockedPast(o: TransferableOutput, t: U64)
  {
    o.out.StakeableLockOut? && o.out.locktime > t && o.out.inner.TransferOutput?
  }

  /** A stake-locked input whose lock has not passed at `t`. */
  ghost predicate LockedIn(x: TransferableInput, t: U64)
  {
    x.input.StakeableLockIn? && x.input.locktime > t
  }

  /** A plain, non-empty transfer output to `owner`. */
  ghost predicate PlainTo(o: TransferableOutput, owner: OutputOwners)
  {
    OwnedBy(o, o.asset, owner)
  }

  lemma PassIdsTail(us: seq<Utxo>, t: U64, locked: bool)
    requires us != []
    ensures PassIds(us[1..], t, locked) <= PassIds(us, t, locked)
    ensures DistinctIds(us) ==> DistinctIds(us[1..]) && us[0].id !in PassIds(us[1..], t, locked)
  {
    forall u | u in us[1..] ensures u in us { }
    if DistinctIds(us) {
      forall u | u in us[1..] ensures u.id != us[0].id
      {
        var j :| 0 <= j < |us[1..]| && us[1..][j] == u;
        assert us[j + 1] == u;
      }
    }
  }

  /** No two inputs from position `n` on spend the same UTXO. */
  ghost predicate DistinctFrom(ins: seq<TransferableInput>, n: nat)
  {
    forall i, j :: n <= i < j < |ins| ==> ins[i].utxoId != ins[j].utxoId
  }

  lemma DistinctCons(ins: seq<TransferableInput>, n: nat)
    requires n < |ins| && DistinctFrom(ins, n + 1)
    requires forall k :: n + 1 <= k < |ins| ==> ins[k].utxoId != ins[n].utxoId
    ensures DistinctFrom(ins, n)
  {
  }

  /** The first loop only adds stake-locked inputs and outputs whose locks
      have not passed at `t`. */
  lemma {:induction false} LockedPassGrows(controlled: set<Address>, t: U64, us: seq<Utxo>, p: Plan)
    requires LockedPass(controlled, t, us, p).Ok?
    ensures var q := LockedPass(controlled, t, us, p).value;
            && p.inputs <= q.inputs && p.change <= q.change && p.stake <= q.stake
            && (forall k :: |p.inputs| <= k < |q.inputs| ==> LockedIn(q.inputs[k], t))
            && (forall k :: |p.stake| <= k < |q.stake| ==> LockedPast(q.stake[k], t))
            && (forall k :: |p.change| <= k < |q.change| ==> LockedPast(q.change[k], t))
    decreases |us|
  {
    if us != [] {
      var q1 := LockedStep(controlled, t, us[0], p).value;
      LockedStepSpends(controlled, t, us[0], p);
      LockedPassGrows(controlled, t, us[1..], q1);
    }
  }

  /** `o` keeps the exact lock time and owners of a UTXO of `us` that was
      still locked at `t` and that one of `ins` spends. */
  ghost predicate LockedFrom(o: TransferableOutput, us: seq<Utxo>, t: U64, ins: seq<TransferableInput>)
  {
    exists u :: && u in us && StillLocked(u, t) && u.out.inner.TransferOutput?
                && LockedTo(o, u.asset, u.out.locktime, u.out.inner.owners)
                && exists x :: x in ins && x.utxoId == u.id
  }

  /** Lock preservation over the first loop: every stake or change output it
      adds keeps the lock time and owners of a still-locked UTXO it spent. */
  lemma {:induction false} LockedPassKeepsLocks(controlled: set<Address>, t: U64, us: seq<Utxo>, p: Plan)
    requires LockedPass(controlled, t, us, p).Ok?
    ensures var q := LockedPass(controlled, t, us, p).value;
            && (forall k :: |p.stake| <= k < |q.stake| ==> LockedFrom(q.stake[k], us, t, q.inputs))
            && (forall k :: |p.change| <= k < |q.change| ==> LockedFrom(q.change[k], us, t, q.inputs))
    decreases |us|
  {
    if us != [] {
      var u := us[0];
      var q := LockedPass(controlled, t, us, p).value;
      var q1 := LockedStep(controlled, t, u, p).value;
      LockedStepSpends(controlled, t, u, p);
      LockedPassGrows(controlled, t, us[1..], q1);
      LockedPassKeepsLocks(controlled, t, us[1..], q1);
      assert q == LockedPass(controlled, t, us[1..], q1).value;
      assert u in us;
      forall k | |p.stake| <= k < |q.stake| ensures LockedFrom(q.stake[k], us, t, q.inputs)
      {
        if k < |q1.stake| {
          assert q.stake[k] == q1.stake[k];
          assert q.inputs[|p.inputs|] == q1.inputs[|p.inputs|];
          assert q.inputs[|p.inputs|] in q.inputs;
        } else {
          assert LockedFrom(q.stake[k], us[1..], t, q.inputs);
          var w :| w in us[1..] && StillLocked(w, t) && w.out.inner.TransferOutput?
                   && LockedTo(q.stake[k], w.asset, w.out.locktime, w.out.inner.owners)
                   && exists x :: x in q.inputs && x.utxoId == w.id;
          assert w in us;
        }
      }
      forall k | |p.change| <= k < |q.change| ensures LockedFrom(q.change[k], us, t, q.inputs)
      {
        if k < |q1.change| {
          assert q.change[k] == q1.change[k];
          assert q.inputs[|p.inputs|] == q1.inputs[|p.inputs|];
          assert q.inputs[|p.inputs|] in q.inputs;
        } else {
          assert LockedFrom(q.change[k], us[1..], t, q.inputs);
          var w :| w in us[1..] && StillLocked(w, t) && w.out.inner.TransferOutput?
                   && LockedTo(q.change[k], w.asset, w.out.locktime, w.out.inner.owners)
                   && exists x :: x in q.inputs && x.utxoId == w.id;
          assert w in us;
        }
      }
    }
  }

  /** The first loop spends only UTXOs still locked at `t`, each at most
      once. */
  lemma {:induction false} LockedPassDistinct(controlled: set<Address>, t: U64, us: seq<Utxo>, p: Plan)
    requires LockedPass(controlled, t, us, p).Ok?
    ensures var q := LockedPass(controlled, t, us, p).value;
            && (forall k :: |p.inputs| <= k < |q.inputs| ==> q.inputs[k].utxoId in PassIds(us, t, true))
            && (DistinctIds(us) ==> DistinctFrom(q.inputs, |p.inputs|))
    decreases |us|
  {
    if us != [] {
      var q := LockedPass(controlled, t, us, p).value;
      var u := us[0];
      var q1 := LockedStep(controlled, t, u, p).value;
      LockedStepSpends(controlled, t, u, p);
      LockedPassGrows(controlled, t, us[1..], q1);
      LockedPassDistinct(controlled, t, us[1..], q1);
      PassIdsTail(us, t, true);
      if q1 != p {
        assert q.inputs[|p.inputs|] == q1.inputs[|p.inputs|];
        assert u in us;
        assert u.id in PassIds(us, t, true);
        if DistinctIds(us) {
          DistinctCons(q.inputs, |p.inputs|);
        }
      }
    }
  }

  /** The second loop only adds plain inputs and non-empty plain outputs to
      the change owner. */
  lemma {:induction false} UnlockedPassGrows(controlled: set<Address>, t: U64, owner: OutputOwners, us: seq<Utxo>, p: Plan)
    requires UnlockedPass(controlled, t, owner, us, p).Ok?
    ensures var q := UnlockedPass(controlled, t, owner, us, p).value;
            && p.inputs <= q.inputs && p.change <= q.change && p.stake <= q.stake
            && (forall k :: |p.inputs| <= k < |q.inputs| ==> q.inputs[k].input.Plain?)
            && (forall k :: |p.stake| <= k < |q.stake| ==> PlainTo(q.stake[k], owner))
            && (forall k :: |p.change| <= k < |q.change| ==> PlainTo(q.change[k], owner))
    decreases |us|
  {
    if us != [] {
      var q1 := UnlockedStep(controlled, t, owner, us[0], p).value;
      UnlockedStepSpends(controlled, t, owner, us[0], p);
      UnlockedPassGrows(controlled, t, owner, us[1..], q1);
    }
  }

  /** The second loop spends only UTXOs not locked at `t`, each at most
      once. */
  lemma {:induction false} UnlockedPassDistinct(controlled: set<Address>, t: U64, owner: OutputOwners, us: seq<Utxo>, p: Plan)
    requires UnlockedPass(controlled, t, owner, us, p).Ok?
    ensures var q := UnlockedPass(controlled, t, owner, us, p).value;
            && (forall k :: |p.inputs| <= k < |q.inputs| ==> q.inputs[k].utxoId in PassIds(us, t, false))
            && (DistinctIds(us) ==> DistinctFrom(q.inputs, |p.inputs|))
    decreases |us|
  {
    if us != [] {
      var q := UnlockedPass(controlled, t, owner, us, p).value;
      var u := us[0];
      var q1 := UnlockedStep(controlled, t, owner, u, p).value;
      UnlockedStepSpends(controlled, t, owner, u, p);
      UnlockedPassGrows(controlled, t, owner, us[1..], q1);
      UnlockedPassDistinct(controlled, t, owner, us[1..], q1);
      PassIdsTail(us, t, false);
      if q1 != p {
        assert q.inputs[|p.inputs|] == q1.inputs[|p.inputs|];
        assert u in us;
        assert u.id in PassIds(us, t, false);
        if DistinctIds(us) {
          DistinctCons(q.inputs, |p.inputs|);
        }
      }
    }
  }

  lemma PassIdsDisjoint(us: seq<Utxo>, t: U64)
    requires DistinctIds(us)
    ensures PassIds(us, t, true) !! PassIds(us, t, false)
  {
    forall u1 | u1 in us && StillLocked(u1, t) ensures u1.id !in PassIds(us, t, false)
    {
      forall u2 | u2 in us && !StillLocked(u2, t) ensures u2.id != u1.id
      {
        var i :| 0 <= i < |us| && us[i] == u1;
        var j :| 0 <= j < |us| && us[j] == u2;
        assert i != j;
      }
    }
  }

  /** Lock preservation and single use over the whole of spend: a
      stake-locked input spends a UTXO still locked at the issuance time and
      keeps a lock past it, a plain input spends one that is not still
      locked; every output is either locked past the issuance time or a
      non-empty plain transfer to the change owner; and when the UTXO ids are
      distinct, no UTXO is spent twice. */
  lemma SpendConsumes(controlled: set<Address>, peek: Option<Address>, opts: Options, utxos: seq<Utxo>,
                      toBurn: map<AssetId, U64>, toStake: map<AssetId, U64>)
    requires SpendSpec(controlled, peek, opts, utxos, toBurn, toStake).Ok?
    ensures var s := SpendSpec(controlled, peek, opts, utxos, toBurn, toStake).value;
            var t := opts.minIssuanceTime;
            var owner := ChangeOwner(opts, peek.value);
            && (forall x :: x in s.inputs ==>
                  if x.input.StakeableLockIn? then x.input.locktime > t && x.utxoId in PassIds(utxos, t, true)
                  else x.utxoId in PassIds(utxos, t, false))
            && (forall o :: o in s.stake ==> LockedPast(o, t) || OwnedBy(o, o.asset, owner))
            && (forall o :: o in s.change ==> LockedPast(o, t) || OwnedBy(o, o.asset, owner))
            && (DistinctIds(utxos) ==> DistinctFrom(s.inputs, 0))
  {
    var t := opts.minIssuanceTime;
    var p0 := Plan([], [], [], toBurn, toStake);
    var p1 := LockedPass(controlled, t, utxos, p0).value;
    var owner := ChangeOwner(opts, peek.value);
    var p2 := UnlockedPass(controlled, t, owner, utxos, p1).value;
    LockedPassGrows(controlled, t, utxos, p0);
    LockedPassDistinct(controlled, t, utxos, p0);
    UnlockedPassGrows(controlled, t, owner, utxos, p1);
    UnlockedPassDistinct(controlled, t, owner, utxos, p1);
    var n := |p1.inputs|;
    assert forall k :: 0 <= k < n ==> p2.inputs[k] == p1.inputs[k];
    forall x | x in p2.inputs
      ensures if x.input.StakeableLockIn? then x.input.locktime > t && x.utxoId in PassIds(utxos, t, true)
              else x.utxoId in PassIds(utxos, t, false)
    {
      var k :| 0 <= k < |p2.inputs| && p2.inputs[k] == x;
    }
    forall o | o in p2.stake ensures LockedPast(o, t) || OwnedBy(o, o.asset, owner)
    {
      var k :| 0 <= k < |p2.stake| && p2.stake[k] == o;
      if k < |p1.stake| { assert p1.stake[k] == o; }
    }
    forall o | o in p2.change ensures LockedPast(o, t) || OwnedBy(o, o.asset, owner)
    {
      var k :| 0 <= k < |p2.change| && p2.change[k] == o;
      if k < |p1.change| { assert p1.change[k] == o; }
    }
    if DistinctIds(utxos) {
      PassIdsDisjoint(utxos, t);
      forall i, j | 0 <= i < j < |p2.inputs| ensures p2.inputs[i].utxoId != p2.inputs[j].utxoId
      {
        if j < n {
          assert p2.inputs[i] == p1.inputs[i] && p2.inputs[j] == p1.inputs[j];
        }
      }
    }
  }

  /** Lock preservation over the whole of spend: every stake or change
      output either keeps the exact lock time and owners of a still-locked
      UTXO that one of the inputs spends, or is a non-empty plain transfer
      to the change owner. */
  lemma SpendKeepsLocks(controlled: set<Address>, peek: Option<Address>, opts: Options, utxos: seq<Utxo>,
                        toBurn: map<AssetId, U64>, toStake: map<AssetId, U64>)
    requires SpendSpec(controlled, peek, opts, utxos, toBurn, toStake).Ok?
    ensures var s := SpendSpec(controlled, peek, opts, utxos, toBurn, toStake).value;
            var t := opts.minIssuanceTime;
            var owner := ChangeOwner(opts, peek.value);
            && (forall o :: o in s.stake ==> LockedFrom(o, utxos, t, s.inputs) || OwnedBy(o, o.asset, owner))
            && (forall o :: o in s.change ==> LockedFrom(o, utxos, t, s.inputs) || OwnedBy(o, o.asset, owner))
  {
    var t := opts.minIssuanceTime;
    var p0 := Plan([], [], [], toBurn, toStake);
    var p1 := LockedPass(controlled, t, utxos, p0).value;
    var owner := ChangeOwner(opts, peek.value);
    var p2 := UnlockedPass(controlled, t, owner, utxos, p1).value;
    LockedPassKeepsLocks(controlled, t, utxos, p0);
    UnlockedPassGrows(controlled, t, owner, utxos, p1);
    forall o | o in p2.stake ensures LockedFrom(o, utxos, t, p2.inputs) || OwnedBy(o, o.asset, owner)
    {
      var k :| 0 <= k < |p2.stake| && p2.stake[k] == o;
      if k < |p1.stake| {
        assert p1.stake[k] == o;
        KeepsLockLater(o, utxos, t, p1.inputs, p2.inputs);
      }
    }
    forall o | o in p2.change ensures LockedFrom(o, utxos, t, p2.inputs) || OwnedBy(o, o.asset, owner)
    {
      var k :| 0 <= k < |p2.change| && p2.change[k] == o;
      if k < |p1.change| {
        assert p1.change[k] == o;
        KeepsLockLater(o, utxos, t, p1.inputs, p2.inputs);
      }
    }
  }

  /** Appending inputs keeps the spending input of a locked output. */
  lemma KeepsLockLater(o: TransferableOutput, us: seq<Utxo>, t: U64, ins: seq<TransferableInput>,
                       more: seq<TransferableInput>)
    requires LockedFrom(o, us, t, ins) && ins <= more
    ensures LockedFrom(o, us, t, more)
  {
    var u :| && u in us && StillLocked(u, t) && u.out.inner.TransferOutput?
             && LockedTo(o, u.asset, u.out.locktime, u.out.inner.owners)
             && exists x :: x in ins && x.utxoId == u.id;
    var x :| x in ins && x.utxoId == u.id;
    var i :| 0 <= i < |ins| && ins[i] == x;
    assert more[i] == x;
  }

  lemma {:induction false} LockedPassErrors(controlled: set<Address>, t: U64, us: seq<Utxo>, p: Plan)
    requires LockedPass(controlled, t, us, p).Err?
    ensures LockedPass(controlled, t, us, p).error == UnknownOutputType
    ensures exists u :: u in us && !Unwrapped(u.out).TransferOutput?
    decreases |us|
  {
    var r := LockedStep(controlled, t, us[0], p);
    LockedStepSpends(controlled, t, us[0], p);
    if r.Ok? {
      LockedPassErrors(controlled, t, us[1..], r.value);
      var u :| u in us[1..] && !Unwrapped(u.out).TransferOutput?;
      assert u in us;
    } else {
      assert us[0] in us;
    }
  }

  lemma {:induction false} UnlockedPassErrors(controlled: set<Address>, t: U64, owner: OutputOwners,
                                              us: seq<Utxo>, p: Plan)
    requires UnlockedPass(controlled, t, owner, us, p).Err?
    ensures UnlockedPass(controlled, t, owner, us, p).error == UnknownOutputType
    ensures exists u :: u in us && !Unwrapped(u.out).TransferOutput?
    decreases |us|
  {
    var r := UnlockedStep(controlled, t, owner, us[0], p);
    UnlockedStepSpends(controlled, t, owner, us[0], p);
    if r.Ok? {
      UnlockedPassErrors(controlled, t, owner, us[1..], r.value);
      var u :| u in us[1..] && !Unwrapped(u.out).TransferOutput?;
      assert u in us;
    } else {
      assert us[0] in us;
    }
  }

  /** The errors spend can report: NoChangeAddress exactly when the wallet
      controls no address, UnknownOutputType only when some UTXO is not a
      (possibly stake-locked) transfer output, and otherwise InsufficientFunds. */
  lemma SpendErrors(controlled: set<Address>, peek: Option<Address>, opts: Options, utxos: seq<Utxo>,
                    toBurn: map<AssetId, U64>, toStake: map<AssetId, U64>)
    requires IsPeek(controlled, peek)
    requires SpendSpec(controlled, peek, opts, utxos, toBurn, toStake).Err?
    ensures var e := SpendSpec(controlled, peek, opts, utxos, toBurn, toStake).error;
            && (e == NoChangeAddress || e == UnknownOutputType || e == InsufficientFunds)
            && (e == NoChangeAddress <==> controlled == {})
            && (e == UnknownOutputType ==> exists u :: u in utxos && !Unwrapped(u.out).TransferOutput?)
  {
    if peek.Some? {
      var t := opts.minIssuanceTime;
      var p0 := Plan([], [], [], toBurn, toStake);
      var r1 := LockedPass(controlled, t, utxos, p0);
      if r1.Err? {
        LockedPassErrors(controlled, t, utxos, p0);
      } else {
        var owner := ChangeOwner(opts, peek.value);
        if UnlockedPass(controlled, t, owner, utxos, r1.value).Err? {
          UnlockedPassErrors(controlled, t, owner, utxos, r1.value);
        }
      }
    }
  }

  lemma {:induction false} LockedPassIdle(controlled: set<Address>, t: U64, us: seq<Utxo>, p: Plan)
    requires AllZero(p.toStake)
    ensures LockedPass(controlled, t, us, p) == Ok(p)
    decreases |us|
  {
    if us != [] {
      assert LockedStep(controlled, t, us[0], p) == Ok(p);
      LockedPassIdle(controlled, t, us[1..], p);
    }
  }

  lemma {:induction false} UnlockedPassIdle(controlled: set<Address>, t: U64, owner: OutputOwners,
                                            us: seq<Utxo>, p: Plan)
    requires AllZero(p.toStake) && AllZero(p.toBurn)
    ensures UnlockedPass(controlled, t, owner, us, p) == Ok(p)
    decreases |us|
  {
    if us != [] {
      assert UnlockedStep(controlled, t, owner, us[0], p) == Ok(p);
      UnlockedPassIdle(controlled, t, owner, us[1..], p);
    }
  }

  /** Nothing requested, nothing spent: with a change address and all-zero
      requests, spend succeeds without consuming any UTXO. */
  lemma SpendNothing(controlled: set<Address>, peek: Option<Address>, opts: Options, utxos: seq<Utxo>,
                     toBurn: map<AssetId, U64>, toStake: map<AssetId, U64>)
    requires peek.Some? && AllZero(toBurn) && AllZero(toStake)
    ensures SpendSpec(controlled, peek, opts, utxos, toBurn, toStake) == Ok(Spent([], [], []))
  {
    var t := opts.minIssuanceTime;
    var p0 := Plan([], [], [], toBurn, toStake);
    LockedPassIdle(controlled, t, utxos, p0);
    UnlockedPassIdle(controlled, t, ChangeOwner(opts, peek.value), utxos, p0);
  }
}
