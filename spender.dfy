/** The UTXO spend planner (builder.spend): two passes over the UTXO list that
    consume whole UTXOs to meet per-asset burn and stake requests. */
module Spender {
  import opened Types
  import opened Matcher

  /** The working state of spend: what has been produced so far and what is
      still to be burned and staked. */
  datatype Plan = Plan(inputs: seq<TransferableInput>, change: seq<TransferableOutput>,
                       stake: seq<TransferableOutput>, toBurn: map<AssetId, U64>,
                       toStake: map<AssetId, U64>)

  /** What a successful spend returns. */
  datatype Spent = Spent(inputs: seq<TransferableInput>, change: seq<TransferableOutput>,
                         stake: seq<TransferableOutput>)

  /** What consuming one UTXO produces: its input, the amounts burned and
      staked from it, and the stake and change outputs made from it. */
  datatype Allocation = Allocation(input: TransferableInput, burned: U64, staked: U64,
                                   stake: seq<TransferableOutput>, change: seq<TransferableOutput>)

  /** A stake-locked UTXO whose lock has not passed at `minIssuanceTime`. */
  predicate StillLocked(u: Utxo, minIssuanceTime: U64)
  {
    u.out.StakeableLockOut? && u.out.locktime > minIssuanceTime
  }

  /** A matured stake-locked payload is spent as its inner payload. */
  function Unwrapped(o: Output): Output
  {
    if o.StakeableLockOut? then o.inner else o
  }

  /** The change owner: the caller's override, else threshold 1 over the
      peeked address. */
  function ChangeOwner(opts: Options, addr: Address): OutputOwners
  {
    match opts.changeOwner
    case Some(o) => o
    case None => OutputOwners(0, 1, [addr])
  }

  /** A stake-locked output of `asset` with lock time `lt` and owners `owners`. */
  ghost predicate LockedTo(o: TransferableOutput, asset: AssetId, lt: U64, owners: OutputOwners)
  {
    && o.asset == asset
    && o.out.StakeableLockOut? && o.out.locktime == lt
    && o.out.inner.TransferOutput? && o.out.inner.owners == owners
  }

  /** A plain, non-empty transfer output of `asset` owned by `owner`. */
  ghost predicate OwnedBy(o: TransferableOutput, asset: AssetId, owner: OutputOwners)
  {
    o.asset == asset && o.out.TransferOutput? && o.out.owners == owner && o.out.amt > 0
  }

  /** Pass 1 on one still-locked UTXO: the whole amount is consumed, up to
      the remaining stake need is staked and the rest is returned, all under
      the UTXO's own lock time and owners. */
  function LockedAllocation(u: Utxo, lt: U64, amt: U64, owners: OutputOwners, sigs: seq<nat>, need: U64)
    : Allocation
  {
    var staked := Min64(need, amt);
    var stakeOut := TransferableOutput(u.asset, StakeableLockOut(lt, TransferOutput(staked, owners)));
    var changeOut := TransferableOutput(u.asset, StakeableLockOut(lt, TransferOutput(amt - staked, owners)));
    Allocation(TransferableInput(u.id, u.asset, StakeableLockIn(lt, TransferInput(amt, sigs))),
               0, staked, [stakeOut], if amt - staked > 0 then [changeOut] else [])
  }

  /** Per-UTXO conservation and lock preservation in pass 1: the input carries
      the whole amount and the lock time; the amount is split exactly into
      what is staked (at most the need, and all of the need unless the UTXO
      is smaller) and what is returned; nothing is burned; every output keeps
      the lock time and the owners. */
  lemma LockedAllocationSplits(u: Utxo, lt: U64, amt: U64, owners: OutputOwners, sigs: seq<nat>, need: U64)
    ensures var al := LockedAllocation(u, lt, amt, owners, sigs, need);
            && al.input == TransferableInput(u.id, u.asset, StakeableLockIn(lt, TransferInput(amt, sigs)))
            && al.burned == 0
            && al.staked <= need && (al.staked == need || al.staked == amt)
            && OutputTotal(u.asset, al.stake) == al.staked
            && amt == al.burned + al.staked + OutputTotal(u.asset, al.change)
            && (forall o :: o in al.stake ==> LockedTo(o, u.asset, lt, owners))
            && (forall o :: o in al.change ==> LockedTo(o, u.asset, lt, owners))
  {
    var staked := Min64(need, amt);
    var stakeOut := TransferableOutput(u.asset, StakeableLockOut(lt, TransferOutput(staked, owners)));
    var changeOut := TransferableOutput(u.asset, StakeableLockOut(lt, TransferOutput(amt - staked, owners)));
    assert [stakeOut][..0] == [] && [changeOut][..0] == [];
    assert Amount(TransferOutput(staked, owners)) == staked;
    assert Amount(TransferOutput(amt - staked, owners)) == amt - staked;
    assert Amount(stakeOut.out) == staked && Amount(changeOut.out) == amt - staked;
  }

  /** Pass 2 on one unlocked or matured UTXO: burn first, then stake, then
      return the leftover, all as plain outputs to the change owner. */
  function UnlockedAllocation(u: Utxo, amt: U64, sigs: seq<nat>, needBurn: U64, needStake: U64,
                              changeOwner: OutputOwners): Allocation
  {
    var burned := Min64(needBurn, amt);
    var available := amt - burned;
    var staked := Min64(needStake, available);
    var left := available - staked;
    var stakeOut := TransferableOutput(u.asset, TransferOutput(staked, changeOwner));
    var changeOut := TransferableOutput(u.asset, TransferOutput(left, changeOwner));
    Allocation(TransferableInput(u.id, u.asset, Plain(TransferInput(amt, sigs))), burned, staked,
               if staked > 0 then [stakeOut] else [], if left > 0 then [changeOut] else [])
  }

  /** Per-UTXO conservation and priority in pass 2: the input carries the
      whole amount; the burn gets as much as it still needs first, the stake
      as much of the rest as it still needs, and only the leftover is
      returned; every output is of the UTXO's asset. */
  lemma UnlockedAllocationSplits(u: Utxo, amt: U64, sigs: seq<nat>, needBurn: U64, needStake: U64,
                                 changeOwner: OutputOwners)
    ensures var al := UnlockedAllocation(u, amt, sigs, needBurn, needStake, changeOwner);
            && al.input == TransferableInput(u.id, u.asset, Plain(TransferInput(amt, sigs)))
            && al.burned <= needBurn && (al.burned == needBurn || al.burned == amt)
            && al.staked <= needStake && (al.staked == needStake || al.burned + al.staked == amt)
            && OutputTotal(u.asset, al.stake) == al.staked
            && amt == al.burned + al.staked + OutputTotal(u.asset, al.change)
            && (forall o :: o in al.stake ==> o.asset == u.asset)
            && (forall o :: o in al.change ==> o.asset == u.asset)
  {
    var burned := Min64(needBurn, amt);
    var staked := Min64(needStake, amt - burned);
    var stakeOut := TransferableOutput(u.asset, TransferOutput(staked, changeOwner));
    var changeOut := TransferableOutput(u.asset, TransferOutput(amt - burned - staked, changeOwner));
    assert [stakeOut][..0] == [] && [changeOut][..0] == [];
  }

  /** In pass 2 every output made from a UTXO is a non-empty plain transfer
      to the change owner. */
  lemma UnlockedAllocationOwned(u: Utxo, amt: U64, sigs: seq<nat>, needBurn: U64, needStake: U64,
                                changeOwner: OutputOwners)
    ensures var al := UnlockedAllocation(u, amt, sigs, needBurn, needStake, changeOwner);
            && (forall o :: o in al.stake ==> OwnedBy(o, u.asset, changeOwner))
            && (forall o :: o in al.change ==> OwnedBy(o, u.asset, changeOwner))
  {
  }

  /** `q` is `p` after consuming the still-locked UTXO `u` in the first
      loop: one input of the whole amount that keeps the lock time, and new
      stake and change outputs that keep both the lock time and the owners. */
  ghost predicate LockSpent(u: Utxo, p: Plan, q: Plan)
  {
    && u.out.StakeableLockOut? && u.out.inner.TransferOutput?
    && |q.inputs| == |p.inputs| + 1 && q.inputs[..|p.inputs|] == p.inputs
    && q.inputs[|p.inputs|].utxoId == u.id && q.inputs[|p.inputs|].asset == u.asset
    && q.inputs[|p.inputs|].input.StakeableLockIn?
    && q.inputs[|p.inputs|].input.locktime == u.out.locktime
    && q.inputs[|p.inputs|].input.transfer.amt == u.out.inner.amt
    && p.stake <= q.stake && p.change <= q.change
    && (forall k :: |p.stake| <= k < |q.stake| ==> LockedTo(q.stake[k], u.asset, u.out.locktime, u.out.inner.owners))
    && (forall k :: |p.change| <= k < |q.change| ==> LockedTo(q.change[k], u.asset, u.out.locktime, u.out.inner.owners))
  }

  /** One iteration of the first loop (still-locked UTXOs, staking only). */
  function LockedStep(controlled: set<Address>, t: U64, u: Utxo, p: Plan): Result<Plan>
  {
    var need := Get(p.toStake, u.asset);
    if need == 0 || !StillLocked(u, t) then Ok(p)
    else if !u.out.inner.TransferOutput? then Err(UnknownOutputType)
    else
      var out := u.out.inner;
      match MatchSpec(controlled, out.owners, t)
      case None => Ok(p)
      case Some(sigs) =>
        var al := LockedAllocation(u, u.out.locktime, out.amt, out.owners, sigs, need);
        Ok(Plan(p.inputs + [al.input], p.change + al.change, p.stake + al.stake,
                p.toBurn, p.toStake[u.asset := need - al.staked]))
  }

  /** The first loop fails on a UTXO exactly when it is still locked, some of
      its asset is still to be staked, and the locked payload is not a
      transfer output; otherwise it either skips the UTXO or consumes it,
      burning nothing and keeping the lock. */
  lemma LockedStepSpends(controlled: set<Address>, t: U64, u: Utxo, p: Plan)
    ensures var r := LockedStep(controlled, t, u, p);
            && (r.Err? <==> Get(p.toStake, u.asset) > 0 && StillLocked(u, t) && !u.out.inner.TransferOutput?)
            && (r.Err? ==> r.error == UnknownOutputType)
            && (r.Ok? ==> r.value.toBurn == p.toBurn)
            && (r.Ok? ==> r.value == p || (StillLocked(u, t) && LockSpent(u, p, r.value)))
  {
    var r := LockedStep(controlled, t, u, p);
    if r.Ok? && r.value != p {
      var q := r.value;
      var out := u.out.inner;
      var sigs := MatchSpec(controlled, out.owners, t).value;
      var al := LockedAllocation(u, u.out.locktime, out.amt, out.owners, sigs, Get(p.toStake, u.asset));
      LockedAllocationSplits(u, u.out.locktime, out.amt, out.owners, sigs, Get(p.toStake, u.asset));
      assert q.inputs[..|p.inputs|] == p.inputs;
      assert forall k :: |p.stake| <= k < |q.stake| ==> q.stake[k] in al.stake;
      assert forall k :: |p.change| <= k < |q.change| ==> q.change[k] in al.change;
    }
  }

  /** `q` is `p` after consuming the unlocked or matured UTXO `u` in the
      second loop: one plain input of the whole amount, and new stake and
      change outputs that are plain transfers to the change owner. */
  ghost predicate PlainSpent(u: Utxo, changeOwner: OutputOwners, p: Plan, q: Plan)
  {
    && Unwrapped(u.out).TransferOutput?
    && |q.inputs| == |p.inputs| + 1 && q.inputs[..|p.inputs|] == p.inputs
    && q.inputs[|p.inputs|].utxoId == u.id && q.inputs[|p.inputs|].asset == u.asset
    && q.inputs[|p.inputs|].input.Plain?
    && q.inputs[|p.inputs|].input.transfer.amt == Unwrapped(u.out).amt
    && p.stake <= q.stake && p.change <= q.change
    && (forall k :: |p.stake| <= k < |q.stake| ==> OwnedBy(q.stake[k], u.asset, changeOwner))
    && (forall k :: |p.change| <= k < |q.change| ==> OwnedBy(q.change[k], u.asset, changeOwner))
  }

  /** One iteration of the second loop (unlocked and matured UTXOs). */
  function UnlockedStep(controlled: set<Address>, t: U64, changeOwner: OutputOwners, u: Utxo, p: Plan)
    : Result<Plan>
  {
    var needStake := Get(p.toStake, u.asset);
    var needBurn := Get(p.toBurn, u.asset);
    if needStake == 0 && needBurn == 0 then Ok(p)
    else if StillLocked(u, t) then Ok(p)
    else if !Unwrapped(u.out).TransferOutput? then Err(UnknownOutputType)
    else
      var out := Unwrapped(u.out);
      match MatchSpec(controlled, out.owners, t)
      case None => Ok(p)
      case Some(sigs) =>
        var al := UnlockedAllocation(u, out.amt, sigs, needBurn, needStake, changeOwner);
        Ok(Plan(p.inputs + [al.input], p.change + al.change, p.stake + al.stake,
                p.toBurn[u.asset := needBurn - al.burned], p.toStake[u.asset := needStake - al.staked]))
  }

  /** The second loop fails on a UTXO exactly when it is not still locked,
      some of its asset is still to be burned or staked, and its (unwrapped)
      payload is not a transfer output; otherwise it either skips the UTXO or
      consumes it into plain outputs to the change owner. */
  lemma UnlockedStepSpends(controlled: set<Address>, t: U64, changeOwner: OutputOwners, u: Utxo, p: Plan)
    ensures var r := UnlockedStep(controlled, t, changeOwner, u, p);
            && (r.Err? <==> (Get(p.toStake, u.asset) > 0 || Get(p.toBurn, u.asset) > 0)
                            && !StillLocked(u, t) && !Unwrapped(u.out).TransferOutput?)
            && (r.Err? ==> r.error == UnknownOutputType)
            && (r.Ok? ==> r.value == p || (!StillLocked(u, t) && PlainSpent(u, changeOwner, p, r.value)))
  {
    var r := UnlockedStep(controlled, t, changeOwner, u, p);
    if r.Ok? && r.value != p {
      var q := r.value;
      var out := Unwrapped(u.out);
      var sigs := MatchSpec(controlled, out.owners, t).value;
      var al := UnlockedAllocation(u, out.amt, sigs, Get(p.toBurn, u.asset), Get(p.toStake, u.asset), changeOwner);
      UnlockedAllocationSplits(u, out.amt, sigs, Get(p.toBurn, u.asset), Get(p.toStake, u.asset), changeOwner);
      UnlockedAllocationOwned(u, out.amt, sigs, Get(p.toBurn, u.asset), Get(p.toStake, u.asset), changeOwner);
      assert q.inputs[..|p.inputs|] == p.inputs;
      assert forall k :: |p.stake| <= k < |q.stake| ==> q.stake[k] in al.stake;
      assert forall k :: |p.change| <= k < |q.change| ==> q.change[k] in al.change;
    }
  }

  /** The first loop, from `p`, over `us` in order; it stops at the first error. */
  function LockedPass(controlled: set<Address>, t: U64, us: seq<Utxo>, p: Plan): Result<Plan>
    decreases |us|
  {
    if us == [] then Ok(p)
    else
      match LockedStep(controlled, t, us[0], p)
      case Err(e) => Err(e)
      case Ok(q) => LockedPass(controlled, t, us[1..], q)
  }

  /** The second loop, from `p`, over `us` in order; it stops at the first error. */
  function UnlockedPass(controlled: set<Address>, t: U64, changeOwner: OutputOwners, us: seq<Utxo>, p: Plan)
    : Result<Plan>
    decreases |us|
  {
    if us == [] then Ok(p)
    else
      match UnlockedStep(controlled, t, changeOwner, us[0], p)
      case Err(e) => Err(e)
      case Ok(q) => UnlockedPass(controlled, t, changeOwner, us[1..], q)
  }

  predicate AllZero(m: map<AssetId, U64>)
  {
    forall a :: a in m ==> m[a] == 0
  }

  /** spend as a function of its inputs and of the address ShortSet.Peek chose. */
  function SpendSpec(controlled: set<Address>, peek: Option<Address>, opts: Options, utxos: seq<Utxo>,
                     toBurn: map<AssetId, U64>, toStake: map<AssetId, U64>): Result<Spent>
  {
    match peek
    case None => Err(NoChangeAddress)
    case Some(addr) =>
      var t := opts.minIssuanceTime;
      match LockedPass(controlled, t, utxos, Plan([], [], [], toBurn, toStake))
      case Err(e) => Err(e)
      case Ok(p1) =>
        match UnlockedPass(controlled, t, ChangeOwner(opts, addr), utxos, p1)
        case Err(e) => Err(e)
        case Ok(p2) =>
          if AllZero(p2.toStake) && AllZero(p2.toBurn) then Ok(Spent(p2.inputs, p2.change, p2.stake))
          else Err(InsufficientFunds)
  }

  /** The body of the first loop of builder.spend on one UTXO. */
  method SpendLockedUtxo(controlled: set<Address>, t: U64, utxo: Utxo, p: Plan) returns (r: Result<Plan>)
    ensures r == LockedStep(controlled, t, utxo, p)
  {
    var inputs, changeOutputs, stakeOutputs := p.inputs, p.change, p.stake;
    var amountsToStake: map<AssetId, U64> := p.toStake;
    var remainingAmountToStake := Get(amountsToStake, utxo.asset);
    if remainingAmountToStake == 0 || !utxo.out.StakeableLockOut? || t >= utxo.out.locktime {
      return Ok(p);
    }
    var lockedOut := utxo.out;
    if !lockedOut.inner.TransferOutput? {
      return Err(UnknownOutputType);
    }
    var out := lockedOut.inner;
    var inputSigIndices, ok := Match(controlled, out.owners, t);
    if !ok {
      return Ok(p);
    }
    inputs := inputs + [TransferableInput(utxo.id, utxo.asset,
                           StakeableLockIn(lockedOut.locktime, TransferInput(out.amt, inputSigIndices)))];
    var amountToStake := Min64(remainingAmountToStake, out.amt);
    stakeOutputs := stakeOutputs + [TransferableOutput(utxo.asset,
                           StakeableLockOut(lockedOut.locktime, TransferOutput(amountToStake, out.owners)))];
    amountsToStake := amountsToStake[utxo.asset := remainingAmountToStake - amountToStake];
    var remainingAmount := out.amt - amountToStake;
    if remainingAmount > 0 {
      changeOutputs := changeOutputs + [TransferableOutput(utxo.asset,
                           StakeableLockOut(lockedOut.locktime, TransferOutput(remainingAmount, out.owners)))];
    } else {
      assert changeOutputs + [] == changeOutputs;
    }
    r := Ok(Plan(inputs, changeOutputs, stakeOutputs, p.toBurn, amountsToStake));
  }

  /** The first loop of builder.spend: still-locked UTXOs are staked into
      outputs that keep their lock. */
  method LockedLoop(controlled: set<Address>, t: U64, utxos: seq<Utxo>, p0: Plan) returns (r: Result<Plan>)
    ensures r == LockedPass(controlled, t, utxos, p0)
  {
    var p := p0;
    var i := 0;
    while i < |utxos|
      invariant 0 <= i <= |utxos|
      invariant LockedPass(controlled, t, utxos, p0) == LockedPass(controlled, t, utxos[i..], p)
    {
      assert utxos[i..][0] == utxos[i] && utxos[i..][1..] == utxos[i + 1..];
      var step := SpendLockedUtxo(controlled, t, utxos[i], p);
      if step.Err? {
        return Err(step.error);
      }
      p := step.value;
      i := i + 1;
    }
    assert utxos[i..] == [];
    r := Ok(p);
  }

  /** The body of the second loop of builder.spend on one UTXO. */
  method SpendUnlockedUtxo(controlled: set<Address>, t: U64, changeOwner: OutputOwners, utxo: Utxo, p: Plan)
    returns (r: Result<Plan>)
    ensures r == UnlockedStep(controlled, t, changeOwner, utxo, p)
  {
    var inputs, changeOutputs, stakeOutputs := p.inputs, p.change, p.stake;
    var amountsToBurn: map<AssetId, U64>, amountsToStake: map<AssetId, U64> := p.toBurn, p.toStake;
    var remainingAmountToStake := Get(amountsToStake, utxo.asset);
    var remainingAmountToBurn := Get(amountsToBurn, utxo.asset);
    if remainingAmountToStake == 0 && remainingAmountToBurn == 0 {
      return Ok(p);
    }
    var outIntf := utxo.out;
    if outIntf.StakeableLockOut? {
      if outIntf.locktime > t {
        return Ok(p);
      }
      outIntf := outIntf.inner;
    }
    if !outIntf.TransferOutput? {
      return Err(UnknownOutputType);
    }
    var out := outIntf;
    var inputSigIndices, ok := Match(controlled, out.owners, t);
    if !ok {
      return Ok(p);
    }
    inputs := inputs + [TransferableInput(utxo.id, utxo.asset, Plain(TransferInput(out.amt, inputSigIndices)))];
    var amountToBurn := Min64(remainingAmountToBurn, out.amt);
    amountsToBurn := amountsToBurn[utxo.asset := remainingAmountToBurn - amountToBurn];
    var amountAvailableToStake := out.amt - amountToBurn;
    var amountToStake := Min64(remainingAmountToStake, amountAvailableToStake);
    amountsToStake := amountsToStake[utxo.asset := remainingAmountToStake - amountToStake];
    if amountToStake > 0 {
      stakeOutputs := stakeOutputs + [TransferableOutput(utxo.asset, TransferOutput(amountToStake, changeOwner))];
    } else {
      assert stakeOutputs + [] == stakeOutputs;
    }
    var remainingAmount := amountAvailableToStake - amountToStake;
    if remainingAmount > 0 {
      changeOutputs := changeOutputs + [TransferableOutput(utxo.asset, TransferOutput(remainingAmount, changeOwner))];
    } else {
      assert changeOutputs + [] == changeOutputs;
    }
    r := Ok(Plan(inputs, changeOutputs, stakeOutputs, amountsToBurn, amountsToStake));
  }

  /** The second loop of builder.spend: unlocked and matured UTXOs are burned,
      then staked, then returned as change. */
  method UnlockedLoop(controlled: set<Address>, t: U64, changeOwner: OutputOwners, utxos: seq<Utxo>, p0: Plan)
    returns (r: Result<Plan>)
    ensures r == UnlockedPass(controlled, t, changeOwner, utxos, p0)
  {
    var p := p0;
    var i := 0;
    while i < |utxos|
      invariant 0 <= i <= |utxos|
      invariant UnlockedPass(controlled, t, changeOwner, utxos, p0)
             == UnlockedPass(controlled, t, changeOwner, utxos[i..], p)
    {
      assert utxos[i..][0] == utxos[i] && utxos[i..][1..] == utxos[i + 1..];
      var step := SpendUnlockedUtxo(controlled, t, changeOwner, utxos[i], p);
      if step.Err? {
        return Err(step.error);
      }
      p := step.value;
      i := i + 1;
    }
    assert utxos[i..] == [];
    r := Ok(p);
  }

  /** The closing check of builder.spend: every remaining amount is zero. */
  method CheckAllZero(m: map<AssetId, U64>) returns (ok: bool)
    ensures ok == AllZero(m)
  {
    var keys := m.Keys;
    while keys != {}
      invariant keys <= m.Keys
      invariant forall a :: a in m && a !in keys ==> m[a] == 0
      decreases keys
    {
      var a :| a in keys;
      if m[a] != 0 {
        return false;
      }
      keys := keys - {a};
    }
    return true;
  }

  /** builder.spend: needs a change address, runs both loops, and fails
      unless every burn and stake request was met. */
  method Spend(controlled: set<Address>, opts: Options, utxos: seq<Utxo>,
               toBurn: map<AssetId, U64>, toStake: map<AssetId, U64>)
    returns (r: Result<Spent>, ghost peek: Option<Address>)
    ensures IsPeek(controlled, peek)
    ensures r == SpendSpec(controlled, peek, opts, utxos, toBurn, toStake)
    ensures controlled == {} ==> r == Err(NoChangeAddress)
  {
    if controlled == {} {
      return Err(NoChangeAddress), None;
    }
    var addr :| addr in controlled;
    peek := Some(addr);
    var t := opts.minIssuanceTime;
    var changeOwner := match opts.changeOwner case Some(o) => o case None => OutputOwners(0, 1, [addr]);
    assert changeOwner == ChangeOwner(opts, addr);

    var locked := LockedLoop(controlled, t, utxos, Plan([], [], [], toBurn, toStake));
    if locked.Err? {
      return Err(locked.error), peek;
    }
    var unlocked := UnlockedLoop(controlled, t, changeOwner, utxos, locked.value);
    if unlocked.Err? {
      return Err(unlocked.error), peek;
    }
    var p := unlocked.value;
    var stakeMet := CheckAllZero(p.toStake);
    if !stakeMet {
      return Err(InsufficientFunds), peek;
    }
    var burnMet := CheckAllZero(p.toBurn);
    if !burnMet {
      return Err(InsufficientFunds), peek;
    }
    r := Ok(Spent(p.inputs, p.change, p.stake));
  }
}
