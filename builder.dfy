/** The seven transaction assemblers of the P-chain builder. Each turns a
    request into burn and stake amounts, lets spend pick the inputs, and
    composes the unsigned transaction. The backend's reads are parameters:
    `ctx` is the chain context, `utxos` the wallet's P-chain UTXOs,
    `sourceUtxos` the UTXOs offered by an import's source chain and
    `subnetTx` the result of looking up a subnet's creating transaction. */
module Builder {
  import opened Types
  import opened Sorting
  import opened Matcher
  import opened Spender
  import opened SpendProps
  import opened SubnetAuth

  /** The common part of every P-chain transaction the builder makes. */
  function Base(ctx: ChainContext, opts: Options, ins: seq<TransferableInput>, outs: seq<TransferableOutput>)
    : BaseTx
  {
    BaseTx(ctx.networkId, PLATFORM_CHAIN_ID, ins, outs, opts.memo)
  }

  /** An owner set with its addresses in canonical order (ids.SortShortIDs). */
  function SortedOwners(o: OutputOwners): (r: OutputOwners)
    ensures r.locktime == o.locktime && r.threshold == o.threshold
    ensures Sorted(r.addrs) && multiset(r.addrs) == multiset(o.addrs)
  {
    OutputOwners(o.locktime, o.threshold, SortIds(o.addrs))
  }

  /** Value balance of a built transaction: for every asset, the inputs pay
      exactly for the outputs, the set-aside outputs (stake or exported) and
      the burn. */
  ghost predicate Balanced(ins: seq<TransferableInput>, outs: seq<TransferableOutput>,
                           aside: seq<TransferableOutput>, burn: map<AssetId, U64>)
  {
    forall a :: InputTotal(a, ins) == OutputTotal(a, outs) + OutputTotal(a, aside) + Get(burn, a)
  }

  /** The stake outputs hold exactly `weight` of the native asset and nothing
      else. */
  ghost predicate StakesWeight(ctx: ChainContext, stake: seq<TransferableOutput>, weight: U64)
  {
    forall a :: OutputTotal(a, stake) == (if a == ctx.nativeAsset then weight else 0)
  }

  /** builder.NewAddValidatorTx: stakes the validator's weight of the native
      asset and burns nothing. */
  method NewAddValidatorTx(addrs: set<Address>, ctx: ChainContext, utxos: seq<Utxo>, opts: Options,
                           validator: Validator, rewardsOwner: OutputOwners, shares: U32)
    returns (r: Result<UnsignedTx>, ghost peek: Option<Address>)
    ensures IsPeek(addrs, peek)
    ensures var spent := SpendSpec(addrs, peek, opts, utxos, map[], map[ctx.nativeAsset := validator.weight]);
            && (spent.Err? ==> r == Err(spent.error))
            && (spent.Ok? ==> r == Ok(AddValidatorTx(Base(ctx, opts, spent.value.inputs, spent.value.change),
                                                     validator, spent.value.stake, SortedOwners(rewardsOwner), shares)))
    ensures r.Ok? ==> StakesWeight(ctx, r.value.stake, validator.weight)
                      && Balanced(r.value.base.ins, r.value.base.outs, r.value.stake, map[])
  {
    var toBurn: map<AssetId, U64> := map[];
    var toStake := map[ctx.nativeAsset := validator.weight];
    var spent;
    spent, peek := Spend(addrs, opts, utxos, toBurn, toStake);
    if spent.Err? {
      return Err(spent.error), peek;
    }
    forall a ensures OutputTotal(a, spent.value.stake) == Get(toStake, a)
                     && InputTotal(a, spent.value.inputs) == Get(toStake, a) + OutputTotal(a, spent.value.change)
    {
      SpendMeetsRequests(addrs, peek, opts, utxos, toBurn, toStake, a);
    }
    var owner := SortedOwners(rewardsOwner);
    r := Ok(AddValidatorTx(Base(ctx, opts, spent.value.inputs, spent.value.change),
                           validator, spent.value.stake, owner, shares));
  }

  /** builder.NewAddSubnetValidatorTx: burns the subnet fee, then authorizes
      the validator's subnet. */
  method NewAddSubnetValidatorTx(addrs: set<Address>, ctx: ChainContext, utxos: seq<Utxo>, opts: Options,
                                 validator: SubnetValidator, subnetTx: Lookup)
    returns (r: Result<UnsignedTx>, ghost peek: Option<Address>)
    ensures IsPeek(addrs, peek)
    ensures var spent := SpendSpec(addrs, peek, opts, utxos, map[ctx.nativeAsset := ctx.createSubnetTxFee], map[]);
            var auth := AuthorizeSpec(addrs, subnetTx, opts.minIssuanceTime);
            && (spent.Err? ==> r == Err(spent.error))
            && (spent.Ok? && auth.Err? ==> r == Err(auth.error))
            && (spent.Ok? && auth.Ok? ==>
                  r == Ok(AddSubnetValidatorTx(Base(ctx, opts, spent.value.inputs, spent.value.change),
                                               validator, auth.value)))
    ensures r.Ok? ==> Balanced(r.value.base.ins, r.value.base.outs, [], map[ctx.nativeAsset := ctx.createSubnetTxFee])
  {
    var toBurn := map[ctx.nativeAsset := ctx.createSubnetTxFee];
    var toStake: map<AssetId, U64> := map[];
    var spent;
    spent, peek := Spend(addrs, opts, utxos, toBurn, toStake);
    if spent.Err? {
      return Err(spent.error), peek;
    }
    forall a ensures InputTotal(a, spent.value.inputs) == Get(toBurn, a) + OutputTotal(a, spent.value.change)
    {
      SpendMeetsRequests(addrs, peek, opts, utxos, toBurn, toStake, a);
    }
    var subnetAuth := AuthorizeSubnet(addrs, subnetTx, opts.minIssuanceTime);
    if subnetAuth.Err? {
      return Err(subnetAuth.error), peek;
    }
    r := Ok(AddSubnetValidatorTx(Base(ctx, opts, spent.value.inputs, spent.value.change),
                                 validator, subnetAuth.value));
  }

  /** builder.NewAddDelegatorTx: stakes the delegated weight of the native
      asset and burns nothing. */
  method NewAddDelegatorTx(addrs: set<Address>, ctx: ChainContext, utxos: seq<Utxo>, opts: Options,
                           validator: Validator, rewardsOwner: OutputOwners)
    returns (r: Result<UnsignedTx>, ghost peek: Option<Address>)
    ensures IsPeek(addrs, peek)
    ensures var spent := SpendSpec(addrs, peek, opts, utxos, map[], map[ctx.nativeAsset := validator.weight]);
            && (spent.Err? ==> r == Err(spent.error))
            && (spent.Ok? ==> r == Ok(AddDelegatorTx(Base(ctx, opts, spent.value.inputs, spent.value.change),
                                                     validator, spent.value.stake, SortedOwners(rewardsOwner))))
    ensures r.Ok? ==> StakesWeight(ctx, r.value.stake, validator.weight)
                      && Balanced(r.value.base.ins, r.value.base.outs, r.value.stake, map[])
  {
    var toBurn: map<AssetId, U64> := map[];
    var toStake := map[ctx.nativeAsset := validator.weight];
    var spent;
    spent, peek := Spend(addrs, opts, utxos, toBurn, toStake);
    if spent.Err? {
      return Err(spent.error), peek;
    }
    forall a ensures OutputTotal(a, spent.value.stake) == Get(toStake, a)
                     && InputTotal(a, spent.value.inputs) == Get(toStake, a) + OutputTotal(a, spent.value.change)
    {
      SpendMeetsRequests(addrs, peek, opts, utxos, toBurn, toStake, a);
    }
    var owner := SortedOwners(rewardsOwner);
    r := Ok(AddDelegatorTx(Base(ctx, opts, spent.value.inputs, spent.value.change),
                           validator, spent.value.stake, owner));
  }

  /** builder.NewCreateChainTx: burns the subnet fee, authorizes the subnet,
      and lists the feature extensions in canonical order. */
  method NewCreateChainTx(addrs: set<Address>, ctx: ChainContext, utxos: seq<Utxo>, opts: Options,
                          subnetId: TxId, subnetTx: Lookup, genesis: seq<bv8>, vmId: nat, fxIds: seq<nat>,
                          chainName: string)
    returns (r: Result<UnsignedTx>, ghost peek: Option<Address>)
    ensures IsPeek(addrs, peek)
    ensures var spent := SpendSpec(addrs, peek, opts, utxos, map[ctx.nativeAsset := ctx.createSubnetTxFee], map[]);
            var auth := AuthorizeSpec(addrs, subnetTx, opts.minIssuanceTime);
            && (spent.Err? ==> r == Err(spent.error))
            && (spent.Ok? && auth.Err? ==> r == Err(auth.error))
            && (spent.Ok? && auth.Ok? ==>
                  && r.Ok? && r.value.CreateChainTx?
                  && r.value.base == Base(ctx, opts, spent.value.inputs, spent.value.change)
                  && r.value.subnetId == subnetId && r.value.chainName == chainName && r.value.vmId == vmId
                  && r.value.genesis == genesis && r.value.subnetAuth == auth.value)
    ensures r.Ok? ==> Sorted(r.value.fxIds) && multiset(r.value.fxIds) == multiset(fxIds)
    ensures r.Ok? ==> Balanced(r.value.base.ins, r.value.base.outs, [], map[ctx.nativeAsset := ctx.createSubnetTxFee])
  {
    var toBurn := map[ctx.nativeAsset := ctx.createSubnetTxFee];
    var toStake: map<AssetId, U64> := map[];
    var spent;
    spent, peek := Spend(addrs, opts, utxos, toBurn, toStake);
    if spent.Err? {
      return Err(spent.error), peek;
    }
    forall a ensures InputTotal(a, spent.value.inputs) == Get(toBurn, a) + OutputTotal(a, spent.value.change)
    {
      SpendMeetsRequests(addrs, peek, opts, utxos, toBurn, toStake, a);
    }
    var subnetAuth := AuthorizeSubnet(addrs, subnetTx, opts.minIssuanceTime);
    if subnetAuth.Err? {
      return Err(subnetAuth.error), peek;
    }
    var sortedFxIds := SortIds(fxIds);
    r := Ok(CreateChainTx(Base(ctx, opts, spent.value.inputs, spent.value.change),
                          subnetId, chainName, vmId, sortedFxIds, genesis, subnetAuth.value));
  }

  /** builder.NewCreateSubnetTx: burns the subnet fee and records the owner
      with its addresses in canonical order. */
  method NewCreateSubnetTx(addrs: set<Address>, ctx: ChainContext, utxos: seq<Utxo>, opts: Options,
                           owner: OutputOwners)
    returns (r: Result<UnsignedTx>, ghost peek: Option<Address>)
    ensures IsPeek(addrs, peek)
    ensures var spent := SpendSpec(addrs, peek, opts, utxos, map[ctx.nativeAsset := ctx.createSubnetTxFee], map[]);
            && (spent.Err? ==> r == Err(spent.error))
            && (spent.Ok? ==> r == Ok(CreateSubnetTx(Base(ctx, opts, spent.value.inputs, spent.value.change),
                                                     SecpOwners(SortedOwners(owner)))))
    ensures r.Ok? ==> Balanced(r.value.base.ins, r.value.base.outs, [], map[ctx.nativeAsset := ctx.createSubnetTxFee])
  {
    var toBurn := map[ctx.nativeAsset := ctx.createSubnetTxFee];
    var toStake: map<AssetId, U64> := map[];
    var spent;
    spent, peek := Spend(addrs, opts, utxos, toBurn, toStake);
    if spent.Err? {
      return Err(spent.error), peek;
    }
    forall a ensures InputTotal(a, spent.value.inputs) == Get(toBurn, a) + OutputTotal(a, spent.value.change)
    {
      SpendMeetsRequests(addrs, peek, opts, utxos, toBurn, toStake, a);
    }
    var sortedOwner := SortedOwners(owner);
    r := Ok(CreateSubnetTx(Base(ctx, opts, spent.value.inputs, spent.value.change), SecpOwners(sortedOwner)));
  }

  /** What NewExportTx must burn of asset `a`: the base fee on the native
      asset plus every exported amount of `a`. */
  function ExportRequired(ctx: ChainContext, outputs: seq<TransferableOutput>, a: AssetId): nat
  {
    (if a == ctx.nativeAsset then ctx.baseTxFee else 0) + OutputTotal(a, outputs)
  }

  /** The burn-request loop of builder.NewExportTx: starting from the base fee
      on the native asset, adds each exported amount to its asset's entry with
      math.Add64, stopping at the first overflow. */
  method ExportBurns(ctx: ChainContext, outputs: seq<TransferableOutput>) returns (r: Result<map<AssetId, U64>>)
    ensures r.Ok? <==> forall a :: ExportRequired(ctx, outputs, a) <= MAX_U64
    ensures r.Ok? ==> r.value.Keys == {ctx.nativeAsset} + AssetsOf(outputs)
                      && forall a :: Get(r.value, a) == ExportRequired(ctx, outputs, a)
    ensures r.Err? ==> r.error == Overflow
  {
    var toBurn: map<AssetId, U64> := map[ctx.nativeAsset := ctx.baseTxFee];
    var i := 0;
    assert outputs[..0] == [];
    while i < |outputs|
      invariant 0 <= i <= |outputs|
      invariant toBurn.Keys == {ctx.nativeAsset} + AssetsOf(outputs[..i])
      invariant forall a :: Get(toBurn, a) == ExportRequired(ctx, outputs[..i], a)
    {
      var out := outputs[i];
      assert outputs[..i + 1][..i] == outputs[..i] && outputs[..i + 1][i] == out;
      var amountToBurn := Add64(Get(toBurn, out.asset), Amount(out.out));
      if amountToBurn.Err? {
        OutputTotalPrefix(out.asset, outputs, i + 1);
        assert ExportRequired(ctx, outputs, out.asset) > MAX_U64;
        return Err(amountToBurn.error);
      }
      forall a ensures ExportRequired(ctx, outputs[..i + 1], a)
                       == ExportRequired(ctx, outputs[..i], a) + (if a == out.asset then Amount(out.out) else 0)
      {
        assert OutputTotal(a, outputs[..i + 1])
            == OutputTotal(a, outputs[..i + 1][..i]) + (if out.asset == a then Amount(out.out) else 0);
      }
      ghost var before := toBurn;
      toBurn := toBurn[out.asset := amountToBurn.value];
      assert forall a :: Get(toBurn, a) == Get(before, a) + (if a == out.asset then Amount(out.out) else 0);
      assert forall a :: Get(toBurn, a) == ExportRequired(ctx, outputs[..i + 1], a);
      i := i + 1;
    }
    assert outputs[..i] == outputs;
    r := Ok(toBurn);
  }

  /** builder.NewExportTx: burns the fee and the exported amounts from the
      wallet's UTXOs, which pays for the exported outputs. */
  method NewExportTx(addrs: set<Address>, ctx: ChainContext, utxos: seq<Utxo>, opts: Options,
                     chainId: ChainId, outputs: seq<TransferableOutput>)
    returns (r: Result<UnsignedTx>, ghost peek: Option<Address>)
    ensures IsPeek(addrs, peek)
    ensures (exists a :: ExportRequired(ctx, outputs, a) > MAX_U64) ==> r == Err(Overflow)
    ensures (forall a :: ExportRequired(ctx, outputs, a) <= MAX_U64) ==>
              exists toBurn: map<AssetId, U64> ::
                && (forall a :: Get(toBurn, a) == ExportRequired(ctx, outputs, a))
                && var spent := SpendSpec(addrs, peek, opts, utxos, toBurn, map[]);
                   && (spent.Err? ==> r == Err(spent.error))
                   && (spent.Ok? ==> r == Ok(ExportTx(Base(ctx, opts, spent.value.inputs, spent.value.change),
                                                      chainId, outputs)))
    ensures r.Ok? ==> Balanced(r.value.base.ins, r.value.base.outs, r.value.exportedOutputs,
                               map[ctx.nativeAsset := ctx.baseTxFee])
  {
    var burns := ExportBurns(ctx, outputs);
    if burns.Err? {
      return Err(burns.error), if addrs == {} then None else var x :| x in addrs; Some(x);
    }
    var toBurn := burns.value;
    var toStake: map<AssetId, U64> := map[];
    var spent;
    spent, peek := Spend(addrs, opts, utxos, toBurn, toStake);
    if spent.Err? {
      return Err(spent.error), peek;
    }
    forall a ensures InputTotal(a, spent.value.inputs) == Get(toBurn, a) + OutputTotal(a, spent.value.change)
    {
      SpendMeetsRequests(addrs, peek, opts, utxos, toBurn, toStake, a);
    }
    r := Ok(ExportTx(Base(ctx, opts, spent.value.inputs, spent.value.change), chainId, outputs));
  }

  /** A source-chain UTXO that NewImportTx imports: a plain transfer output of
      the native asset whose owners the wallet can satisfy at `t`. */
  predicate Importable(addrs: set<Address>, t: U64, native: AssetId, u: Utxo)
  {
    u.asset == native && u.out.TransferOutput? && MatchSpec(addrs, u.out.owners, t).Some?
  }

  /** The input that imports such a UTXO: its whole amount, signed by the
      matched owner indices. */
  function ImportInput(addrs: set<Address>, t: U64, native: AssetId, u: Utxo): TransferableInput
    requires Importable(addrs, t, native, u)
  {
    TransferableInput(u.id, u.asset, Plain(TransferInput(u.out.amt, MatchSpec(addrs, u.out.owners, t).value)))
  }

  /** The imported inputs of NewImportTx, in UTXO order: one for each
      importable UTXO. */
  function ImportedInputs(addrs: set<Address>, t: U64, native: AssetId, us: seq<Utxo>)
    : (r: seq<TransferableInput>)
    ensures |r| <= |us|
    decreases |us|
  {
    if us == [] then []
    else
      var n := |us| - 1;
      var last := us[n];
      ImportedInputs(addrs, t, native, us[..n])
      + (if Importable(addrs, t, native, last) then [ImportInput(addrs, t, native, last)] else [])
  }

  /** Every imported input is a plain input of the native asset that spends
      one of the offered importable UTXOs whole, signed by its matched
      owners. */
  lemma {:induction false} ImportedInputsSpendOffered(addrs: set<Address>, t: U64, native: AssetId, us: seq<Utxo>)
    ensures forall x :: x in ImportedInputs(addrs, t, native, us) ==>
              && x.asset == native && x.input.Plain?
              && exists u :: u in us && Importable(addrs, t, native, u) && x == ImportInput(addrs, t, native, u)
    decreases |us|
  {
    if us != [] {
      var n := |us| - 1;
      ImportedInputsSpendOffered(addrs, t, native, us[..n]);
      assert forall u :: u in us[..n] ==> u in us;
    }
  }

  /** Nothing is imported exactly when no offered UTXO is importable. */
  lemma {:induction false} ImportedInputsEmpty(addrs: set<Address>, t: U64, native: AssetId, us: seq<Utxo>)
    ensures ImportedInputs(addrs, t, native, us) == [] <==> forall u :: u in us ==> !Importable(addrs, t, native, u)
    decreases |us|
  {
    if us != [] {
      var n := |us| - 1;
      ImportedInputsEmpty(addrs, t, native, us[..n]);
      assert forall u :: u in us ==> u in us[..n] || u == us[n];
      assert forall u :: u in us[..n] ==> u in us;
    }
  }

  /** The import consumes every available UTXO: each offered UTXO that is
      importable yields its input. */
  lemma {:induction false} ImportedInputsComplete(addrs: set<Address>, t: U64, native: AssetId, us: seq<Utxo>)
    ensures forall u :: u in us && Importable(addrs, t, native, u) ==>
              ImportInput(addrs, t, native, u) in ImportedInputs(addrs, t, native, us)
    decreases |us|
  {
    if us != [] {
      var n := |us| - 1;
      ImportedInputsComplete(addrs, t, native, us[..n]);
      assert forall u :: u in us ==> u in us[..n] || u == us[n];
    }
  }

  /** The inputs imported from a prefix of the UTXO list are a prefix of
      those imported from the whole list. */
  lemma {:induction false} ImportedInputsPrefix(addrs: set<Address>, t: U64, native: AssetId, us: seq<Utxo>, i: nat)
    requires i <= |us|
    ensures ImportedInputs(addrs, t, native, us[..i]) <= ImportedInputs(addrs, t, native, us)
    decreases |us|
  {
    if i == |us| {
      assert us[..i] == us;
    } else {
      var n := |us| - 1;
      assert us[..n][..i] == us[..i];
      ImportedInputsPrefix(addrs, t, native, us[..n], i);
    }
  }

  /** Scanning one more UTXO adds at most its own input. */
  lemma ImportedInputsSnoc(addrs: set<Address>, t: U64, native: AssetId, us: seq<Utxo>, i: nat)
    requires i < |us|
    ensures ImportedInputs(addrs, t, native, us[..i + 1])
            == ImportedInputs(addrs, t, native, us[..i])
               + (if Importable(addrs, t, native, us[i]) then [ImportInput(addrs, t, native, us[i])] else [])
  {
    assert us[..i + 1][..i] == us[..i] && us[..i + 1][i] == us[i];
  }

  /** What the import loop collects. */
  datatype Imported = Imported(inputs: seq<TransferableInput>, amount: U64)

  /** The import loop of builder.NewImportTx: collects an input for each
      importable UTXO and sums the imported amount with math.Add64, failing
      on the first overflow. */
  method ImportScan(addrs: set<Address>, t: U64, native: AssetId, utxos: seq<Utxo>) returns (r: Result<Imported>)
    ensures r.Ok? <==> InputTotal(native, ImportedInputs(addrs, t, native, utxos)) <= MAX_U64
    ensures r.Ok? ==> r.value.inputs == ImportedInputs(addrs, t, native, utxos)
                      && r.value.amount == InputTotal(native, r.value.inputs)
    ensures r.Err? ==> r.error == Overflow
  {
    var importedInputs: seq<TransferableInput> := [];
    var importedAmount: U64 := 0;
    var i := 0;
    assert utxos[..0] == [];
    while i < |utxos|
      invariant 0 <= i <= |utxos|
      invariant importedInputs == ImportedInputs(addrs, t, native, utxos[..i])
      invariant importedAmount == InputTotal(native, importedInputs)
    {
      var utxo := utxos[i];
      ImportedInputsSnoc(addrs, t, native, utxos, i);
      if utxo.asset == native && utxo.out.TransferOutput? {
        var out := utxo.out;
        var inputSigIndices, ok := Match(addrs, out.owners, t);
        if ok {
          var input := TransferableInput(utxo.id, utxo.asset, Plain(TransferInput(out.amt, inputSigIndices)));
          assert input == ImportInput(addrs, t, native, utxo);
          InputTotalAppend(native, importedInputs, input);
          importedInputs := importedInputs + [input];
          var newImportedAmount := Add64(importedAmount, out.amt);
          if newImportedAmount.Err? {
            ImportedInputsPrefix(addrs, t, native, utxos, i + 1);
            InputTotalPrefix(native, importedInputs, ImportedInputs(addrs, t, native, utxos));
            return Err(newImportedAmount.error);
          }
          importedAmount := newImportedAmount.value;
        }
      }
      i := i + 1;
    }
    assert utxos[..i] == utxos;
    r := Ok(Imported(importedInputs, importedAmount));
  }

  /** When the import falls short of the fee, the local inputs that burn
      the shortfall make the whole transaction pay exactly the fee. */
  lemma ImportShortfallBalanced(addrs: set<Address>, t: U64, native: AssetId, sourceUtxos: seq<Utxo>, fee: U64,
                                inputs: seq<TransferableInput>, outputs: seq<TransferableOutput>)
    requires InputTotal(native, ImportedInputs(addrs, t, native, sourceUtxos)) < fee
    requires forall a :: InputTotal(a, inputs)
                         == Get(map[native := fee - InputTotal(native, ImportedInputs(addrs, t, native, sourceUtxos))], a)
                            + OutputTotal(a, outputs)
    ensures Balanced(ImportedInputs(addrs, t, native, sourceUtxos) + inputs, outputs, [], map[native := fee])
  {
    var imported := ImportedInputs(addrs, t, native, sourceUtxos);
    ImportedInputsSpendOffered(addrs, t, native, sourceUtxos);
    forall a ensures InputTotal(a, imported + inputs) == OutputTotal(a, outputs) + OutputTotal(a, []) + Get(map[native := fee], a)
    {
      InputTotalConcat(a, imported, inputs);
      if a != native {
        InputTotalOther(a, imported);
      }
    }
  }

  /** When the import covers the fee, the imported inputs alone pay exactly
      the fee and the surplus output. */
  lemma ImportSurplusBalanced(addrs: set<Address>, t: U64, native: AssetId, sourceUtxos: seq<Utxo>, fee: U64,
                              to: OutputOwners)
    requires fee <= InputTotal(native, ImportedInputs(addrs, t, native, sourceUtxos)) <= MAX_U64
    ensures var imported := ImportedInputs(addrs, t, native, sourceUtxos);
            var amount := InputTotal(native, imported);
            Balanced(imported + [],
                     if amount > fee then [TransferableOutput(native, TransferOutput(amount - fee, to))] else [],
                     [], map[native := fee])
  {
    var imported := ImportedInputs(addrs, t, native, sourceUtxos);
    var amount := InputTotal(native, imported);
    var outputs := if amount > fee then [TransferableOutput(native, TransferOutput(amount - fee, to))] else [];
    ImportedInputsSpendOffered(addrs, t, native, sourceUtxos);
    assert imported + [] == imported;
    if outputs != [] {
      assert outputs[..0] == [];
      assert Amount(outputs[0].out) == amount - fee;
    }
    forall a ensures InputTotal(a, imported) == OutputTotal(a, outputs) + OutputTotal(a, []) + Get(map[native := fee], a)
    {
      if a != native {
        InputTotalOther(a, imported);
      }
    }
  }

  /** builder.NewImportTx, with the surplus paid to `to` as documented: imports
      every importable UTXO offered by the source chain; when the imported
      amount is below the base fee, spend burns the shortfall from the
      wallet's own UTXOs; when it is above, one output returns the surplus to
      `to`. */
  method NewImportTx(addrs: set<Address>, ctx: ChainContext, utxos: seq<Utxo>, opts: Options,
                     sourceChain: ChainId, sourceUtxos: seq<Utxo>, to: OutputOwners)
    returns (r: Result<UnsignedTx>, ghost peek: Option<Address>)
    ensures IsPeek(addrs, peek)
    ensures var native := ctx.nativeAsset;
            var fee := ctx.baseTxFee;
            var imported := ImportedInputs(addrs, opts.minIssuanceTime, native, sourceUtxos);
            var amount := InputTotal(native, imported);
            && (amount > MAX_U64 ==> r == Err(Overflow))
            && (amount <= MAX_U64 && imported == [] ==> r == Err(InsufficientFunds))
            && (amount <= MAX_U64 && imported != [] && amount < fee ==>
                  var spent := SpendSpec(addrs, peek, opts, utxos, map[native := fee - amount], map[]);
                  && (spent.Err? ==> r == Err(spent.error))
                  && (spent.Ok? ==> r == Ok(ImportTx(Base(ctx, opts, spent.value.inputs, spent.value.change),
                                                     sourceChain, imported))))
            && (amount <= MAX_U64 && imported != [] && amount >= fee ==>
                  r == Ok(ImportTx(Base(ctx, opts, [],
                                        if amount > fee
                                        then [TransferableOutput(native, TransferOutput(amount - fee, to))]
                                        else []),
                                   sourceChain, imported)))
    ensures r.Ok? ==> Balanced(r.value.importedInputs + r.value.base.ins, r.value.base.outs, [],
                               map[ctx.nativeAsset := ctx.baseTxFee])
  {
    var native := ctx.nativeAsset;
    var txFee := ctx.baseTxFee;
    var scan := ImportScan(addrs, opts.minIssuanceTime, native, sourceUtxos);
    if scan.Err? {
      return Err(scan.error), if addrs == {} then None else var x :| x in addrs; Some(x);
    }
    var importedInputs := scan.value.inputs;
    var importedAmount := scan.value.amount;
    if |importedInputs| == 0 {
      return Err(InsufficientFunds), if addrs == {} then None else var x :| x in addrs; Some(x);
    }
    var inputs: seq<TransferableInput> := [];
    var outputs: seq<TransferableOutput> := [];
    if importedAmount < txFee {
      var toBurn := map[native := txFee - importedAmount];
      var toStake: map<AssetId, U64> := map[];
      var spent;
      spent, peek := Spend(addrs, opts, utxos, toBurn, toStake);
      if spent.Err? {
        return Err(spent.error), peek;
      }
      forall a ensures InputTotal(a, spent.value.inputs) == Get(toBurn, a) + OutputTotal(a, spent.value.change)
      {
        SpendMeetsRequests(addrs, peek, opts, utxos, toBurn, toStake, a);
      }
      inputs := spent.value.inputs;
      outputs := spent.value.change;
      ImportShortfallBalanced(addrs, opts.minIssuanceTime, native, sourceUtxos, txFee, inputs, outputs);
    } else {
      peek := if addrs == {} then None else var x :| x in addrs; Some(x);
      if importedAmount > txFee {
        outputs := [TransferableOutput(native, TransferOutput(importedAmount - txFee, to))];
      }
      ImportSurplusBalanced(addrs, opts.minIssuanceTime, native, sourceUtxos, txFee, to);
    }
    r := Ok(ImportTx(Base(ctx, opts, inputs, outputs), sourceChain, importedInputs));
  }

  /** The surplus output of builder.NewImportTx as written: it is addressed
      to the change owner (the caller's override, else the peeked wallet
      address) and needs a wallet address even though `to` is given. */
  function ImportSurplusAsWritten(peek: Option<Address>, opts: Options, native: AssetId, surplus: U64,
                                  to: OutputOwners): (r: Result<TransferableOutput>)
    ensures peek.None? ==> r == Err(NoChangeAddress)
    ensures peek.Some? ==> r.Ok? && r.value.out.TransferOutput? && r.value.out.amt == surplus
                           && r.value.out.owners == ChangeOwner(opts, peek.value)
  {
    match peek
    case None => Err(NoChangeAddress)
    case Some(addr) =>
      var changeOwner := ChangeOwner(opts, addr);
      Ok(TransferableOutput(native, TransferOutput(surplus, changeOwner)))
  }

  /** The imported surplus does not reach `to`: a wallet holding address 1
      that imports for owner {2} pays the surplus to address 1, and a wallet
      with no address of its own cannot import a surplus at all. */
  lemma ImportSurplusIgnoresTo(native: AssetId, surplus: U64)
    ensures var opts := Options(0, None, []);
            var to := OutputOwners(0, 1, [2]);
            && ImportSurplusAsWritten(Some(1), opts, native, surplus, to).value.out.owners != to
            && ImportSurplusAsWritten(None, opts, native, surplus, to).Err?
  {
    assert [1] != [2] by {
      assert [1][0] != [2][0];
    }
  }

  /** builder.NewImportTx as written: identical to NewImportTx except that a
      surplus goes to the change owner through ImportSurplusAsWritten, so a
      wallet without an address of its own fails there with
      NoChangeAddress. */
  method NewImportTxAsWritten(addrs: set<Address>, ctx: ChainContext, utxos: seq<Utxo>, opts: Options,
                              sourceChain: ChainId, sourceUtxos: seq<Utxo>, to: OutputOwners)
    returns (r: Result<UnsignedTx>, ghost peek: Option<Address>)
    ensures IsPeek(addrs, peek)
    ensures var native := ctx.nativeAsset;
            var fee := ctx.baseTxFee;
            var imported := ImportedInputs(addrs, opts.minIssuanceTime, native, sourceUtxos);
            var amount := InputTotal(native, imported);
            && (amount > MAX_U64 ==> r == Err(Overflow))
            && (amount <= MAX_U64 && imported == [] ==> r == Err(InsufficientFunds))
            && (amount <= MAX_U64 && imported != [] && amount < fee ==>
                  var spent := SpendSpec(addrs, peek, opts, utxos, map[native := fee - amount], map[]);
                  && (spent.Err? ==> r == Err(spent.error))
                  && (spent.Ok? ==> r == Ok(ImportTx(Base(ctx, opts, spent.value.inputs, spent.value.change),
                                                     sourceChain, imported))))
            && (amount <= MAX_U64 && imported != [] && amount == fee ==>
                  r == Ok(ImportTx(Base(ctx, opts, [], []), sourceChain, imported)))
            && (amount <= MAX_U64 && imported != [] && amount > fee ==>
                  var surplus := ImportSurplusAsWritten(peek, opts, native, amount - fee, to);
                  && (surplus.Err? ==> r == Err(surplus.error))
                  && (surplus.Ok? ==> r == Ok(ImportTx(Base(ctx, opts, [], [surplus.value]), sourceChain, imported))))
    ensures r.Ok? ==> Balanced(r.value.importedInputs + r.value.base.ins, r.value.base.outs, [],
                               map[ctx.nativeAsset := ctx.baseTxFee])
  {
    var native := ctx.nativeAsset;
    var txFee := ctx.baseTxFee;
    var scan := ImportScan(addrs, opts.minIssuanceTime, native, sourceUtxos);
    peek := if addrs == {} then None else var x :| x in addrs; Some(x);
    if scan.Err? {
      return Err(scan.error), peek;
    }
    var importedInputs := scan.value.inputs;
    var importedAmount := scan.value.amount;
    if |importedInputs| == 0 {
      return Err(InsufficientFunds), peek;
    }
    var inputs: seq<TransferableInput> := [];
    var outputs: seq<TransferableOutput> := [];
    if importedAmount < txFee {
      var toBurn := map[native := txFee - importedAmount];
      var toStake: map<AssetId, U64> := map[];
      var spent;
      spent, peek := Spend(addrs, opts, utxos, toBurn, toStake);
      if spent.Err? {
        return Err(spent.error), peek;
      }
      forall a ensures InputTotal(a, spent.value.inputs) == Get(toBurn, a) + OutputTotal(a, spent.value.change)
      {
        SpendMeetsRequests(addrs, peek, opts, utxos, toBurn, toStake, a);
      }
      inputs := spent.value.inputs;
      outputs := spent.value.change;
      ImportShortfallBalanced(addrs, opts.minIssuanceTime, native, sourceUtxos, txFee, inputs, outputs);
    } else if importedAmount > txFee {
      if addrs == {} {
        return Err(NoChangeAddress), peek;
      }
      var addr :| addr in addrs;
      peek := Some(addr);
      var changeOwner := match opts.changeOwner case Some(o) => o case None => OutputOwners(0, 1, [addr]);
      assert changeOwner == ChangeOwner(opts, addr);
      outputs := [TransferableOutput(native, TransferOutput(importedAmount - txFee, changeOwner))];
      ImportSurplusBalanced(addrs, opts.minIssuanceTime, native, sourceUtxos, txFee, changeOwner);
    } else {
      ImportSurplusBalanced(addrs, opts.minIssuanceTime, native, sourceUtxos, txFee, to);
    }
    r := Ok(ImportTx(Base(ctx, opts, inputs, outputs), sourceChain, importedInputs));
  }
}
