/** Values shared by the P-chain transaction builder: fixed-width integers,
    identifiers, output owners, the closed set of output and input shapes,
    UTXOs, the unsigned transaction kinds, and per-asset totals. */
module Types {

  const MAX_U64: int := 0xFFFF_FFFF_FFFF_FFFF
  const MAX_U32: int := 0xFFFF_FFFF

  /** Go's uint64 and uint32. */
  type U64 = x: int | 0 <= x <= MAX_U64
  type U32 = x: int | 0 <= x <= MAX_U32

  /** Identifiers are opaque; their numeric order stands for the byte order
      that the repository's id sorting uses. */
  type Address = nat
  type AssetId = nat
  type TxId = nat
  type ChainId = nat

  /** constants.PlatformChainID is the all-zero id. */
  const PLATFORM_CHAIN_ID: ChainId := 0

  datatype Option<+T> = None | Some(value: T)

  /** The error kinds a builder call can fail with. */
  datatype Error =
    | NoChangeAddress
    | InsufficientFunds
    | InsufficientAuthorization
    | WrongTxType
    | UnknownOwnerType
    | UnknownOutputType
    | Overflow          // math.Add64 reported a uint64 overflow
    | TxLookupFailed    // the backend could not return the subnet's transaction

  datatype Result<+T> = Ok(value: T) | Err(error: Error)

  /** math.Min64 */
  function Min64(a: U64, b: U64): (m: U64)
    ensures m <= a && m <= b
    ensures m == a || m == b
  {
    if a < b then a else b
  }

  /** math.Add64: the sum, or an error when it does not fit in 64 bits. */
  function Add64(a: U64, b: U64): (r: Result<U64>)
    ensures r.Ok? <==> a + b <= MAX_U64
    ensures r.Ok? ==> r.value == a + b
    ensures r.Err? ==> r.error == Overflow
  {
    if a + b <= MAX_U64 then Ok(a + b) else Err(Overflow)
  }

  /** secp256k1fx.OutputOwners: `threshold` of the listed addresses must sign,
      and not before `locktime`. */
  datatype OutputOwners = OutputOwners(locktime: U64, threshold: U32, addrs: seq<Address>)

  /** The output payloads the builder distinguishes: a plain transfer, a
      stake-locked wrapper around another payload, and any other shape (which
      still reports an amount, as every transferable output does). */
  datatype Output =
    | TransferOutput(amt: U64, owners: OutputOwners)
    | StakeableLockOut(locktime: U64, inner: Output)
    | OtherOutput(amount: U64)

  /** TransferableOut.Amount(); a stake-locked output reports its inner amount. */
  function Amount(o: Output): U64
  {
    match o
    case TransferOutput(amt, _) => amt
    case StakeableLockOut(_, inner) => Amount(inner)
    case OtherOutput(amount) => amount
  }

  datatype UtxoId = UtxoId(txId: TxId, outputIndex: U32)

  datatype Utxo = Utxo(id: UtxoId, asset: AssetId, out: Output)

  /** secp256k1fx.TransferInput: the amount consumed and the signer indices. */
  datatype TransferInput = TransferInput(amt: U64, sigIndices: seq<nat>)

  /** An input either spends a plain (or matured) output, or re-spends a still
      locked output while carrying its lock time along. */
  datatype Input =
    | Plain(transfer: TransferInput)
    | StakeableLockIn(locktime: U64, transfer: TransferInput)

  datatype TransferableInput = TransferableInput(utxoId: UtxoId, asset: AssetId, input: Input)

  datatype TransferableOutput = TransferableOutput(asset: AssetId, out: Output)

  /** Chain parameters the backend provides. */
  datatype ChainContext = ChainContext(networkId: U32, nativeAsset: AssetId, baseTxFee: U64, createSubnetTxFee: U64)

  /** The build options a call can carry (the calling context is not modelled). */
  datatype Options = Options(minIssuanceTime: U64, changeOwner: Option<OutputOwners>, memo: seq<bv8>)

  datatype Validator = Validator(nodeId: nat, start: U64, end: U64, weight: U64)

  datatype SubnetValidator = SubnetValidator(validator: Validator, subnet: TxId)

  /** The owner field of a subnet: a secp256k1fx owner set or some other shape. */
  datatype Owner = SecpOwners(owners: OutputOwners) | OtherOwner

  datatype BaseTx = BaseTx(networkId: U32, blockchainId: ChainId, ins: seq<TransferableInput>,
                           outs: seq<TransferableOutput>, memo: seq<bv8>)

  /** The unsigned transactions the builder produces (and, for CreateSubnetTx,
      looks up). */
  datatype UnsignedTx =
    | AddValidatorTx(base: BaseTx, validator: Validator, stake: seq<TransferableOutput>,
                     rewardsOwner: OutputOwners, shares: U32)
    | AddSubnetValidatorTx(base: BaseTx, subnetValidator: SubnetValidator, subnetAuth: seq<nat>)
    | AddDelegatorTx(base: BaseTx, validator: Validator, stake: seq<TransferableOutput>,
                     rewardsOwner: OutputOwners)
    | CreateChainTx(base: BaseTx, subnetId: TxId, chainName: string, vmId: nat, fxIds: seq<nat>,
                    genesis: seq<bv8>, subnetAuth: seq<nat>)
    | CreateSubnetTx(base: BaseTx, owner: Owner)
    | ImportTx(base: BaseTx, sourceChain: ChainId, importedInputs: seq<TransferableInput>)
    | ExportTx(base: BaseTx, destinationChain: ChainId, exportedOutputs: seq<TransferableOutput>)

  /** A Go map read: a missing key reads as zero. */
  function Get(m: map<AssetId, U64>, a: AssetId): U64
  {
    if a in m then m[a] else 0
  }

  /** ShortSet.Peek: None for the empty set, otherwise some member. */
  ghost predicate IsPeek(addrs: set<Address>, peek: Option<Address>)
  {
    if addrs == {} then peek == None else peek.Some? && peek.value in addrs
  }

  /** Sum of the amounts of the inputs of asset `a`. */
  function InputTotal(a: AssetId, ins: seq<TransferableInput>): nat
  {
    if ins == [] then 0
    else
      var last := ins[|ins| - 1];
      InputTotal(a, ins[..|ins| - 1]) + (if last.asset == a then last.input.transfer.amt else 0)
  }

  /** Sum of the amounts of the outputs of asset `a`. */
  function OutputTotal(a: AssetId, outs: seq<TransferableOutput>): nat
  {
    if outs == [] then 0
    else
      var last := outs[|outs| - 1];
      OutputTotal(a, outs[..|outs| - 1]) + (if last.asset == a then Amount(last.out) else 0)
  }

  /** The set of assets the outputs are of. */
  function AssetsOf(outs: seq<TransferableOutput>): (r: set<AssetId>)
    ensures forall k :: 0 <= k < |outs| ==> outs[k].asset in r
  {
    if outs == [] then {} else AssetsOf(outs[..|outs| - 1]) + {outs[|outs| - 1].asset}
  }

  lemma InputTotalAppend(a: AssetId, s: seq<TransferableInput>, x: TransferableInput)
    ensures InputTotal(a, s + [x]) == InputTotal(a, s) + (if x.asset == a then x.input.transfer.amt else 0)
  {
    assert (s + [x])[..|s|] == s;
  }

  /** Totals are additive over concatenation. */
  lemma {:induction false} OutputTotalAppend(a: AssetId, s: seq<TransferableOutput>, t: seq<TransferableOutput>)
    ensures OutputTotal(a, s + t) == OutputTotal(a, s) + OutputTotal(a, t)
    decreases |t|
  {
    if t != [] {
      var t' := t[..|t| - 1];
      assert (s + t)[..|s + t| - 1] == s + t';
      assert (s + t)[|s + t| - 1] == t[|t| - 1];
      OutputTotalAppend(a, s, t');
      assert OutputTotal(a, s + t) == OutputTotal(a, s + t') + (if t[|t| - 1].asset == a then Amount(t[|t| - 1].out) else 0);
    } else {
      assert s + t == s;
    }
  }

  /** Outputs none of which is of asset `a` contribute nothing to its total. */
  lemma {:induction false} OutputTotalOther(a: AssetId, outs: seq<TransferableOutput>)
    requires forall o :: o in outs ==> o.asset != a
    ensures OutputTotal(a, outs) == 0
    decreases |outs|
  {
    if outs != [] {
      var init := outs[..|outs| - 1];
      assert forall o :: o in init ==> o in outs;
      assert outs[|outs| - 1] in outs;
      OutputTotalOther(a, init);
    }
  }

  /** An asset that no output is of has a zero total. */
  lemma {:induction false} OutputTotalAbsent(a: AssetId, outs: seq<TransferableOutput>)
    requires a !in AssetsOf(outs)
    ensures OutputTotal(a, outs) == 0
    decreases |outs|
  {
    if outs != [] {
      OutputTotalAbsent(a, outs[..|outs| - 1]);
    }
  }

  /** The total over a prefix never exceeds the total over the whole sequence. */
  lemma {:induction false} OutputTotalPrefix(a: AssetId, outs: seq<TransferableOutput>, i: nat)
    requires i <= |outs|
    ensures OutputTotal(a, outs[..i]) <= OutputTotal(a, outs)
    decreases |outs|
  {
    if i < |outs| {
      var init := outs[..|outs| - 1];
      assert init[..i] == outs[..i];
      OutputTotalPrefix(a, init, i);
    } else {
      assert outs[..i] == outs;
    }
  }

  /** Input totals are additive over concatenation. */
  lemma {:induction false} InputTotalConcat(a: AssetId, s: seq<TransferableInput>, t: seq<TransferableInput>)
    ensures InputTotal(a, s + t) == InputTotal(a, s) + InputTotal(a, t)
    decreases |t|
  {
    if t != [] {
      var t' := t[..|t| - 1];
      assert (s + t)[..|s + t| - 1] == s + t';
      assert (s + t)[|s + t| - 1] == t[|t| - 1];
      InputTotalConcat(a, s, t');
    } else {
      assert s + t == s;
    }
  }

  /** Inputs none of which is of asset `a` contribute nothing to its total. */
  lemma {:induction false} InputTotalOther(a: AssetId, ins: seq<TransferableInput>)
    requires forall x :: x in ins ==> x.asset != a
    ensures InputTotal(a, ins) == 0
    decreases |ins|
  {
    if ins != [] {
      var init := ins[..|ins| - 1];
      assert forall x :: x in init ==> x in ins;
      assert ins[|ins| - 1] in ins;
      InputTotalOther(a, init);
    }
  }

  /** The input total of a prefix never exceeds the total of the whole. */
  lemma {:induction false} InputTotalPrefix(a: AssetId, s: seq<TransferableInput>, t: seq<TransferableInput>)
    requires s <= t
    ensures InputTotal(a, s) <= InputTotal(a, t)
    decreases |t|
  {
    if |s| < |t| {
      var init := t[..|t| - 1];
      assert s <= init;
      InputTotalPrefix(a, s, init);
    } else {
      assert s == t;
    }
  }
}
