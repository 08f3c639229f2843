# P-chain transaction builder, modelled in Dafny

This project models the P-chain unsigned-transaction builder of the wallet
(`wallet/chain/p/builder.go`). Given the wallet's set of controlled
addresses, its view of the chain (UTXO lists, a looked-up subnet
transaction, the chain's fees and native asset) and the caller's options
(minimum issuance time, change-owner override, memo), the builder assembles
one of seven unsigned transactions:

- add validator;
- add subnet validator;
- add delegator;
- create chain;
- create subnet;
- import;
- export.

Each assembler turns its request into per-asset burn and stake amounts. It
hands them to the spend planner, which consumes whole UTXOs in two passes.
Pass 1 takes still-locked UTXOs and stakes them under their own lock. Pass 2
takes unlocked or matured UTXOs and pays the burn first, then the stake,
then returns the rest as change. The assembler then composes the planner's
inputs and outputs into the transaction body. Subnet operations also need
a subnet authorization, which the threshold-signature matcher finds from
the subnet's creating transaction.

Files and modules:

- `types.dfy` (`Types`): fixed-width integers, ids, owners, outputs, inputs, UTXOs, the transaction kinds, per-asset totals and their algebra.
- `sorting.dfy` (`Sorting`): the canonical ordering of id lists.
- `matcher.dfy` (`Matcher`): `match`, its reference definition and its properties.
- `spender.dfy` (`Spender`): `spend` as per-UTXO step functions folded over the UTXO list. It also holds the imperative loops proved equal to the folds.
- `spend_props.dfy` (`SpendProps`): what a successful or failed spend guarantees.
- `subnet_auth.dfy` (`SubnetAuth`): `authorizeSubnet`.
- `builder.dfy` (`Builder`): the seven assemblers.

The backend's reads are parameters. `utxos` is the wallet's P-chain UTXO
list, `sourceUtxos` the list offered by an import's source chain, and
`subnetTx` the result of looking up a subnet id (a `Lookup`, which is either
the transaction or a failure). `ShortSet.Peek` returns an arbitrary member
of the address set. It is modelled by a ghost out-parameter `peek` that the
methods constrain with `IsPeek`. Every result is then stated as an exact
function of `peek`.

## Model

| member | source | states |
|---|---|---|
| Types.Add64 | wallet/chain/p/builder.go:354-358 | math.Add64 succeeds exactly when the sum fits in 64 bits, returns the sum, and otherwise reports Overflow |
| Types.Min64 | wallet/chain/p/builder.go:541-544 | math.Min64 returns one of its arguments and is at most both |
| Sorting.SortIds | wallet/chain/p/builder.go:163 | the id list comes back in ascending order and is a permutation of the list given |
| Builder.SortedOwners | wallet/chain/p/builder.go:296 | sorting an owner set's addresses keeps its lock time and threshold and permutes its addresses into ascending order |
| Matcher.ControlledIndices | wallet/chain/p/builder.go:717-723 | the reference list of every controlled position holds valid, strictly increasing positions of controlled addresses, and contains every controlled position |
| Matcher.ControlledIndicesCount | wallet/chain/p/builder.go:717-723 | the reference list holds as many entries as there are controlled positions |
| Matcher.MatchSpec | wallet/chain/p/builder.go:712-725 | match fails whenever the lock time exceeds the issuance time; otherwise it succeeds exactly when at least `threshold` positions are controlled; on success it returns exactly `threshold` valid, strictly increasing positions of controlled addresses |
| Matcher.MatchSatisfiedIff | wallet/chain/p/builder.go:713-724 | threshold correctness: match succeeds iff the owners are unlocked and the wallet controls at least `threshold` listed addresses |
| Matcher.ControlledIndicesPrefix | wallet/chain/p/builder.go:718-723 | the positions found in a prefix of the address list are a prefix of those found in the whole list |
| Matcher.MatchTakesFirstControlled | wallet/chain/p/builder.go:718-723 | greedy order: a successful match skips no controlled position before its last chosen index |
| Matcher.Match | wallet/chain/p/builder.go:712-725 | the scan reports success exactly when the reference says so, returns the reference's indices on success, and on every path returns at most `threshold` valid, increasing positions of controlled addresses |
| Spender.LockedAllocationSplits | wallet/chain/p/builder.go:526-571 | pass 1 on one UTXO: the input carries the UTXO's whole amount and lock time; nothing is burned; the staked part is at most the need, and all of it unless the UTXO is smaller; amount = staked + change; every output keeps the lock time and the owners |
| Spender.UnlockedAllocationSplits | wallet/chain/p/builder.go:607-651 | pass 2 on one UTXO: the input carries the whole amount; the burn gets as much as it still needs first, the stake as much of the rest as it needs, the leftover is change; amount = burned + staked + change; every output is of the UTXO's asset |
| Spender.UnlockedAllocationOwned | wallet/chain/p/builder.go:632-651 | pass 2 on one UTXO: every stake and change output is a non-empty plain transfer to the change owner |
| Spender.LockedStepSpends | wallet/chain/p/builder.go:492-572 | one pass-1 iteration fails, with UnknownOutputType, exactly when stake is still needed, the UTXO is still locked and its payload is not a transfer; otherwise it skips the UTXO or spends it whole under its lock, and never touches the burn requests |
| Spender.UnlockedStepSpends | wallet/chain/p/builder.go:575-652 | one pass-2 iteration fails, with UnknownOutputType, exactly when something is still needed, the UTXO is not still locked and its unwrapped payload is not a transfer; otherwise it skips the UTXO or spends it whole into plain outputs to the change owner |
| Spender.SpendLockedUtxo | wallet/chain/p/builder.go:493-571 | the pass-1 loop body computes the pass-1 step function |
| Spender.LockedLoop | wallet/chain/p/builder.go:492-572 | the pass-1 loop computes the fold of the step over the UTXO list, stopping at the first error |
| Spender.SpendUnlockedUtxo | wallet/chain/p/builder.go:576-651 | the pass-2 loop body computes the pass-2 step function |
| Spender.UnlockedLoop | wallet/chain/p/builder.go:575-652 | the pass-2 loop computes the fold of the step over the UTXO list, stopping at the first error |
| Spender.CheckAllZero | wallet/chain/p/builder.go:654-673 | the closing scan accepts a remaining-amount map exactly when every entry is zero |
| Spender.Spend | wallet/chain/p/builder.go:466-679 | spend needs a change address (NoChangeAddress when the wallet has none), runs both passes and fails with InsufficientFunds unless every remainder is zero; its result equals the fold-based specification for the peeked address |
| SpendProps.ConsumeAccounts | wallet/chain/p/builder.go:540-571 | consuming one UTXO that burns and stakes at most what is still needed keeps every asset's bookkeeping: the remainders shrink by what was burned and staked, and the inputs keep paying for the burn request, the stake outputs and the change |
| SpendProps.LockedStepAccounts | wallet/chain/p/builder.go:540-571 | a pass-1 iteration keeps every asset's bookkeeping |
| SpendProps.LockedPassAccounts | wallet/chain/p/builder.go:492-572 | pass 1 keeps every asset's bookkeeping |
| SpendProps.UnlockedStepAccounts | wallet/chain/p/builder.go:618-651 | a pass-2 iteration keeps every asset's bookkeeping |
| SpendProps.UnlockedPassAccounts | wallet/chain/p/builder.go:575-652 | pass 2 keeps every asset's bookkeeping |
| SpendProps.SpendMeetsRequests | wallet/chain/p/builder.go:654-678 | success means every request was met exactly: per asset, the stake outputs add up to the stake request, and the inputs pay for the burn request, the stake request and the change |
| SpendProps.LockedPassDraws | wallet/chain/p/builder.go:492-572 | pass 1 leaves the burn requests alone and draws at most what the still-locked UTXOs of the asset hold |
| SpendProps.ConsumeDraws | wallet/chain/p/builder.go:607-623 | consuming one UTXO adds at most its amount of its asset to the inputs, and at least what it takes off the burn request |
| SpendProps.UnlockedStepDraws | wallet/chain/p/builder.go:586-631 | a pass-2 iteration draws at most the amount of its UTXO, and only from a UTXO that is not still locked |
| SpendProps.UnlockedPassDraws | wallet/chain/p/builder.go:575-652 | pass 2 draws at most what the unlocked and matured UTXOs of the asset hold |
| SpendProps.SpendNeedsFunds | wallet/chain/p/builder.go:455-465 | funds come only from the UTXOs offered: a success never burns more of an asset than its unlocked and matured UTXOs hold, nor burns and stakes more than all its UTXOs hold |
| SpendProps.LockedPassGrows | wallet/chain/p/builder.go:526-571 | pass 1 only appends: each new input and each new stake or change output is stake-locked past the issuance time |
| SpendProps.UnlockedPassGrows | wallet/chain/p/builder.go:586-651 | pass 2 only appends: each new input is plain, and each new stake or change output is a non-empty plain transfer to the change owner |
| SpendProps.LockedPassDistinct | wallet/chain/p/builder.go:492-572 | with distinct UTXO ids, pass 1 never spends a UTXO twice and spends only ids of still-locked UTXOs |
| SpendProps.UnlockedPassDistinct | wallet/chain/p/builder.go:575-652 | with distinct UTXO ids, pass 2 never spends a UTXO twice and spends only ids of UTXOs that are not still locked |
| SpendProps.LockedPassKeepsLocks | wallet/chain/p/builder.go:547-570 | every stake or change output pass 1 adds carries exactly the lock time and owners of a still-locked UTXO that one of the pass's inputs spends |
| SpendProps.SpendKeepsLocks | wallet/chain/p/builder.go:526-651 | over the whole of spend, every stake or change output either keeps exactly the lock time and owners of a still-locked UTXO that one of the inputs spends, or is a non-empty plain transfer to the change owner |
| SpendProps.PassIdsDisjoint | wallet/chain/p/builder.go:509-513 | with distinct UTXO ids, the UTXOs pass 1 may take and those pass 2 may take are disjoint |
| SpendProps.SpendConsumes | wallet/chain/p/builder.go:529-594 | lock preservation and single use over the whole of spend: stake-locked inputs spend still-locked UTXOs and keep a lock past the issuance time; plain inputs spend the others; every output is locked past the issuance time or plain to the change owner; with distinct ids no UTXO is spent twice |
| SpendProps.LockedPassErrors | wallet/chain/p/builder.go:515-518 | pass 1 can fail only with UnknownOutputType, and only when some UTXO is not a (possibly stake-locked) transfer |
| SpendProps.UnlockedPassErrors | wallet/chain/p/builder.go:596-599 | pass 2 can fail only with UnknownOutputType, and only when some UTXO is not a (possibly stake-locked) transfer |
| SpendProps.SpendErrors | wallet/chain/p/builder.go:482-485 | spend fails only with NoChangeAddress (exactly when the wallet controls no address), UnknownOutputType (only when some UTXO has an unknown payload) or InsufficientFunds |
| SpendProps.LockedPassIdle | wallet/chain/p/builder.go:498-500 | with nothing left to stake, pass 1 changes nothing |
| SpendProps.UnlockedPassIdle | wallet/chain/p/builder.go:582-584 | with nothing left to burn or stake, pass 2 changes nothing |
| SpendProps.SpendNothing | wallet/chain/p/builder.go:466-679 | with a change address and all-zero requests, spend succeeds with no inputs and no outputs |
| SubnetAuth.AuthorizeSpec | wallet/chain/p/builder.go:681-709 | authorization succeeds iff the lookup found a create-subnet transaction with secp256k1 owners that match at the issuance time; success yields exactly `threshold` valid, increasing signer positions; each failure has its own error (TxLookupFailed, WrongTxType, UnknownOwnerType, InsufficientAuthorization) |
| SubnetAuth.AuthorizeSubnet | wallet/chain/p/builder.go:681-709 | the method computes the authorization specification |
| Builder.NewAddValidatorTx | wallet/chain/p/builder.go:147-177 | asks spend for a native stake of the validator weight and no burn; propagates spend's error; on success the stake outputs hold exactly the weight of the native asset and nothing else, inputs balance change plus stake, and the rewards owner is sorted |
| Builder.NewAddSubnetValidatorTx | wallet/chain/p/builder.go:179-209 | burns the subnet fee of the native asset with no stake, then authorizes the subnet; the first error is returned; on success inputs pay exactly for change plus the fee |
| Builder.NewAddDelegatorTx | wallet/chain/p/builder.go:211-239 | asks spend for a native stake of the delegated weight and no burn; on success the stake outputs hold exactly the weight, and inputs balance change plus stake |
| Builder.NewCreateChainTx | wallet/chain/p/builder.go:241-280 | burns the subnet fee, authorizes the subnet, keeps the chain fields, and lists the feature-extension ids sorted and permuted; on success inputs pay exactly for change plus the fee |
| Builder.NewCreateSubnetTx | wallet/chain/p/builder.go:282-307 | burns the subnet fee and records the owner with sorted addresses; on success inputs pay exactly for change plus the fee |
| Builder.ExportBurns | wallet/chain/p/builder.go:422-432 | the burn request is the base fee on the native asset plus, per asset, the sum of the exported amounts; it fails with Overflow exactly when some asset's requirement exceeds 64 bits |
| Builder.NewExportTx | wallet/chain/p/builder.go:417-453 | an overflowing requirement is an Overflow error; otherwise spend is asked for exactly that burn and its error is propagated; on success the inputs pay exactly for change, the exported outputs and the base fee |
| Builder.ImportedInputs | wallet/chain/p/builder.go:329-361 | no more imported inputs than offered UTXOs |
| Builder.ImportedInputsComplete | wallet/chain/p/builder.go:329-361 | the import consumes every available UTXO: each offered importable UTXO yields its input |
| Builder.ImportedInputsSpendOffered | wallet/chain/p/builder.go:330-358 | every imported input is a plain native-asset input that spends an offered, native, plain-transfer, matched UTXO whole with its matched signers |
| Builder.ImportedInputsEmpty | wallet/chain/p/builder.go:364-369 | nothing is imported exactly when no offered UTXO is importable |
| Builder.ImportedInputsPrefix | wallet/chain/p/builder.go:329-361 | the inputs imported from a prefix of the UTXO list are a prefix of those imported from the whole list |
| Builder.ImportedInputsSnoc | wallet/chain/p/builder.go:329-361 | scanning one more UTXO adds at most its own input |
| Builder.ImportScan | wallet/chain/p/builder.go:329-361 | the import loop collects exactly the imported inputs and their total, and fails with Overflow exactly when that total exceeds 64 bits |
| Builder.ImportShortfallBalanced | wallet/chain/p/builder.go:375-384 | when the import falls short of the fee and spend burns the shortfall, imported plus local inputs pay exactly for the change and the fee |
| Builder.ImportSurplusBalanced | wallet/chain/p/builder.go:385-402 | when the import covers the fee, the imported inputs alone pay exactly for the fee and the surplus output, if any |
| Builder.NewImportTx | wallet/chain/p/builder.go:309-415 | overflow gives Overflow; no importable UTXO gives InsufficientFunds; imported < fee has spend burn exactly fee − imported; imported > fee gives one plain output of imported − fee to `to` and no local inputs; imported = fee gives no local inputs or outputs; on success imported plus local inputs pay exactly for the outputs and the base fee |
| Builder.ImportSurplusAsWritten | wallet/chain/p/builder.go:385-402 | as written, the surplus output goes to the change owner and needs a peeked wallet address (NoChangeAddress without one) |
| Builder.ImportSurplusIgnoresTo | wallet/chain/p/builder.go:385-402 | a wallet holding address 1 that imports for the owner {2} pays the surplus to address 1, and a wallet with no address cannot import a surplus at all |
| Builder.NewImportTxAsWritten | wallet/chain/p/builder.go:309-415 | the import as written: the same results as NewImportTx except that a surplus goes to the change owner, and fails with NoChangeAddress when the wallet has no address; on success imported plus local inputs still pay exactly for the outputs and the base fee |

## Left out

- Backend reads (`UTXOs`, `GetTx`) and their context and cancellation are parameters. A failed `UTXOs` call is not modelled; a failed `GetTx` is `LookupFailed`.
- Canonical sorting of transferable inputs and outputs by their codec bytes (`SortTransferableInputs`, `SortTransferableOutputs`) is not modelled. The inputs and outputs keep the order in which spend and the import loop produce them.
- Sorting of id lists: ids are natural numbers whose numeric order stands for the byte order the repository compares by.
- The id sorts in the assemblers sort the caller's slices in place. The model returns the sorted copy inside the transaction and does not model that the caller's owner or id list is also changed (aliasing).
- Error messages and their `fmt` wrapping are not modelled. Only the error kind is kept. The asset named in an InsufficientFunds message depends on Go's random map order and is not modelled either.
- The option bag (`common.NewOptions`) is reduced to the values it supplies: minimum issuance time, change-owner override and memo.
- `ShortSet.Peek` returns some member of a non-empty set. Which member it returns is not modelled.
- The 32-bit width of signature indices and the `uint32(len(owners.Addrs))` conversion in match are not modelled. Positions are unbounded naturals, so lists longer than 2^32 addresses behave differently.
- Pointer fields that could be nil (the rewards owner, the `to` owner) are values.
- Builder.ImportedInputs: its own contract is only the length bound. Its other properties are the lemmas Builder.ImportedInputsSpendOffered, Builder.ImportedInputsComplete and Builder.ImportedInputsEmpty.
- spend decrements the caller's `amountsToBurn` and `amountsToStake` maps in place (builder.go:558, 623, 631). The model passes them by value. No caller reads them afterwards, because every assembler builds fresh maps for each call.
- Interface declarations, `NewBuilder` and the other files of the repository hold no logic of this component.

## Findings

| source | as written | input that shows it | evidently intended | confidence | as-written member | corrected member |
|---|---|---|---|---|---|---|
| wallet/chain/p/builder.go:309-402 | `NewImportTx` never reads its `to` parameter. An imported surplus is paid to the change owner (the caller's override, else the peeked wallet address), and the call fails with NoChangeAddress when the wallet has no address | a wallet controlling only address 1 imports UTXOs worth more than the fee with `to` = {threshold 1, address 2} and no change-owner override: the surplus output is owned by address 1 | the interface documentation (builder.go:98-107) says the imported funds go to `to`, so the surplus output should be owned by `to` and need no wallet address | high; not executed | Builder.NewImportTxAsWritten, Builder.ImportSurplusAsWritten, Builder.ImportSurplusIgnoresTo | Builder.NewImportTx |
