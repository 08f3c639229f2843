/** Subnet authorization (builder.authorizeSubnet): the signer indices that
    prove the wallet may act for a subnet, found from the subnet's creating
    transaction. */
module SubnetAuth {
  import opened Types
  import opened Matcher

  /** What the backend's GetTx returned for the subnet id. */
  datatype Lookup = Found(tx: UnsignedTx) | LookupFailed

  /** The subnet owners named by a lookup, when it found a CreateSubnetTx
      whose owner is a secp256k1fx owner set. */
  predicate NamesOwners(lookup: Lookup)
  {
    lookup.Found? && lookup.tx.CreateSubnetTx? && lookup.tx.owner.SecpOwners?
  }

  /** authorizeSubnet as a function of the lookup result. */
  function AuthorizeSpec(controlled: set<Address>, lookup: Lookup, minIssuanceTime: U64): (r: Result<seq<nat>>)
    ensures r.Ok? <==> NamesOwners(lookup)
                       && lookup.tx.owner.owners.locktime <= minIssuanceTime
                       && |ControlledPositions(controlled, lookup.tx.owner.owners.addrs)|
                          >= lookup.tx.owner.owners.threshold
    ensures r.Ok? ==> var owners := lookup.tx.owner.owners;
                      |r.value| == owners.threshold && Signers(controlled, owners.addrs, r.value)
    ensures lookup.LookupFailed? ==> r == Err(TxLookupFailed)
    ensures lookup.Found? && !lookup.tx.CreateSubnetTx? ==> r == Err(WrongTxType)
    ensures lookup.Found? && lookup.tx.CreateSubnetTx? && !lookup.tx.owner.SecpOwners? ==> r == Err(UnknownOwnerType)
    ensures NamesOwners(lookup) && r.Err? ==> r.error == InsufficientAuthorization
  {
    match lookup
    case LookupFailed => Err(TxLookupFailed)
    case Found(tx) =>
      if !tx.CreateSubnetTx? then Err(WrongTxType)
      else if !tx.owner.SecpOwners? then Err(UnknownOwnerType)
      else
        MatchSatisfiedIff(controlled, tx.owner.owners, minIssuanceTime);
        match MatchSpec(controlled, tx.owner.owners, minIssuanceTime)
        case None => Err(InsufficientAuthorization)
        case Some(sigs) => Ok(sigs)
  }

  /** builder.authorizeSubnet: checks the looked-up transaction's type and
      owner type, then matches its owners. */
  method AuthorizeSubnet(controlled: set<Address>, lookup: Lookup, minIssuanceTime: U64)
    returns (r: Result<seq<nat>>)
    ensures r == AuthorizeSpec(controlled, lookup, minIssuanceTime)
  {
    if lookup.LookupFailed? {
      return Err(TxLookupFailed);
    }
    var subnetTx := lookup.tx;
    if !subnetTx.CreateSubnetTx? {
      return Err(WrongTxType);
    }
    if !subnetTx.owner.SecpOwners? {
      return Err(UnknownOwnerType);
    }
    var owner := subnetTx.owner.owners;
    var inputSigIndices, ok := Match(controlled, owner, minIssuanceTime);
    if !ok {
      return Err(InsufficientAuthorization);
    }
    r := Ok(inputSigIndices);
  }
}
