/** The store contract: its persistent state and every entry point of the
    core. The runtime's view of a call (caller, signer, attached deposit,
    storage price, own account) arrives as an `Env`; the outcome of a
    scheduled chain arrives in a callback as `success`. A panic is an `Err`,
    and because a panic reverts the call, an entry point that returns `Err`
    leaves every field as it was. */
module Store {
  import opened Types
  import opened Promises
  import opened Decimal
  import Affiliates

  /** The memo of a reward transfer. */
  function RewardMemo(current: Account): string
  {
    "Thank You for Shopping at " + current + "!"
  }

  /** The reward callback's report of a delivered reward. */
  function SentMessage(amount: Balance): string
  {
    "Sent " + DecimalString(amount) + " token successfully!"
  }

  const FailedMessage: string := "failed sending token"

  /** The amount a callback report names as delivered, if it reports a delivery. */
  function SentAmount(message: string): Option<Balance>
  {
    if |message| > 25 && message[..5] == "Sent " && message[|message| - 20..] == " token successfully!"
       && AllDigits(message[5..|message| - 20])
    then Some(DecimalValue(message[5..|message| - 20]))
    else None
  }

  lemma SentAmountRecovers(amount: Balance)
    ensures SentAmount(SentMessage(amount)) == Some(amount)
  {
    var digits := DecimalString(amount);
    var m := SentMessage(amount);
    assert m[..5] == "Sent ";
    assert m[|m| - 20..] == " token successfully!";
    assert m[5..|m| - 20] == digits;
    DecimalRoundTrip(amount);
  }

  class Contract {
    var ownerId: Account
    var marketplaceContractId: Account
    /** Whether the store's fungible token has been deployed. */
    var token: bool
    var tokenCost: Balance
    /** Append-only list of affiliate requests, in submission order. */
    var affiliateRequests: seq<Request>
    var approvedMinters: set<Account>
    var approvedCreators: set<Account>
    var seriesById: map<SeriesId, Series>
    /** Tokens held while a marketplace transaction is in flight. */
    var tokensLocked: set<TokenId>
    var metadata: NftContractMetadata

    /** The affiliate list never holds two requests for one (account, series)
        pair, and never grows past NOT_FOUND + 1 entries. */
    ghost predicate Valid()
      reads this
    {
      Affiliates.UniquePairs(affiliateRequests) && |affiliateRequests| <= NOT_FOUND + 1
    }

    /** `new`: the initial state of a store. */
    constructor New(ownerId: Account, marketplaceContractId: Account, metadata: NftContractMetadata)
      ensures Valid()
      ensures this.ownerId == ownerId && this.marketplaceContractId == marketplaceContractId
      ensures !HasToken() && GetTokenCost() == TOKEN_BALANCE
      ensures affiliateRequests == [] && seriesById == map[] && tokensLocked == {}
      ensures approvedMinters == {ownerId, marketplaceContractId} && approvedCreators == {ownerId}
      ensures this.metadata == metadata
    {
      var minters: set<Account> := {};
      minters := minters + {ownerId};
      minters := minters + {marketplaceContractId};
      var creators: set<Account> := {};
      creators := creators + {ownerId};
      approvedMinters, approvedCreators := minters, creators;
      affiliateRequests := [];
      seriesById := map[];
      tokensLocked := {};
      this.ownerId := ownerId;
      this.marketplaceContractId := marketplaceContractId;
      token := false;
      tokenCost := TOKEN_BALANCE;
      this.metadata := metadata;
    }

    /** `assert_store_owner`: whether the transaction was signed by the owner. */
    predicate AssertStoreOwner(env: Env)
      reads this
    {
      env.signer == ownerId
    }

    function GetStoreOwner(): Account
      reads this
    {
      ownerId
    }

    function GetTokenCost(): Balance
      reads this
    {
      tokenCost
    }

    function HasToken(): bool
      reads this
    {
      token
    }

    /** `assert_contract_owner`: only the owner may call on. */
    function AssertContractOwner(env: Env): (r: Outcome)
      reads this
      ensures r.Pass? <==> env.predecessor == ownerId
      ensures r.Fail? ==> r.error == OnlyContractOwner
    {
      if ownerId == env.predecessor then Pass else Fail(OnlyContractOwner)
    }

    /** `assert_marketplace_contract`: only the marketplace may call on. */
    function AssertMarketplaceContract(env: Env): (r: Outcome)
      reads this
      ensures r.Pass? <==> env.predecessor == marketplaceContractId
      ensures r.Fail? ==> r.error == OnlyMarketplaceContract
    {
      if marketplaceContractId == env.predecessor then Pass else Fail(OnlyMarketplaceContract)
    }

    /** `assert_contract_token_false`: the token must not be deployed yet. */
    function AssertContractTokenFalse(): (r: Outcome)
      reads this
      ensures r.Pass? <==> !token
      ensures r.Fail? ==> r.error == TokenAlreadyDeployed
    {
      if token then Fail(TokenAlreadyDeployed) else Pass
    }

    /** `#[private]`: a callback may only be called by the contract itself. */
    static function AssertPrivate(env: Env): (r: Outcome)
      ensures r.Pass? <==> env.predecessor == env.currentAccount
      ensures r.Fail? ==> r.error == PrivateMethod
    {
      if env.predecessor == env.currentAccount then Pass else Fail(PrivateMethod)
    }

    /** A method that is not `#[payable]` refuses any attached deposit before its body runs. */
    static function AssertNoDeposit(env: Env): (r: Outcome)
      ensures r.Pass? <==> env.attachedDeposit == 0
      ensures r.Fail? ==> r.error == DepositNotAccepted
    {
      if env.attachedDeposit != 0 then Fail(DepositNotAccepted) else Pass
    }

    /** `unlock_token`: the marketplace releases a locked token, which must be locked. */
    method UnlockToken(env: Env, tokenId: TokenId) returns (r: Result<()>)
      modifies this`tokensLocked
      ensures env.attachedDeposit != 0 ==> r == Err(DepositNotAccepted)
      ensures env.attachedDeposit == 0 && env.predecessor != marketplaceContractId ==> r == Err(OnlyMarketplaceContract)
      ensures env.attachedDeposit == 0 && env.predecessor == marketplaceContractId && tokenId !in old(tokensLocked) ==>
                r == Err(NotLocked)
      ensures r.Ok? <==>
                env.attachedDeposit == 0 && env.predecessor == marketplaceContractId && tokenId in old(tokensLocked)
      ensures tokensLocked == if r.Ok? then old(tokensLocked) - {tokenId} else old(tokensLocked)
    {
      var noDeposit := AssertNoDeposit(env);
      if noDeposit.Fail? {
        return Err(noDeposit.error);
      }
      var guard := AssertMarketplaceContract(env);
      if guard.Fail? {
        return Err(guard.error);
      }
      var removed := tokenId in tokensLocked;
      tokensLocked := tokensLocked - {tokenId};
      if !removed {
        return Err(NotLocked);
      }
      r := Ok(());
    }

    /** The settlement of a sale without an affiliate. */
    static function PlainSale(price: Balance, tokenId: TokenId, tokenOwner: Account, storeOwner: Account): MarketplaceData
    {
      MarketplaceData(price, false, None, None, tokenId, tokenOwner, storeOwner)
    }

    /** `marketplace_series_callback`: checks that the marketplace attached enough
        for storage and price, and settles the sale of a token of series `id`,
        crediting the candidate affiliate when the series lists it. Reads only. */
    function MarketplaceSeriesCallback(env: Env, id: SeriesId, storageUsed: nat, pricePerToken: Balance,
                                       storeOwner: Account, tokenOwner: Account, tokenId: TokenId,
                                       attachedDeposit: Balance, affiliate: Option<Account>): (r: Result<MarketplaceData>)
      reads this
      // the call itself carries no deposit; the sale's deposit arrives as `attachedDeposit`
      ensures env.attachedDeposit != 0 ==> r == Err(DepositNotAccepted)
      ensures env.attachedDeposit == 0 && env.predecessor != marketplaceContractId ==> r == Err(OnlyMarketplaceContract)
      // the sale's deposit is checked before the series is looked up
      ensures env.attachedDeposit == 0 && env.predecessor == marketplaceContractId &&
              attachedDeposit < env.storageByteCost * storageUsed + pricePerToken ==>
                r == Err(InsufficientSettlementDeposit(env.storageByteCost * storageUsed, pricePerToken))
      ensures env.attachedDeposit == 0 && env.predecessor == marketplaceContractId &&
              attachedDeposit >= env.storageByteCost * storageUsed + pricePerToken && id !in seriesById ==>
                r == Err(NotASeries)
      // a named candidate missing from a present affiliate map aborts the sale
      ensures env.attachedDeposit == 0 && env.predecessor == marketplaceContractId &&
              attachedDeposit >= env.storageByteCost * storageUsed + pricePerToken && id in seriesById &&
              affiliate.Some? && seriesById[id].affiliate.Some? && affiliate.value !in seriesById[id].affiliate.value ==>
                r == Err(AffiliateNotApproved)
      ensures r.Ok? <==>
                && env.attachedDeposit == 0
                && env.predecessor == marketplaceContractId
                && attachedDeposit >= env.storageByteCost * storageUsed + pricePerToken
                && id in seriesById
                && (affiliate.Some? && seriesById[id].affiliate.Some? ==> affiliate.value in seriesById[id].affiliate.value)
      // the sale's parties and price are passed through unchanged
      ensures r.Ok? ==>
                r.value.price == pricePerToken && r.value.tokenId == tokenId &&
                r.value.tokenOwner == tokenOwner && r.value.storeOwner == storeOwner
      // the affiliate flag and the two affiliate fields go together
      ensures r.Ok? ==>
                (r.value.affiliate <==> r.value.affiliateId.Some?) &&
                (r.value.affiliate <==> r.value.affiliatePercentage.Some?)
      ensures r.Ok? ==>
                (r.value.affiliate <==> affiliate.Some? && seriesById[id].affiliate.Some?)
      ensures r.Ok? && r.value.affiliate ==>
                r.value.affiliateId == affiliate &&
                r.value.affiliatePercentage == Some(seriesById[id].affiliate.value[affiliate.value])
    {
      if AssertNoDeposit(env).Fail? then Err(DepositNotAccepted)
      else if env.predecessor != marketplaceContractId then Err(OnlyMarketplaceContract)
      else
        var requiredCost := env.storageByteCost * storageUsed;
        if attachedDeposit < requiredCost + pricePerToken then
          Err(InsufficientSettlementDeposit(requiredCost, pricePerToken))
        else if id !in seriesById then Err(NotASeries)
        else
          var series := seriesById[id];
          match affiliate
          case None => Ok(PlainSale(pricePerToken, tokenId, tokenOwner, storeOwner))
          case Some(candidate) =>
            match series.affiliate
            case None => Ok(PlainSale(pricePerToken, tokenId, tokenOwner, storeOwner))
            case Some(affix) =>
              if candidate !in affix then Err(AffiliateNotApproved)
              else Ok(MarketplaceData(pricePerToken, true, Some(candidate), Some(affix[candidate]),
                                      tokenId, tokenOwner, storeOwner))
    }

    /** `affiliate_request`: `affiliateId` applies to become an affiliate of series `id`. */
    method AffiliateRequest(env: Env, id: SeriesId, affiliateId: Account) returns (r: Result<()>)
      requires Valid()
      modifies this`affiliateRequests
      ensures Valid()
      ensures r == Affiliates.RequestDecision(old(affiliateRequests), seriesById, env.attachedDeposit, id, affiliateId)
      ensures affiliateRequests ==
                if r.Ok? then old(affiliateRequests) + [Affiliates.NewRequest(affiliateId, id)]
                else old(affiliateRequests)
    {
      var checkExisting := Affiliates.FindPosition(affiliateRequests, affiliateId, id, false);
      var existing := Affiliates.Get(affiliateRequests, checkExisting);
      if existing.Some? {
        return Err(AlreadyApplied(existing.value));
      }
      if id !in seriesById {
        return Err(NotASeries);
      }
      var series := seriesById[id];
      if series.affiliate.None? {
        return Err(AffiliatesNotAccepted);
      }
      if env.attachedDeposit <= ONE_YOCTO {
        return Err(RequestDepositTooSmall);
      }
      Affiliates.RequestKeepsPairsUnique(affiliateRequests, seriesById, env.attachedDeposit, id, affiliateId);
      affiliateRequests := affiliateRequests + [Request(affiliateId, id, false)];
      r := Ok(());
    }

    /** `approve_affiliate`: the owner approves the first pending request of
        `affiliateId` for series `id`. The percentage is written into a copy of
        the series' affiliate map that is never stored, so `seriesById` stays as it was. */
    method ApproveAffiliate(env: Env, id: SeriesId, affiliateId: Account, percentage: U32)
      returns (r: Result<Option<Request>>)
      requires Valid()
      modifies this`affiliateRequests
      ensures Valid()
      ensures seriesById == old(seriesById)
      ensures var d := Affiliates.ApprovalDecision(old(affiliateRequests), seriesById, ownerId, env.predecessor,
                                                   env.attachedDeposit, id, affiliateId);
              && (d.Err? ==> r == Err(d.error) && affiliateRequests == old(affiliateRequests))
              && (d.Ok? ==>
                    && affiliateRequests == Affiliates.ApplyApproval(old(affiliateRequests), d.value)
                    && r == Ok(Some(affiliateRequests[d.value])))
    {
      var noDeposit := AssertNoDeposit(env);
      if noDeposit.Fail? {
        return Err(noDeposit.error);
      }
      var guard := AssertContractOwner(env);
      if guard.Fail? {
        return Err(guard.error);
      }
      var index := Affiliates.FindPosition(affiliateRequests, affiliateId, id, true);
      var found := Affiliates.Get(affiliateRequests, index);
      if found.None? {
        return Err(RequestNotFound);
      }
      var a := found.value;
      if id !in seriesById {
        return Err(NotASeries);
      }
      var series := seriesById[id];
      if series.affiliate.Some? {
        var affix := series.affiliate.value;
        if affiliateId !in affix {
          return Err(AffiliateNotInSeries);
        }
        affix := affix[affiliateId := percentage];
      }
      Affiliates.ApprovalKeepsPairsUnique(affiliateRequests, index);
      affiliateRequests := affiliateRequests[index := Request(a.accountId, a.seriesId, true)];
      r := Ok(Affiliates.Get(affiliateRequests, index));
    }

    /** `get_affiliates`: every request, in the order it was submitted. */
    method GetAffiliates() returns (affiliates: seq<Request>)
      ensures affiliates == affiliateRequests
    {
      affiliates := [];
      var i := 0;
      while i < |affiliateRequests|
        invariant 0 <= i <= |affiliateRequests|
        invariant affiliates == affiliateRequests[..i]
      {
        affiliates := affiliates + [affiliateRequests[i]];
        i := i + 1;
      }
    }

    /** `deploy_token`: the owner asks for the store's fungible token. Nothing is
        changed here; the returned chain creates and funds "ft.<store>", deploys
        the token code, initialises it, and then calls `deploy_token_callback`. */
    function DeployToken(env: Env, totalSupply: Balance, name: string, symbol: string, icon: string): (r: Result<Chain>)
      reads this
      ensures env.attachedDeposit <= TOKEN_BALANCE ==> r == Err(DeploymentDepositTooSmall)
      ensures env.attachedDeposit > TOKEN_BALANCE && token ==> r == Err(TokenAlreadyDeployed)
      ensures env.attachedDeposit > TOKEN_BALANCE && !token && env.predecessor != ownerId ==> r == Err(OnlyContractOwner)
      ensures r.Ok? <==> env.attachedDeposit > TOKEN_BALANCE && !token && env.predecessor == ownerId
      ensures r.Ok? ==>
                var actions := r.value.batch.actions;
                && r.value.batch.receiver == FtAccount(env.currentAccount)
                && |actions| == 5
                && actions[0] == CreateAccount
                && actions[1] == AddFullAccessKey(env.signerPublicKey)
                && actions[2] == Transfer(TOKEN_BALANCE)
                && actions[3] == DeployContract(FungibleTokenWasm)
                && actions[4].FunctionCall? && actions[4].methodName == "new_default_meta"
                && actions[4].deposit == NO_DEPOSIT
                // the token is owned by the store contract; the caller's parameters pass through
                && actions[4].args == FtInit(FtData(env.currentAccount, totalSupply, name, symbol, icon))
      // the callback runs on this contract and can refund the caller in full
      ensures r.Ok? ==>
                r.value.callbackReceiver == env.currentAccount &&
                r.value.callback == OnDeployToken(env.predecessor, env.attachedDeposit)
      // the chain takes exactly the deployment cost, strictly less than the deposit
      ensures r.Ok? ==> Spent(r.value.batch.actions) == TOKEN_BALANCE < env.attachedDeposit
    {
      if env.attachedDeposit <= TOKEN_BALANCE then Err(DeploymentDepositTooSmall)
      else if AssertContractTokenFalse().Fail? then Err(TokenAlreadyDeployed)
      else if AssertContractOwner(env).Fail? then Err(OnlyContractOwner)
      else
        var subaccount := FtAccount(env.currentAccount);
        var initArgs := FtData(env.currentAccount, totalSupply, name, symbol, icon);
        var actions := [CreateAccount, AddFullAccessKey(env.signerPublicKey), Transfer(TOKEN_BALANCE),
                        DeployContract(FungibleTokenWasm), FunctionCall("new_default_meta", FtInit(initArgs), NO_DEPOSIT)];
        assert Spent(actions) == TOKEN_BALANCE by {
          assert Spent(actions[4..]) == 0;
          assert Spent(actions[3..]) == 0;
          assert Spent(actions[2..]) == TOKEN_BALANCE;
        }
        Ok(Chain(Batch(subaccount, actions), env.currentAccount, OnDeployToken(env.predecessor, env.attachedDeposit)))
    }

    /** `deploy_token_callback`: on success the token flag is set; on failure the
        flag is left alone and the whole deposit goes back to the caller of
        `deploy_token`, as the returned transfer batch. */
    method DeployTokenCallback(env: Env, tokenCreatorId: Account, attachedDeposit: Balance, success: bool)
      returns (r: Result<Option<Batch>>)
      modifies this`token
      ensures env.predecessor != env.currentAccount ==> r == Err(PrivateMethod) && token == old(token)
      ensures env.predecessor == env.currentAccount && env.attachedDeposit != 0 ==>
                r == Err(DepositNotAccepted) && token == old(token)
      ensures env.predecessor == env.currentAccount && env.attachedDeposit == 0 && success ==> r == Ok(None) && token
      ensures env.predecessor == env.currentAccount && env.attachedDeposit == 0 && !success ==>
                r == Ok(Some(Batch(tokenCreatorId, [Transfer(attachedDeposit)]))) && token == old(token)
    {
      var guard := AssertPrivate(env);
      if guard.Fail? {
        return Err(guard.error);
      }
      var noDeposit := AssertNoDeposit(env);
      if noDeposit.Fail? {
        return Err(noDeposit.error);
      }
      if success {
        token := true;
        r := Ok(None);
      } else {
        r := Ok(Some(Batch(tokenCreatorId, [Transfer(attachedDeposit)])));
      }
    }

    /** `reward_with_token`: the marketplace asks for a buyer of series `id` to be
        rewarded. Nothing is changed here; the returned chain registers the buyer
        with the store's token and transfers the series' reward to them. */
    function RewardWithToken(env: Env, id: SeriesId, receiverId: Account): (r: Result<Chain>)
      reads this
      ensures env.attachedDeposit != 0 ==> r == Err(DepositNotAccepted)
      ensures env.attachedDeposit == 0 && env.predecessor != marketplaceContractId ==> r == Err(OnlyMarketplaceContract)
      // the token flag is checked before the series is looked up
      ensures env.attachedDeposit == 0 && env.predecessor == marketplaceContractId && !token ==> r == Err(TokenNotDeployed)
      ensures env.attachedDeposit == 0 && env.predecessor == marketplaceContractId && token && id !in seriesById ==>
                r == Err(NotASeries)
      ensures (env.attachedDeposit == 0 && env.predecessor == marketplaceContractId && token && id in seriesById &&
               !seriesById[id].metadata.isReward) ==> r == Err(NoRewardForSeries)
      ensures r.Ok? <==>
                && env.attachedDeposit == 0
                && env.predecessor == marketplaceContractId && token && id in seriesById
                && seriesById[id].metadata.isReward
      ensures r.Ok? ==>
                var actions := r.value.batch.actions;
                var amount := seriesById[id].metadata.rewardAmountPerUnit;
                // both calls go to the account deploy_token creates
                && r.value.batch.receiver == FtAccount(env.currentAccount)
                && |actions| == 2
                && actions[0] == FunctionCall("storage_deposit", StorageDeposit(StorageData(receiverId, false)), ONE_YOCTO)
                && actions[1].FunctionCall? && actions[1].methodName == "ft_transfer"
                && actions[1].deposit == NO_DEPOSIT
                && actions[1].args.FtTransfer?
                && actions[1].args.transfer.receiverId == receiverId
                && actions[1].args.transfer.amount == amount
                && actions[1].args.transfer.memo == RewardMemo(env.currentAccount)
                // the callback learns the same amount
                && r.value.callbackReceiver == env.currentAccount
                && r.value.callback == OnRewardWithToken(amount)
      ensures r.Ok? ==> Spent(r.value.batch.actions) == ONE_YOCTO
    {
      if AssertNoDeposit(env).Fail? then Err(DepositNotAccepted)
      else if AssertMarketplaceContract(env).Fail? then Err(OnlyMarketplaceContract)
      else if !token then Err(TokenNotDeployed)
      else if id !in seriesById then Err(NotASeries)
      else
        var series := seriesById[id];
        if !series.metadata.isReward then Err(NoRewardForSeries)
        else
          var tokenQuantity := series.metadata.rewardAmountPerUnit;
          var memo := RewardMemo(env.currentAccount);
          var tokenAccount := FtAccount(env.currentAccount);
          var storageArgs := StorageData(receiverId, false);
          var tokenArgs := TokenData(receiverId, tokenQuantity, memo);
          var actions := [FunctionCall("storage_deposit", StorageDeposit(storageArgs), ONE_YOCTO),
                          FunctionCall("ft_transfer", FtTransfer(tokenArgs), NO_DEPOSIT)];
          assert Spent(actions) == ONE_YOCTO by {
            assert Spent(actions[1..]) == 0;
          }
          Ok(Chain(Batch(tokenAccount, actions), env.currentAccount, OnRewardWithToken(tokenQuantity)))
    }

    /** `reward_with_token_callback`: reports the outcome of a reward chain. It
        takes `&self`, so, unlike the other callback, it does not refuse a deposit. */
    function RewardWithTokenCallback(env: Env, tokenQuantity: Balance, success: bool): (r: Result<string>)
      ensures env.predecessor != env.currentAccount ==> r == Err(PrivateMethod)
      ensures env.predecessor == env.currentAccount ==> r.Ok?
      // a success report names the amount sent; a failure report names none
      ensures r.Ok? && success ==> r.value == SentMessage(tokenQuantity) && SentAmount(r.value) == Some(tokenQuantity)
      ensures r.Ok? && !success ==> r.value == FailedMessage && SentAmount(r.value) == None
    {
      if AssertPrivate(env).Fail? then Err(PrivateMethod)
      else if success then
        SentAmountRecovers(tokenQuantity);
        Ok(SentMessage(tokenQuantity))
      else Ok(FailedMessage)
    }
  }
}
