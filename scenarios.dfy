/** Multi-call behaviour of the store contract, derived from the entry points'
    contracts alone: what a caller can rely on across several calls. */
module StoreScenarios {
  import opened Types
  import opened Promises
  import opened Store

  /** A sale credited to an approved affiliate settles at an exactly sufficient
      deposit, and one unit less is refused. */
  lemma SettlementAtThreshold(c: Contract, env: Env, id: SeriesId, a: Account,
                              tokenId: TokenId, tokenOwner: Account, storeOwner: Account)
    requires env.predecessor == c.marketplaceContractId && env.attachedDeposit == 0 && env.storageByteCost == 5
    requires id in c.seriesById && c.seriesById[id].affiliate == Some(map[a := 10])
    ensures c.MarketplaceSeriesCallback(env, id, 1, 100, storeOwner, tokenOwner, tokenId, 105, Some(a))
            == Ok(MarketplaceData(100, true, Some(a), Some(10), tokenId, tokenOwner, storeOwner))
    ensures c.MarketplaceSeriesCallback(env, id, 1, 100, storeOwner, tokenOwner, tokenId, 104, Some(a))
            == Err(InsufficientSettlementDeposit(5, 100))
  {
  }

  /** Unlocking the same token twice fails the second time. */
  method UnlockTwice(c: Contract, env: Env, tokenId: TokenId) returns (first: Result<()>, second: Result<()>)
    modifies c`tokensLocked
    ensures second.Err?
    ensures first.Ok? ==> tokenId !in c.tokensLocked
  {
    first := c.UnlockToken(env, tokenId);
    second := c.UnlockToken(env, tokenId);
  }

  /** Once a deployment chain has succeeded, no further deployment is accepted. */
  method DeployOnlyOnce(c: Contract, callbackEnv: Env, creator: Account, deposit: Balance,
                        env: Env, totalSupply: Balance, name: string, symbol: string, icon: string)
    returns (second: Result<Chain>)
    requires callbackEnv.predecessor == callbackEnv.currentAccount && callbackEnv.attachedDeposit == 0
    modifies c`token
    ensures c.token
    ensures second.Err?
  {
    var _ := c.DeployTokenCallback(callbackEnv, creator, deposit, true);
    second := c.DeployToken(env, totalSupply, name, symbol, icon);
  }

  /** A failed deployment chain leaves the store without a token and hands the
      whole deposit of the original call back to its caller; a later attempt
      is not blocked by the flag. */
  method DeployFailsAndRefunds(c: Contract, env: Env, callbackEnv: Env,
                               totalSupply: Balance, name: string, symbol: string, icon: string)
    returns (refund: Result<Option<Batch>>)
    requires !c.token
    requires env.predecessor == c.ownerId && env.attachedDeposit > TOKEN_BALANCE
    requires callbackEnv.predecessor == callbackEnv.currentAccount && callbackEnv.attachedDeposit == 0
    modifies c`token
    ensures !c.token
    ensures refund == Ok(Some(Batch(env.predecessor, [Transfer(env.attachedDeposit)])))
    ensures c.DeployToken(env, totalSupply, name, symbol, icon).Ok?
  {
    var chain := c.DeployToken(env, totalSupply, name, symbol, icon);
    var cb := chain.value.callback;
    refund := c.DeployTokenCallback(callbackEnv, cb.tokenCreatorId, cb.attachedDeposit, false);
  }
}
