/** Shared vocabulary of the store contract: accounts and amounts, the
    records it stores or returns, the runtime context an entry point sees,
    and one error per panic the contract can raise. */
module Types {

  /** A NEAR account id. Parsing and validation of ids are not modelled. */
  type Account = string

  /** Token ids are plain strings. */
  type TokenId = string

  /** Series ids are u64 keys; the model only compares them. */
  type SeriesId = nat

  /** Balances and token amounts are u128; arithmetic on them is unbounded here. */
  type Balance = nat

  /** Commission percentages are u32. */
  type U32 = x: int | 0 <= x < 0x1_0000_0000

  /** A public key, as the runtime reports the signer's key. */
  type PublicKey = string

  /** Deployment cost of the store's fungible-token account (4 NEAR in yocto). */
  const TOKEN_BALANCE: Balance := 4_000_000_000_000_000_000_000_000

  /** Despite its name this is 10^22 yocto, i.e. 0.01 NEAR. */
  const ONE_YOCTO: Balance := 10_000_000_000_000_000_000_000

  /** Deposit attached to a function call that pays nothing. */
  const NO_DEPOSIT: Balance := 0

  /** The index a failed affiliate scan falls back to, instead of "none". */
  const NOT_FOUND: nat := 11111111

  datatype Option<+T> = None | Some(value: T)

  /** One constructor per panic of the modelled entry points. */
  datatype Error =
    | OnlyContractOwner                  // "only contract owner"
    | OnlyMarketplaceContract            // "only marketplace contract"
    | TokenAlreadyDeployed               // "Store owner has already deployed a token"
    | TokenNotDeployed                   // "Store owner has not deployed a token yet"
    | NotASeries                         // "Not a series"
    | NotLocked                          // unlock of a token that is not locked
    | InsufficientSettlementDeposit(requiredCost: Balance, pricePerToken: Balance)
    | AffiliateNotApproved               // "Affiliateer was not approved"
    | AlreadyApplied(existing: Request)  // "Already applied to become an affiliate"
    | AffiliatesNotAccepted              // "This series does not accept affiliate"
    | RequestDepositTooSmall             // "Must attach upto 0.1 near to this call"
    | AffiliateNotInSeries               // raised with the text "Affiliateer is already approved for this product"
    | RequestNotFound                    // "Couldn't find affiliate or affiliate already exists"
    | DeploymentDepositTooSmall          // deposit does not exceed TOKEN_BALANCE
    | NoRewardForSeries                  // "There's no token reward for this product"
    | PrivateMethod                      // a #[private] callback called by another account
    | DepositNotAccepted                 // a deposit attached to a method that is not #[payable]

  /** The outcome of an entry point that returns a value or panics. */
  datatype Result<+T> = Ok(value: T) | Err(error: Error)

  /** The outcome of a guard that returns nothing or panics. */
  datatype Outcome = Pass | Fail(error: Error)

  /** What the runtime tells an entry point about the call it is running in. */
  datatype Env = Env(
    predecessor: Account,       // the immediate caller
    signer: Account,            // the account that signed the transaction
    signerPublicKey: PublicKey,
    currentAccount: Account,    // this contract's own account
    attachedDeposit: Balance,
    storageByteCost: Balance)   // price of one byte of storage

  /** The part of a series' token metadata the core reads. */
  datatype TokenMetadata = TokenMetadata(isReward: bool, rewardAmountPerUnit: Balance)

  /** A product template; `affiliate` maps approved affiliates to their percentage. */
  datatype Series = Series(
    metadata: TokenMetadata,
    affiliate: Option<map<Account, U32>>,
    price: Option<Balance>,
    ownerId: Account)

  /** One affiliate enrolment request for one series. */
  datatype Request = Request(accountId: Account, seriesId: SeriesId, approved: bool)

  /** The settlement of one sale, handed back to the marketplace. */
  datatype MarketplaceData = MarketplaceData(
    price: Balance,
    affiliate: bool,
    affiliateId: Option<Account>,
    affiliatePercentage: Option<U32>,
    tokenId: TokenId,
    tokenOwner: Account,
    storeOwner: Account)

  /** The contract-level NFT metadata stored at initialisation. */
  datatype NftContractMetadata = NftContractMetadata(
    spec: string,
    name: string,
    symbol: string,
    icon: Option<string>)
}
