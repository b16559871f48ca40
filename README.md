# Store contract model

A Dafny model of the core of a NEAR store contract (PiparHQ merchant): the
contract's persistent state, its caller guards, the settlement of a
marketplace sale between store owner, token owner and affiliate, the
affiliate enrolment and approval workflow, the one-shot deployment of the
store's fungible token with a refund on failure, and the reward paid to a
buyer in that token.

Layout:

- `types.dfy` (module `Types`): accounts, amounts, the records the contract
  stores or returns (`Series`, `Request`, `MarketplaceData`, ...), the
  constants `TOKEN_BALANCE`, `ONE_YOCTO`, `NO_DEPOSIT` and the scan sentinel
  `NOT_FOUND` (11111111), the runtime context `Env`, and one `Error` per panic.
- `promises.dfy` (module `Promises`): cross-contract calls as data. A
  `Chain` is a batch of actions for one receiver plus the callback into this
  contract; `Spent` is what a batch takes from the issuing account.
- `affiliates.dfy` (module `Affiliates`): the affiliate workflow on the
  request list as values: the first-match scan, the enrolment and approval
  decisions, and what an approval does to the list.
- `contract.dfy` (module `Store`): the class `Contract`, with one field per
  modelled field of the Rust struct and one member per entry point.
  State-changing entry points are methods with field-level `modifies`
  frames. Read-only ones are functions that `reads this`.
- `decimal.dfy` (module `Decimal`): the decimal rendering of an amount in
  the reward callback's message, and its inverse.
- `scenarios.dfy` (module `StoreScenarios`): behaviour over several calls,
  derived only from the entry points' contracts.

The runtime enters as parameters:

- the caller, the signer, the attached deposit, the storage byte price and
  the contract's own account are fields of `Env`;
- the outcome of a scheduled chain is the `success` argument of a callback;
- `#[private]` is the guard that the caller is the contract's own account.

A panic is an `Err` result. A panic reverts the call, so every method that
returns `Err` leaves its fields unchanged.

Every entry point that is neither `#[payable]` nor a `&self` view refuses an
attached deposit before its body runs, as `#[near_bindgen]` generates it. Of
the modelled entry points only `affiliate_request` (src/affiliate.rs:7) and
`deploy_token` (src/factory.rs:15) are payable. `UnlockToken`,
`MarketplaceSeriesCallback`, `ApproveAffiliate` (through `ApprovalDecision`),
`RewardWithToken` and `DeployTokenCallback` therefore fail with
`DepositNotAccepted` when the call carries a deposit. `#[private]` is checked
first, so `DeployTokenCallback` tests the caller before the deposit.
`GetAffiliates` and `RewardWithTokenCallback` take `&self` and have no such
check. In `marketplace_series_callback` the sale's deposit is an argument
(`attached_deposit`), separate from the call's own deposit.

Points where the code does something a reader might not expect:

- **A candidate affiliate missing from the series' map aborts the sale.**
  The code fails with `AffiliateNotApproved` when the marketplace names a
  candidate that a present affiliate map does not contain. The `else`
  branch after that check (src/lib.rs:305-317), which would settle the sale
  without an affiliate, can never run, and the model leaves it out.
- **Approval loses the percentage.** `approve_affiliate` takes a percentage
  and writes it into `affix`, a copy of the series' affiliate map
  (src/affiliate.rs:69-74) that is never stored. `ApproveAffiliate`
  therefore leaves `seriesById` unchanged. Approval fails only when the map
  is present and lacks the account; when the series has no map, approval
  goes ahead.
- **The deploy callback does not re-check the flag.** On success it sets
  `token` whatever its value was (src/factory.rs:65-66).
- **"Not found" is an index.** A scan that finds no request yields the index
  11111111 (src/affiliate.rs:19 and src/affiliate.rs:63), and the list is then read at that
  index. While the list is no longer than that, the read finds nothing and
  the workflow behaves as intended. Past that length, the read returns the
  record stored at 11111111:
  - every further enrolment is refused as "already applied"
    (`RequestRefusedPastSentinel`), so the list never grows beyond 11111112
    entries (`Contract.Valid`);
  - an owner's approval with no pending request is decided by the series
    checks alone: for an existing series whose map (if any) lists the
    account it succeeds and marks the record at 11111111 approved, whoever
    it belongs to (`ApprovalPastSentinel`).

## Model

| member | source | states |
|---|---|---|
| `Store.Contract.New` | src/lib.rs:179-215 | initial state: token flag false, token cost `TOKEN_BALANCE`, no requests, no series, nothing locked, minters = {owner, marketplace}, creators = {owner}; the request-list invariant holds |
| `Store.Contract.AssertContractOwner` | src/lib.rs:237-240 | passes exactly when the caller is the owner, otherwise fails with "only contract owner" |
| `Store.Contract.AssertMarketplaceContract` | src/lib.rs:242-245 | passes exactly when the caller is the marketplace, otherwise fails with "only marketplace contract" |
| `Store.Contract.AssertContractTokenFalse` | src/lib.rs:247-253 | passes exactly when no token has been deployed |
| `Store.Contract.AssertPrivate` | src/factory.rs:62-63 | a `#[private]` callback passes exactly when the contract calls itself |
| `Store.Contract.UnlockToken` | src/lib.rs:255-264 | refuses a deposit; then only the marketplace may call; succeeds exactly when the token is locked; removes exactly that id and keeps every other locked id |
| `Store.Contract.MarketplaceSeriesCallback` | src/lib.rs:266-344 | refuses a deposit on the call itself; checks the caller, then the sale's deposit argument (fails exactly when it is below byte cost × storage + price; equality is enough), then the series; `affiliate` is true exactly when a candidate is named and the series has a map, and then the map must contain the candidate and its percentage is reported; price, token id, token owner and store owner pass through; affiliate flag and fields agree; reads only |
| `Affiliates.Position` | src/affiliate.rs:12-19 | the index of the first request matching the account and series (and, for approval, still pending), or none exactly when no request matches |
| `Affiliates.FindPosition` | src/affiliate.rs:55-63 | the loop scan returns the first matching index, or `NOT_FOUND` when nothing matches |
| `Affiliates.RequestDecision` | src/affiliate.rs:12-29 | an existing request for the pair, approved or not, is refused as already applied; otherwise missing series, series without an affiliate map and deposit ≤ `ONE_YOCTO` fail in that order; accepted exactly when the list is within the sentinel bound, no record for the pair exists and all checks pass |
| `Affiliates.ApprovalDecision` | src/affiliate.rs:52-91 | refuses a deposit; then only the owner; then no pending request, missing series, and account absent from a present map fail in that order; within the sentinel bound, or whenever a pending request exists, the index approved is the first pending request of the pair, and approval succeeds exactly when such a request exists and the series checks pass |
| `Affiliates.ApplyApproval` | src/affiliate.rs:77-86 | only the chosen record changes: same account and series, now approved; length and every other record unchanged |
| `Affiliates.RequestKeepsPairsUnique` | src/affiliate.rs:12-41 | an accepted enrolment keeps every (account, series) pair unique and keeps the list within `NOT_FOUND` + 1 entries |
| `Affiliates.ApprovalKeepsPairsUnique` | src/affiliate.rs:77-86 | an approval keeps pairs unique |
| `Affiliates.RequestTwiceFails` | src/affiliate.rs:12-22 | right after an accepted enrolment, the same enrolment is refused as a duplicate of the record just appended |
| `Affiliates.RequestThenApprove` | src/affiliate.rs:32-89 | after an accepted enrolment, the owner's approval succeeds at the appended index, provided the series' map lists the account |
| `Affiliates.ApprovalOnlyOnce` | src/affiliate.rs:55-91 | with unique pairs, a request just approved cannot be approved again: the second approval finds no pending request |
| `Affiliates.RequestRefusedPastSentinel` | src/affiliate.rs:19-22 | past `NOT_FOUND` entries, an enrolment with no record for its pair is still refused as already applied |
| `Affiliates.ApprovalPastSentinel` | src/affiliate.rs:63-89 | past `NOT_FOUND` entries, an owner's approval with no pending request fails only on a missing series or an account absent from a present map; otherwise it succeeds on the record at `NOT_FOUND` |
| `Store.Contract.AffiliateRequest` | src/affiliate.rs:7-50 | the outcome is `RequestDecision`; on success exactly one unapproved record for the pair is appended and earlier records are kept; on failure nothing changes; the list invariant is kept |
| `Store.Contract.ApproveAffiliate` | src/affiliate.rs:52-93 | the outcome is `ApprovalDecision`; on success the list is `ApplyApproval` at that index and the approved record is returned; on failure nothing changes; `seriesById` is unchanged either way |
| `Store.Contract.GetAffiliates` | src/affiliate.rs:95-99 | returns every request, in the order they were submitted |
| `Store.Contract.DeployToken` | src/factory.rs:15-60 | the deposit must exceed `TOKEN_BALANCE`, then no token may exist, then the caller must be the owner; nothing changes; the chain creates "ft." + own account, adds the signer's key, transfers exactly `TOKEN_BALANCE`, deploys the code, and calls `new_default_meta` with no deposit; the store contract owns the token, and supply, name, symbol and icon pass through; the callback carries the caller and the whole deposit; the chain spends less than the deposit |
| `Store.Contract.DeployTokenCallback` | src/factory.rs:62-72 | private; then refuses a deposit; on success sets the token flag; on failure leaves it and returns one transfer of exactly the original deposit to the original caller |
| `Store.Contract.RewardWithToken` | src/reward.rs:6-57 | refuses a deposit; then only the marketplace; then the token must be deployed before the series is looked up; then the series must exist and be a reward series; nothing changes; the chain targets the account `DeployToken` creates and holds `storage_deposit` for the receiver with `ONE_YOCTO`, then `ft_transfer` of the series' reward amount to the same receiver with no deposit; the callback learns the same amount |
| `Store.Contract.RewardWithTokenCallback` | src/reward.rs:59-71 | private; a success report is exactly "Sent {n} token successfully!" with the amount sent in decimal without leading zeros (`SentMessage`), and reads back as that amount; a failure report is "failed sending token" and names no amount |
| `Store.SentAmountRecovers` | src/reward.rs:63 | the amount in "Sent {n} token successfully!" reads back as n |
| `Decimal.DecimalString` | src/reward.rs:63 | the rendering of an amount is a nonempty run of digits with no leading zero, as `format!` prints it |
| `Decimal.DecimalRoundTrip` | src/reward.rs:61-63 | the decimal rendering of an amount reads back as the amount |
| `StoreScenarios.SettlementAtThreshold` | src/lib.rs:271-304 | a sale credited to affiliate A at 10 settles with deposit 105 for price 100 and storage cost 5, and is refused at 104 |
| `StoreScenarios.UnlockTwice` | src/lib.rs:256-264 | a second unlock of the same token always fails |
| `StoreScenarios.DeployOnlyOnce` | src/factory.rs:23-29 | after a successful deployment callback, `deploy_token` is refused |
| `StoreScenarios.DeployFailsAndRefunds` | src/factory.rs:56-70 | a failed chain leaves the flag false and refunds the full deposit to the original caller, and deployment can then be requested again |

## Left out

- Promise execution and scheduling (src/factory.rs:45-59, src/reward.rs:40-56): chains are data, and a callback receives the chain's outcome as `success`.
- Gas: the gas constants, `tgas` and the gas attached to each function call are not modelled.
- Logs: `env::log_str` messages are not modelled.
- Account-id validity: `is_valid_account_id` and the parsing of `"ft." + account` are not modelled. The sub-account is the plain string concatenation.
- Storage accounting in `affiliate_request`: the storage measured before and after the append, and the refund of the unused deposit, are not modelled. `refund_deposit` lives in src/internal.rs, which is not part of this model. Only the check `deposit > ONE_YOCTO` is kept.
- u128 arithmetic: amounts are unbounded naturals. An overflow of `required_cost + price_per_token` is not modelled, because whether overflow checks are enabled depends on a build profile that is not part of this model.
- Serialisation: serde/borsh encodings of call arguments are not modelled; arguments stay records. The embedded wasm bytes are the single value `FungibleTokenWasm`.
- `RewardMemo`: the memo's `{:?}` formatting of the account id is not modelled. The memo is "Thank You for Shopping at " + account + "!".
- `new_default_meta` is not modelled: it only fills in a metadata record and calls `new`.
- `nft_metadata` is not modelled.
- Contract metadata: only spec, name, symbol and icon are kept.
- The "initialise only once" rule of `#[init]` belongs to the runtime and is not modelled.
- `New`: assumes `new` is called with no deposit. As an `#[init]` method that is not payable it would refuse one, but a constructor cannot fail here.
- `AssertContractOwner`, `AssertMarketplaceContract`, `AssertContractTokenFalse`: modelled as the internal guards the entry points call. Called directly as public entry points, they would also refuse an attached deposit; that is not modelled.
- Token bookkeeping: `tokens_by_id` and `tokens_per_owner` are not modelled. Neither are the NFT core, approval, enumeration, royalty, series and owner modules that use them; they are not part of this model.
- Series fields: the colors, royalty map and token set of a series are not modelled. Of its metadata, only `is_reward` and `reward_amount_per_unit` are kept.
- `AssertStoreOwner`, `GetStoreOwner`, `GetTokenCost` and `HasToken` are plain field reads. They are modelled without contracts of their own; `New` states what they return initially.
- Series ids are unbounded naturals rather than u64; they are only compared.
