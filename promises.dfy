/** Cross-contract calls as data. An entry point that schedules work returns a
    `Chain`: one batch of actions aimed at one receiver, followed by a
    callback into this contract that learns whether the batch succeeded. */
module Promises {
  import opened Types

  /** Init arguments of the fungible-token contract. */
  datatype FtData = FtData(ownerId: Account, totalSupply: Balance, name: string, symbol: string, icon: string)

  /** Arguments of the token's `storage_deposit`. */
  datatype StorageData = StorageData(accountId: Account, registrationOnly: bool)

  /** Arguments of the token's `ft_transfer`. */
  datatype TokenData = TokenData(receiverId: Account, amount: Balance, memo: string)

  /** Serialised call arguments, kept as records. */
  datatype Args = FtInit(init: FtData) | StorageDeposit(storage: StorageData) | FtTransfer(transfer: TokenData)

  /** The contract code embedded in the store contract. */
  datatype Code = FungibleTokenWasm

  datatype Action =
    | CreateAccount
    | AddFullAccessKey(publicKey: PublicKey)
    | Transfer(amount: Balance)
    | DeployContract(code: Code)
    | FunctionCall(methodName: string, args: Args, deposit: Balance)

  /** Actions run in order against one receiver, as one atomic unit: if one
      fails, the rest are skipped and the effects of the earlier ones are
      undone; what the batch transferred goes back to the account that issued it. */
  datatype Batch = Batch(receiver: Account, actions: seq<Action>)

  /** The callback scheduled after a batch: `deploy_token_callback` or `reward_with_token_callback`. */
  datatype Callback =
    | OnDeployToken(tokenCreatorId: Account, attachedDeposit: Balance)
    | OnRewardWithToken(tokenQuantity: Balance)

  datatype Chain = Chain(batch: Batch, callbackReceiver: Account, callback: Callback)

  /** The store's token account, "ft." prefixed to the store's own account. */
  function FtAccount(current: Account): Account
  {
    "ft." + current
  }

  /** What a batch takes from the balance of the account that issues it:
      every transfer and every deposit attached to a function call. */
  function Spent(actions: seq<Action>): Balance
  {
    if actions == [] then 0
    else
      var head := match actions[0]
        case Transfer(amount) => amount
        case FunctionCall(_, _, deposit) => deposit
        case _ => 0;
      head + Spent(actions[1..])
  }
}
