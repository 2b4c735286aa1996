/** The contract's message types (src/msg.rs), and `ConfigUpdate`, which src/config.rs
    declares and `ExecuteMsg::UpdateConfig` carries. */
module Msg {
  import opened Wrappers
  import opened Numbers
  import opened Cosmos

  /** One remote chain: its Mars credit manager, the local ICA controller that owns the
      channel to it, the channel's opening options and the remote credit account, once known. */
  datatype Outpost = Outpost(marsRedBankContract: string,
                             cwIcaControllerContract: string,
                             channelOpenInitOptions: ChannelOpenInitOptions,
                             accountId: Option<string>)

  datatype InstantiateMsg = InstantiateMsg(owner: Addr, outposts: seq<Outpost>, cwIcaControllerCodeId: U64)

  /** Each present field replaces the configuration's field; an absent one keeps it. */
  datatype ConfigUpdate = ConfigUpdate(owner: Option<Addr>,
                                       outposts: Option<seq<Outpost>>,
                                       cwIcaControllerCodeId: Option<U64>)

  datatype DepositMsg = DepositMsg(destination: string)
  datatype WithdrawMsg = WithdrawMsg(amount: Uint128)
  datatype MoveAction = On | Off
  datatype MoveFundsMsg = MoveFundsMsg(action: MoveAction, denom: string, amount: Uint128, chain: string)

  datatype ExecuteMsg =
    | Deposit(deposit: DepositMsg)
    | Withdraw(withdraw: WithdrawMsg)
    | CreateVault
    | CreateChannel
    | CloseChannel
    | MoveFunds(moveFunds: MoveFundsMsg)
    | ReceiveIcaCallback(callback: IcaControllerCallbackMsg)
    | UpdateConfig(update: ConfigUpdate)
  {
    /** The commands `execute` refuses to anyone but the configured owner. */
    predicate OwnerOnly()
    {
      CreateVault? || CreateChannel? || CloseChannel? || MoveFunds? || UpdateConfig?
    }
  }

  datatype QueryMsg = ConfigQuery
}
