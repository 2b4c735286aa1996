/** Deposit initiation (src/handler/deposit.rs): a query-only command asking the outpost's
    credit manager for the positions of the contract's credit account. */
module Deposit {
  import opened Wrappers
  import opened Errors
  import opened Cosmos
  import opened Msg
  import opened Config
  import opened Ica

  /** The memo the query command is tagged with. */
  const DEPOSIT_MEMO: string := "deposit"

  /** `try_deposit`: looks up the outpost, requires its credit account, and emits one command.
      It only reads the configuration. */
  function TryDeposit(config: ConfigData, destination: string): (r: Result<Response, ContractError>)
    ensures config.FindDestinationOutpost(destination).None? ==> r == Failure(DestinationNotFound(destination))
    ensures (config.FindDestinationOutpost(destination).Some? &&
             config.FindDestinationOutpost(destination).value.accountId.None?) ==> r == Failure(NoCreditAccount)
    ensures r.Success? <==> (config.FindDestinationOutpost(destination).Some? &&
                             config.FindDestinationOutpost(destination).value.accountId.Some?)
    ensures r.Success? ==> |r.value.messages| == 1 && r.value.attributes == []
  {
    match config.FindDestinationOutpost(destination)
    case None => Failure(DestinationNotFound(destination))
    case Some(outpost) =>
      match outpost.accountId
      case None => Failure(NoCreditAccount)
      case Some(accountId) =>
        var query := WasmSmart(outpost.marsRedBankContract, Positions(accountId));
        var msg := QueryIca(outpost.cwIcaControllerContract, Some(DEPOSIT_MEMO), [query]);
        Success(Response([Wasm(msg)], []))
  }

  /** The one command goes to the outpost's controller, tagged "deposit", with no executable
      message, no funds and exactly one query: the positions of the outpost's credit account,
      asked of its Mars contract. */
  lemma TryDepositCommand(config: ConfigData, destination: string)
    requires TryDeposit(config, destination).Success?
    ensures var o := config.FindDestinationOutpost(destination).value;
            var w := TryDeposit(config, destination).value.messages[0].wasm;
            && w.contractAddr == o.cwIcaControllerContract && w.funds == []
            && w.msg == SendCosmosMsgs([], [WasmSmart(o.marsRedBankContract, Positions(o.accountId.value))],
                                       Some("deposit"), None)
  {
  }
}
