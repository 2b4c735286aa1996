/** The foreign types the contract builds and consumes: cosmwasm-std messages, responses
    and packets, the cw-ica-controller command and callback types, and the Mars credit
    manager's execute message. Only their shape is modelled; their JSON encoding is not. */
module Cosmos {
  import opened Wrappers
  import opened Numbers
  import opened Errors

  /** `Addr` is a validated string; validity itself is the host's business (see `Api`). */
  type Addr = string
  type Binary = seq<Byte>

  datatype Coin = Coin(denom: string, amount: Uint128)

  // Mars credit manager (mars-types)

  datatype ActionAmount = Exact(exact: Uint128) | AccountBalance
  datatype ActionCoin = ActionCoin(denom: string, amount: ActionAmount)

  /** `ActionCoin::from(&Coin)`: the same denomination with the exact amount. */
  function ActionCoinFrom(coin: Coin): (r: ActionCoin)
    ensures r.denom == coin.denom && r.amount == Exact(coin.amount)
  {
    ActionCoin(coin.denom, Exact(coin.amount))
  }

  datatype AccountKind = DefaultAccount | HighLeveredStrategy
  datatype CreditAction = DepositAction(deposit: Coin) | LendAction(lend: ActionCoin)
  datatype CreditManagerExecuteMsg =
    UpdateCreditAccount(accountId: Option<string>, accountKind: Option<AccountKind>, actions: seq<CreditAction>)

  // Queries carried by an interchain command

  /** The smart-query payload this contract sends: `Positions { account_id }` of src/msg.rs. */
  datatype SmartQuery = Positions(accountId: string)
  /** `QueryRequest::Wasm(WasmQuery::Smart { contract_addr, msg })`. */
  datatype QueryRequest = WasmSmart(contractAddr: Addr, query: SmartQuery)

  // Messages

  /** The JSON body of a `WasmMsg::Execute`, kept as a value: either the ICA controller's
      `SendCosmosMsgs` or the credit manager's message. */
  datatype ExecutePayload =
    | SendCosmosMsgs(messages: seq<CosmosMsg>, queries: seq<QueryRequest>,
                     packetMemo: Option<string>, timeoutSeconds: Option<U64>)
    | CreditManager(creditMsg: CreditManagerExecuteMsg)

  /** `WasmMsg::Execute { contract_addr, msg, funds }` as built by `wasm_execute`. */
  datatype WasmMsg = WasmExecute(contractAddr: Addr, msg: ExecutePayload, funds: seq<Coin>)

  datatype CosmosMsg = Wasm(wasm: WasmMsg)

  datatype Attribute = Attribute(key: string, value: string)

  /** `Response`: the messages dispatched once the transaction commits, and its attributes. */
  datatype Response = Response(messages: seq<CosmosMsg>, attributes: seq<Attribute>)

  const EmptyResponse: Response := Response([], [])

  // Entry-point environment

  datatype MessageInfo = MessageInfo(sender: Addr, funds: seq<Coin>)
  datatype Env = Env(contractAddress: Addr, blockTimeSeconds: U64)

  /** `cw_utils::nonpayable`: an error when any funds are attached. */
  function Nonpayable(info: MessageInfo): (r: Outcome<PaymentError>)
    ensures r.Pass? <==> info.funds == []
  {
    if info.funds == [] then Pass else Fail(NonPayable)
  }

  /** The host's address services: `addr_validate`, `addr_canonicalize`, `addr_humanize`. */
  datatype Api = Api(addrValid: Addr -> bool,
                     canonicalize: Addr -> Option<Binary>,
                     humanize: Binary -> Option<Addr>)

  // IBC and the ICA controller's callbacks (cw-ica-controller)

  datatype IbcPacket = IbcPacket(data: Binary, sequence: U64)
  datatype IbcOrder = Ordered | Unordered
  datatype ChannelOpenInitOptions =
    ChannelOpenInitOptions(connectionId: string, counterpartyConnectionId: string,
                           counterpartyPortId: Option<string>, channelOrdering: Option<IbcOrder>)
  datatype IbcChannel = IbcChannel(channelId: string, connectionId: string)
  datatype TxEncoding = Protobuf | Proto3Json

  datatype IcaQueryResponse = IcaQueryResponse(response: Binary)
  datatype IcaQueryResult =
    | QuerySuccess(responses: seq<IcaQueryResponse>, height: U64)
    | QueryError(queryError: string)

  datatype AckData = AckResult(result: Binary) | AckError(ackError: string)

  datatype IcaControllerCallbackMsg =
    | OnAcknowledgementPacketCallback(icaAcknowledgement: AckData, originalPacket: IbcPacket,
                                      relayer: Addr, queryResult: Option<IcaQueryResult>)
    | OnTimeoutPacketCallback(originalPacket: IbcPacket, relayer: Addr)
    | OnChannelOpenAckCallback(channel: IbcChannel, icaAddress: string, txEncoding: TxEncoding)
}
