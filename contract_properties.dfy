/** What `execute` promises, stated over its functional model `ExecuteSpec` and the
    acknowledgement handlers, and what the running contract guarantees across entry points. */
module ContractProperties {
  import opened Wrappers
  import opened Numbers
  import opened Errors
  import opened Strings
  import opened Cosmos
  import opened Msg
  import opened Config
  import opened Ica
  import opened Deposit
  import opened State
  import opened Contract

  /** Both storage items are present. */
  predicate Loaded(stored: Stored)
  {
    stored.config.Some? && stored.state.Some?
  }

  // Storage discipline

  /** A call that returns an error or panics leaves both items as they were. */
  lemma HaltLeavesStorage(stored: Stored, info: MessageInfo, msg: ExecuteMsg, deps: Deps)
    ensures var e := ExecuteSpec(stored, info, msg, deps); e.result.Failure? ==> e.stored == stored
  {
  }

  /** `execute` needs both items: a missing one is reported before anything else happens. */
  lemma ExecuteNeedsBothItems(stored: Stored, info: MessageInfo, msg: ExecuteMsg, deps: Deps)
    requires !Loaded(stored)
    ensures ExecuteSpec(stored, info, msg, deps).result.Failure?
    ensures ExecuteSpec(stored, info, msg, deps).stored == stored
    ensures stored.config.Some? ==>
              ExecuteSpec(stored, info, msg, deps).result == Failure(Err(Std(NotFound(STATE_KIND))))
  {
  }

  /** The acknowledgement handler never touches the configuration. */
  lemma {:induction false} AcknowledgementKeepsConfig(config: ConfigData, state: State, packet: IbcPacket,
                                                      queryResult: Option<IcaQueryResult>, codec: JsonCodec)
    ensures OnAcknowledgement(config, state, packet, queryResult, codec).config == config
  {
    match ExtractPacketMemo(codec, packet)
    case Failure(_) =>
    case Success(None) =>
    case Success(Some(memo)) =>
      if RouteMemo(memo) == DepositRoute {
        DepositAcknowledgementKeepsConfig(config, state, memo, queryResult);
      }
  }

  lemma {:induction false} DepositAcknowledgementKeepsConfig(config: ConfigData, state: State, memo: string,
                                                             queryResult: Option<IcaQueryResult>)
    ensures OnDepositAcknowledgement(config, state, memo, queryResult).config == config
  {
  }

  /** Only `UpdateConfig` can change the stored configuration. */
  lemma {:induction false} OnlyUpdateConfigWritesConfig(stored: Stored, info: MessageInfo, msg: ExecuteMsg, deps: Deps)
    requires !msg.UpdateConfig?
    ensures ExecuteSpec(stored, info, msg, deps).stored.config == stored.config
  {
    if Loaded(stored) && msg.ReceiveIcaCallback? && msg.callback.OnAcknowledgementPacketCallback? {
      AcknowledgementKeepsConfig(stored.config.value, stored.state.value, msg.callback.originalPacket,
                                 msg.callback.queryResult, deps.codec);
    }
  }

  // Authorization

  /** Every owner-only command from anyone but the owner is `Unauthorized`, whatever funds it
      carries, and changes nothing. */
  lemma OwnerGate(stored: Stored, info: MessageInfo, msg: ExecuteMsg, deps: Deps)
    requires Loaded(stored) && msg.OwnerOnly() && info.sender != stored.config.value.owner
    ensures ExecuteSpec(stored, info, msg, deps) == Effect(Failure(Err(Unauthorized)), stored)
  {
  }

  /** `Deposit`, `Withdraw` and the callbacks are open: the sender makes no difference, and
      only `Withdraw` looks at the funds. */
  lemma OpenCommandsIgnoreSender(stored: Stored, info1: MessageInfo, info2: MessageInfo, msg: ExecuteMsg, deps: Deps)
    requires msg.Deposit? || msg.Withdraw? || msg.ReceiveIcaCallback?
    ensures (msg.Withdraw? ==> info1.funds == info2.funds) ==>
              ExecuteSpec(stored, info1, msg, deps) == ExecuteSpec(stored, info2, msg, deps)
  {
  }

  /** The timeout and channel-open callbacks reach `unimplemented!()`: they panic and
      change nothing. */
  lemma UnimplementedCallbacksPanic(stored: Stored, info: MessageInfo, callback: IcaControllerCallbackMsg, deps: Deps)
    requires Loaded(stored)
    requires callback.OnChannelOpenAckCallback? || callback.OnTimeoutPacketCallback?
    ensures ExecuteSpec(stored, info, ReceiveIcaCallback(callback), deps)
            == Effect(Failure(Panic(Unimplemented(if callback.OnChannelOpenAckCallback? then "OnChannelOpenAckCallback"
                                                  else "OnTimeoutPacketCallback"))), stored)
  {
  }

  /** The owner paying funds into an owner-only command that refuses them gets `NonPayable`. */
  lemma OwnerWithFundsNonPayable(stored: Stored, info: MessageInfo, msg: ExecuteMsg, deps: Deps)
    requires Loaded(stored) && info.sender == stored.config.value.owner && info.funds != []
    requires msg.MoveFunds? || msg.UpdateConfig?
    ensures ExecuteSpec(stored, info, msg, deps) == Effect(Failure(Err(Payment(NonPayable))), stored)
  {
  }

  // UpdateConfig

  /** `UpdateConfig` succeeds exactly when the owner sends it without funds and the patched
      configuration validates; then it stores the patched configuration, every address of
      which the address service accepts, and leaves the state as it was. */
  lemma {:induction false} UpdateConfigPersistsValidated(stored: Stored, info: MessageInfo, update: ConfigUpdate, deps: Deps)
    requires Loaded(stored)
    ensures var c := stored.config.value;
            var e := ExecuteSpec(stored, info, UpdateConfig(update), deps);
            && (e.result.Success? <==>
                  info.sender == c.owner && info.funds == [] && c.Patch(update).Validate(deps.api).Pass?)
            && (e.result.Success? ==>
                  && e.result.value == UPDATE_CONFIG_RESPONSE
                  && e.stored == Stored(Some(c.Patch(update)), stored.state)
                  && forall i | 0 <= i < |c.Patch(update).Addresses()| ::
                       deps.api.addrValid(c.Patch(update).Addresses()[i]))
  {
    ValidateAcceptsExactlyValid(stored.config.value.Patch(update), deps.api);
  }

  /** A rejected update leaves the stored configuration untouched, even though the in-memory
      copy was already patched. */
  lemma UpdateConfigRejectedKeepsConfig(stored: Stored, info: MessageInfo, update: ConfigUpdate, deps: Deps)
    requires Loaded(stored) && info.sender == stored.config.value.owner && info.funds == []
    requires stored.config.value.Patch(update).Validate(deps.api).Fail?
    ensures ExecuteSpec(stored, info, UpdateConfig(update), deps)
            == Effect(Failure(Err(stored.config.value.Patch(update).Validate(deps.api).error)), stored)
  {
  }

  // Deposit

  /** `Deposit` is `try_deposit` on the loaded configuration and never changes storage. */
  lemma DepositIsTryDeposit(stored: Stored, info: MessageInfo, d: DepositMsg, deps: Deps)
    requires Loaded(stored)
    ensures var e := ExecuteSpec(stored, info, Deposit(d), deps);
            var t := TryDeposit(stored.config.value, d.destination);
            && e.stored == stored
            && (t.Success? ==> e.result == Success(t.value))
            && (t.Failure? ==> e.result == Failure(Err(t.error)))
  {
  }

  // The acknowledgement callback

  /** A packet whose payload does not decode is a standard error; one without memo is
      `UnknownMemo`; neither changes the state. */
  lemma AcknowledgementWithoutMemo(config: ConfigData, state: State, packet: IbcPacket,
                                   queryResult: Option<IcaQueryResult>, codec: JsonCodec)
    ensures var p := ExtractPacketMemo(codec, packet);
            var h := OnAcknowledgement(config, state, packet, queryResult, codec);
            && (p.Failure? ==> h == Handled(Failure(Err(Std(p.error))), config, state))
            && (p == Success(None) ==> h == Handled(Failure(Err(UnknownMemo)), config, state))
  {
  }

  /** Routing by prefix: memos starting with none of the three verbs are `UnknownMemo`;
      `withdraw` and `move_funds` memos reach unimplemented code. */
  lemma AcknowledgementRouting(config: ConfigData, state: State, packet: IbcPacket,
                               queryResult: Option<IcaQueryResult>, codec: JsonCodec, memo: string)
    requires ExtractPacketMemo(codec, packet) == Success(Some(memo))
    ensures var h := OnAcknowledgement(config, state, packet, queryResult, codec);
            && ((!StartsWith(memo, "deposit") && !StartsWith(memo, "withdraw") && !StartsWith(memo, "move_funds"))
                ==> h == Handled(Failure(Err(UnknownMemo)), config, state))
            && ((!StartsWith(memo, "deposit") && StartsWith(memo, "withdraw"))
                ==> h.result == Failure(Panic(Unimplemented("withdraw"))))
            && ((!StartsWith(memo, "deposit") && !StartsWith(memo, "withdraw") && StartsWith(memo, "move_funds"))
                ==> h.result == Failure(Panic(Unimplemented("move_funds"))))
            && (StartsWith(memo, "deposit") ==> h == OnDepositAcknowledgement(config, state, memo, queryResult))
  {
  }

  /** A memo other than five `/`-separated tokens led by `deposit` is `InvalidMemoFormat`,
      and only such a memo is. */
  lemma DepositMemoFormat(config: ConfigData, state: State, memo: string, queryResult: Option<IcaQueryResult>)
    ensures var h := OnDepositAcknowledgement(config, state, memo, queryResult);
            h.result == Failure(Err(InvalidMemoFormat(memo)))
            <==> !(|Split(memo, '/')| == 5 && Split(memo, '/')[0] == "deposit")
  {
  }

  /** A failed query is reported before any accounting, and changes nothing. */
  lemma QueryErrorFirst(config: ConfigData, state: State, memo: string, error: string)
    requires ParseDepositMemo(memo).Success?
    ensures OnDepositAcknowledgement(config, state, memo, Some(QueryError(error)))
            == Handled(Failure(Err(IcaQueryError(error))), config, state)
  {
  }

  /** With no receipts issued the redemption rate divides by zero: every well-formed deposit
      acknowledgement whose query did not fail panics. */
  lemma ZeroReceiptsPanic(config: ConfigData, state: State, memo: string, queryResult: Option<IcaQueryResult>)
    requires ParseDepositMemo(memo).Success? && CreditedAmount(queryResult).Success?
    requires state.virtualReceipt == 0
    ensures OnDepositAcknowledgement(config, state, memo, queryResult).result == Failure(Panic(DivideByZero))
  {
  }

  /** The amount is parsed before the destination is looked up: an unparsable amount is
      `InvalidAmount` even when the destination is unknown, yet the new rate stays in memory. */
  lemma InvalidAmountBeforeDestination(config: ConfigData, state: State, memo: string, queryResult: Option<IcaQueryResult>)
    requires ParseDepositMemo(memo).Success? && CreditedAmount(queryResult).Success?
    requires FromRatio(state.totalStables, state.virtualReceipt).Success?
    requires ParseU128(ParseDepositMemo(memo).value.amount).None?
    ensures var h := OnDepositAcknowledgement(config, state, memo, queryResult);
            && h.result == Failure(Err(InvalidAmount))
            && h.state == state.(depositRedemptionRate := FromRatio(state.totalStables, state.virtualReceipt).value)
  {
  }

  /** The destination is looked up last: with the memo, the query, the rate and the amount
      all in order, an unregistered destination is `DestinationNotFound` of that token; the
      configuration is kept, and only the in-memory state holds the recomputed rate. */
  lemma {:induction false} UnknownDestination(config: ConfigData, state: State, memo: string,
                                              queryResult: Option<IcaQueryResult>)
    requires ParseDepositMemo(memo).Success? && CreditedAmount(queryResult).Success?
    requires FromRatio(state.totalStables, state.virtualReceipt).Success?
    requires ParseU128(ParseDepositMemo(memo).value.amount).Some?
    requires config.FindDestinationOutpost(ParseDepositMemo(memo).value.destination).None?
    ensures var h := OnDepositAcknowledgement(config, state, memo, queryResult);
            && h.result == Failure(Err(DestinationNotFound(ParseDepositMemo(memo).value.destination)))
            && h.config == config
            && h.state == state.(depositRedemptionRate := FromRatio(state.totalStables, state.virtualReceipt).value)
  {
    assert AddU128(state.totalStables, 0) == Success(state.totalStables);
  }

  /** The deposit acknowledgement succeeds exactly when the memo is well formed, the query did
      not fail, the rate is defined, the amount parses and the destination is registered. It
      then credits nothing, leaves the receipts alone, recomputes the rate as
      `total_stables / virtual_receipt` in 18-decimal fixed point, and emits one command: to the
      destination's controller, a credit-manager call that deposits and then lends the coin. */
  lemma {:induction false} DepositAcknowledgementSuccess(config: ConfigData, state: State, memo: string,
                                                         queryResult: Option<IcaQueryResult>)
    ensures var h := OnDepositAcknowledgement(config, state, memo, queryResult);
            var p := ParseDepositMemo(memo);
            h.result.Success? <==>
              && p.Success? && CreditedAmount(queryResult).Success?
              && FromRatio(state.totalStables, state.virtualReceipt).Success?
              && ParseU128(p.value.amount).Some?
              && config.FindDestinationOutpost(p.value.destination).Some?
    ensures var h := OnDepositAcknowledgement(config, state, memo, queryResult);
            h.result.Success? ==>
              var dm := ParseDepositMemo(memo).value;
              var outpost := config.FindDestinationOutpost(dm.destination).value;
              var coin := Coin(dm.denom, ParseU128(dm.amount).value);
              && state.virtualReceipt != 0
              && h.state.totalStables == state.totalStables
              && h.state.virtualReceipt == state.virtualReceipt
              && h.state.depositRedemptionRate.atomics * state.virtualReceipt
                 <= state.totalStables * DECIMAL_FRACTIONAL
                 < (h.state.depositRedemptionRate.atomics + 1) * state.virtualReceipt
              && outpost in config.outposts && outpost.marsRedBankContract == dm.destination
              && h.result.value == Response([Wasm(DepositLendCommand(outpost, coin))], [])
  {
    var p := ParseDepositMemo(memo);
    if p.Success? && CreditedAmount(queryResult).Success? {
      assert AddU128(state.totalStables, 0) == Success(state.totalStables);
    }
  }

  /** The emitted command goes to the controller with no memo, and carries one credit-manager
      call to the red bank that deposits the coin and then lends it, with the coin as funds. */
  lemma DepositLendCommandShape(outpost: Outpost, coin: Coin)
    ensures var w := DepositLendCommand(outpost, coin);
            && w.contractAddr == outpost.cwIcaControllerContract && w.funds == []
            && w.msg == SendCosmosMsgs([Wasm(WasmExecute(outpost.marsRedBankContract,
                                                         CreditManager(UpdateCreditAccount(None, None,
                                                           [DepositAction(coin), LendAction(ActionCoin(coin.denom, Exact(coin.amount)))])),
                                                         [coin]))],
                                       [], None, None)
  {
  }

  /** A deposit memo is read back from its five tokens when none contains `/`. */
  lemma {:induction false} ParseDepositMemoRoundTrip(address: string, denom: string, amount: string, destination: string)
    requires '/' !in address && '/' !in denom && '/' !in amount && '/' !in destination
    ensures ParseDepositMemo(Join(["deposit", address, denom, amount, destination], '/'))
            == Success(DepositMemo(address, denom, amount, destination))
  {
    var parts := ["deposit", address, denom, amount, destination];
    assert '/' !in "deposit";
    SplitJoin(parts, '/');
  }

  lemma JoinFour(a: string, b: string, c: string, d: string, sep: char)
    ensures Join([a, b, c, d], sep) == a + [sep] + b + [sep] + c + [sep] + d
  {
    assert [a, b, c, d][1..] == [b, c, d] && [b, c, d][1..] == [c, d] && [c, d][1..] == [d];
    assert Join([c, d], sep) == c + [sep] + d;
    assert Join([b, c, d], sep) == b + [sep] + (c + [sep] + d);
  }

  lemma JoinFive(a: string, b: string, c: string, d: string, e: string, sep: char)
    ensures Join([a, b, c, d, e], sep) == a + [sep] + b + [sep] + c + [sep] + d + [sep] + e
  {
    assert [a, b, c, d, e][1..] == [b, c, d, e];
    JoinFour(b, c, d, e, sep);
  }

  /** The memo of an example deposit reads back as its five tokens. */
  lemma ExampleMemoParses()
    ensures ParseDepositMemo("deposit/userX/uusd/1000000/chainA")
            == Success(DepositMemo("userX", "uusd", "1000000", "chainA"))
  {
    ExampleMemoText();
    ParseDepositMemoRoundTrip("userX", "uusd", "1000000", "chainA");
  }

  lemma ExampleMemoText()
    ensures "deposit/userX/uusd/1000000/chainA" == Join(["deposit", "userX", "uusd", "1000000", "chainA"], '/')
  {
    JoinFive("deposit", "userX", "uusd", "1000000", "chainA", '/');
  }

  lemma ShortMemoText()
    ensures "deposit/userX/uusd/1000000" == Join(["deposit", "userX", "uusd", "1000000"], '/')
    ensures "deposit" == Join(["deposit"], '/')
  {
    JoinFour("deposit", "userX", "uusd", "1000000", '/');
  }

  lemma ExampleAmountParses()
    ensures ParseU128("1000000") == Some(1000000)
  {
    assert DigitsValue("1") == 1 by { assert "1"[..0] == ""; }
    assert DigitsValue("10") == 10 by { assert "10"[..1] == "1"; }
    assert DigitsValue("100") == 100 by { assert "100"[..2] == "10"; }
    assert DigitsValue("1000") == 1000 by { assert "1000"[..3] == "100"; }
    assert DigitsValue("10000") == 10000 by { assert "10000"[..4] == "1000"; }
    assert DigitsValue("100000") == 100000 by { assert "100000"[..5] == "10000"; }
    assert DigitsValue("1000000") == 1000000 by { assert "1000000"[..6] == "100000"; }
  }

  /** An example deposit: an outpost whose red bank is `chainA` behind controller `ctrlA`,
      and the memo `deposit/userX/uusd/1000000/chainA`. The pool total stays where it was,
      and one command to `ctrlA` deposits and lends 1000000 uusd. */
  lemma {:induction false} ExampleDepositAcknowledgement(options: ChannelOpenInitOptions, config: ConfigData,
                                                          state: State, queryResult: Option<IcaQueryResult>)
    requires config.outposts == [Outpost("chainA", "ctrlA", options, None)]
    requires FromRatio(state.totalStables, state.virtualReceipt).Success?
    requires CreditedAmount(queryResult).Success?
    ensures var h := OnDepositAcknowledgement(config, state, "deposit/userX/uusd/1000000/chainA", queryResult);
            && h.result.Success?
            && h.state.totalStables == state.totalStables
            && h.result.value.messages ==
               [Wasm(DepositLendCommand(Outpost("chainA", "ctrlA", options, None), Coin("uusd", 1000000)))]
            && h.result.value.messages[0].wasm.contractAddr == "ctrlA"
  {
    ExampleMemoParses();
    ExampleAmountParses();
    assert config.FindDestinationOutpost("chainA") == Some(Outpost("chainA", "ctrlA", options, None));
    DepositAcknowledgementSuccess(config, state, "deposit/userX/uusd/1000000/chainA", queryResult);
  }

  lemma ShortMemosSplit()
    ensures Split("deposit/userX/uusd/1000000", '/') == ["deposit", "userX", "uusd", "1000000"]
    ensures Split("deposit", '/') == ["deposit"]
  {
    ShortMemoText();
    assert '/' !in "deposit";
    SplitJoin(["deposit", "userX", "uusd", "1000000"], '/');
    SplitJoin(["deposit"], '/');
  }

  /** A memo missing its destination token, and a bare `deposit`, are `InvalidMemoFormat`. */
  lemma {:induction false} ShortDepositMemos(config: ConfigData, state: State, queryResult: Option<IcaQueryResult>)
    ensures OnDepositAcknowledgement(config, state, "deposit/userX/uusd/1000000", queryResult).result
            == Failure(Err(InvalidMemoFormat("deposit/userX/uusd/1000000")))
    ensures OnDepositAcknowledgement(config, state, "deposit", queryResult).result
            == Failure(Err(InvalidMemoFormat("deposit")))
  {
    ShortMemosSplit();
    DepositMemoFormat(config, state, "deposit/userX/uusd/1000000", queryResult);
    DepositMemoFormat(config, state, "deposit", queryResult);
  }

  /** The query `try_deposit` sends is tagged with the bare memo `deposit`: when its
      acknowledgement comes back, the callback rejects that very memo as `InvalidMemoFormat`.
      The contract's own deposit round trip never reaches the accounting. */
  lemma {:induction false} OwnDepositAcknowledgementRejected(config: ConfigData, state: State, destination: string,
                                                             codec: JsonCodec, sequence: U64,
                                                             queryResult: Option<IcaQueryResult>)
    requires TryDeposit(config, destination).Success?
    requires var w := TryDeposit(config, destination).value.messages[0].wasm;
             ReadsBack(codec, ToWire(IcaPacketData(w.msg.messages, w.msg.queries, w.msg.packetMemo)))
    ensures var w := TryDeposit(config, destination).value.messages[0].wasm;
            var p := ControllerPacket(codec, w, sequence);
            && p.Some?
            && OnAcknowledgement(config, state, p.value, queryResult, codec)
               == Handled(Failure(Err(InvalidMemoFormat(DEPOSIT_MEMO))), config, state)
  {
    var w := TryDeposit(config, destination).value.messages[0].wasm;
    TryDepositCommand(config, destination);
    MemoSurvivesRoundTrip(codec, w.contractAddr, w.msg.packetMemo, w.msg.messages, w.msg.queries, sequence);
    assert w == ExecuteIca(w.contractAddr, w.msg.packetMemo, w.msg.messages, w.msg.queries);
    ShortDepositMemos(config, state, queryResult);
  }

  // Instantiate

  /** `instantiate` stores the owner and code id it was given and one outpost per outpost
      given, each with its controller replaced by the predicted address and nothing else
      changed, and every stored address is valid. */
  lemma {:induction false} InstantiateStores(deps: Deps, env: Env, msg: InstantiateMsg)
    requires InstantiateSpec(deps, env, msg).Success?
    ensures var c := InstantiateSpec(deps, env, msg).value;
            && c.owner == msg.owner && c.cwIcaControllerCodeId == msg.cwIcaControllerCodeId
            && |c.outposts| == |msg.outposts|
            && (forall i | 0 <= i < |msg.outposts| ::
                  && c.outposts[i].marsRedBankContract == msg.outposts[i].marsRedBankContract
                  && c.outposts[i].channelOpenInitOptions == msg.outposts[i].channelOpenInitOptions
                  && c.outposts[i].accountId == msg.outposts[i].accountId
                  && var predicted := PredictedController(deps, env, deps.codeChecksum(msg.cwIcaControllerCodeId).value,
                                                          msg.outposts[i]);
                     predicted.Success? && c.outposts[i].cwIcaControllerContract == predicted.value)
            && forall i | 0 <= i < |c.Addresses()| :: deps.api.addrValid(c.Addresses()[i])
  {
    ValidateAcceptsExactlyValid(InstantiateSpec(deps, env, msg).value, deps.api);
    PredictAllPointwise(deps, env, deps.codeChecksum(msg.cwIcaControllerCodeId).value, msg.outposts);
  }

  /** After `instantiate` the state item is still missing, so every `execute` fails to load
      it, and the query returns what was stored. */
  method InstantiateThenExecute(env: Env, owner: MessageInfo, msg: InstantiateMsg, deps: Deps,
                                info: MessageInfo, command: ExecuteMsg)
    returns (instantiated: Result<Response, Halt>, executed: Result<Response, Halt>,
             queried: Result<ConfigResponse, ContractError>)
    ensures instantiated.Success? <==> InstantiateSpec(deps, env, msg).Success?
    ensures instantiated.Success? ==> executed == Failure(Err(Std(NotFound(STATE_KIND))))
    ensures instantiated.Success? ==> queried == Success(InstantiateSpec(deps, env, msg).value.ToResponse())
    ensures instantiated.Failure? ==> executed == Failure(Err(Std(NotFound(CONFIG_KIND))))
    ensures instantiated.Failure? ==> queried == Failure(Std(NotFound(CONFIG_KIND)))
  {
    var contract := new Contract();
    instantiated := contract.Instantiate(env, owner, msg, deps);
    executed := contract.Execute(info, command, deps);
    queried := contract.Query(ConfigQuery);
  }
}
