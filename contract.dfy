/** The contract's entry points (src/contract.rs): `instantiate`, `execute` with the owner
    gates and the acknowledgement-callback state machine, and `query`. Each entry point loads
    the configuration and the pool state, works on them in memory, and writes them back only
    when it succeeds. */
module Contract {
  import opened Wrappers
  import opened Numbers
  import opened Errors
  import opened Strings
  import opened Cosmos
  import opened Msg
  import opened Config
  import opened Ica
  import opened Deposit
  import opened State

  /** What a failed load of the two storage items reports. */
  const CONFIG_KIND: string := "Config"
  const STATE_KIND: string := "State"

  /** The opaque channel handlers (`try_create_channel`, `try_close_channel`); they take no
      arguments, so each has one fixed outcome. */
  datatype Channels = Channels(createChannel: Result<Response, Halt>, closeChannel: Result<Response, Halt>)

  /** Everything an entry point reaches outside its own code: the address services, the
      JSON codec, the code-info query, `instantiate2_address`, and the channel handlers. */
  datatype Deps = Deps(api: Api,
                       codec: JsonCodec,
                       codeChecksum: U64 -> Option<Binary>,
                       instantiate2Address: (Binary, Binary, string) -> Option<Binary>,
                       channels: Channels)

  // The memo grammar of the acknowledgement path

  /** Which arm a memo enters, by prefix, in the order the arms are tried. */
  datatype MemoRoute = DepositRoute | WithdrawRoute | MoveFundsRoute | UnknownRoute

  function RouteMemo(memo: string): MemoRoute
  {
    if StartsWith(memo, "deposit") then DepositRoute
    else if StartsWith(memo, "withdraw") then WithdrawRoute
    else if StartsWith(memo, "move_funds") then MoveFundsRoute
    else UnknownRoute
  }

  /** The four tokens after `deposit` in a well-formed deposit memo. */
  datatype DepositMemo = DepositMemo(address: string, denom: string, amount: string, destination: string)

  /** The slice pattern `["deposit", address, denom, amount, destination]` over `split('/')`. */
  function ParseDepositMemo(memo: string): (r: Result<DepositMemo, ContractError>)
    ensures r.Success? <==> |Split(memo, '/')| == 5 && Split(memo, '/')[0] == "deposit"
    ensures r.Failure? ==> r.error == InvalidMemoFormat(memo)
    ensures r.Success? ==>
              memo == Join(["deposit", r.value.address, r.value.denom, r.value.amount, r.value.destination], '/')
  {
    var parts := Split(memo, '/');
    if |parts| == 5 && parts[0] == "deposit" then
      assert parts == ["deposit", parts[1], parts[2], parts[3], parts[4]];
      Success(DepositMemo(parts[1], parts[2], parts[3], parts[4]))
    else Failure(InvalidMemoFormat(memo))
  }

  /** The amount credited to the pool for a deposit acknowledgement: a failed query is an
      error; otherwise the amount is hard-wired to zero, query results or not. */
  function CreditedAmount(queryResult: Option<IcaQueryResult>): (r: Result<Uint128, ContractError>)
    ensures r.Failure? <==> queryResult.Some? && queryResult.value.QueryError?
    ensures r.Failure? ==> r.error == IcaQueryError(queryResult.value.queryError)
    ensures r.Success? ==> r.value == 0
  {
    match queryResult
    case None => Success(0)
    case Some(QuerySuccess(_, _)) => Success(0)
    case Some(QueryError(e)) => Failure(IcaQueryError(e))
  }

  /** The command a deposit acknowledgement emits: through the outpost's controller, one
      credit-manager call that deposits the coin and lends it, with the coin as funds. */
  function DepositLendCommand(outpost: Outpost, coin: Coin): WasmMsg
  {
    var updateCredit :=
      WasmExecute(outpost.marsRedBankContract,
                  CreditManager(UpdateCreditAccount(None, None, [DepositAction(coin), LendAction(ActionCoinFrom(coin))])),
                  [coin]);
    ExecuteIca(outpost.cwIcaControllerContract, None, [Wasm(updateCredit)], [])
  }

  // The handlers, as functions of the loaded configuration and state

  /** The outcome of a handler with the configuration and state it leaves in memory. */
  datatype Handled = Handled(result: Result<Response, Halt>, config: ConfigData, state: State)

  /** The deposit arm of the acknowledgement callback. */
  function OnDepositAcknowledgement(config: ConfigData, state: State, memo: string,
                                    queryResult: Option<IcaQueryResult>): Handled
  {
    match ParseDepositMemo(memo)
    case Failure(e) => Handled(Failure(Err(e)), config, state)
    case Success(dm) =>
      match CreditedAmount(queryResult)
      case Failure(e) => Handled(Failure(Err(e)), config, state)
      case Success(credit) =>
        match AddU128(state.totalStables, credit)
        case Failure(p) => Handled(Failure(Panic(p)), config, state)
        case Success(total) =>
          match FromRatio(total, state.virtualReceipt)
          case Failure(p) => Handled(Failure(Panic(p)), config, state.(totalStables := total))
          case Success(rate) =>
            var updated := state.(totalStables := total, depositRedemptionRate := rate);
            match ParseU128(dm.amount)
            case None => Handled(Failure(Err(InvalidAmount)), config, updated)
            case Some(amount) =>
              match config.FindDestinationOutpost(dm.destination)
              case None => Handled(Failure(Err(DestinationNotFound(dm.destination))), config, updated)
              case Some(outpost) =>
                var command := DepositLendCommand(outpost, Coin(dm.denom, amount));
                Handled(Success(Response([Wasm(command)], [])), config, updated)
  }

  /** `OnAcknowledgementPacketCallback`: routes on the memo the original packet carried. */
  function OnAcknowledgement(config: ConfigData, state: State, packet: IbcPacket,
                             queryResult: Option<IcaQueryResult>, codec: JsonCodec): Handled
  {
    match ExtractPacketMemo(codec, packet)
    case Failure(e) => Handled(Failure(Err(Std(e))), config, state)
    case Success(None) => Handled(Failure(Err(UnknownMemo)), config, state)
    case Success(Some(memo)) =>
      match RouteMemo(memo)
      case DepositRoute => OnDepositAcknowledgement(config, state, memo, queryResult)
      case WithdrawRoute => Handled(Failure(Panic(Unimplemented("withdraw"))), config, state)
      case MoveFundsRoute => Handled(Failure(Panic(Unimplemented("move_funds"))), config, state)
      case UnknownRoute => Handled(Failure(Err(UnknownMemo)), config, state)
  }

  const UPDATE_CONFIG_RESPONSE: Response := Response([], [Attribute("method", "update_config")])

  /** The `match msg` of `execute`. */
  function Handle(config: ConfigData, state: State, info: MessageInfo, msg: ExecuteMsg, deps: Deps): Handled
  {
    match msg
    case Deposit(d) =>
      (match TryDeposit(config, d.destination)
       case Failure(e) => Handled(Failure(Err(e)), config, state)
       case Success(response) => Handled(Success(response), config, state))
    case Withdraw(_) =>
      if info.funds != [] then Handled(Failure(Err(Payment(NonPayable))), config, state)
      else Handled(Failure(Panic(Unimplemented("try_withdraw"))), config, state)
    case CreateVault =>
      if config.owner != info.sender then Handled(Failure(Err(Unauthorized)), config, state)
      else Handled(Failure(Panic(Unimplemented("try_create_vault"))), config, state)
    case CreateChannel =>
      if config.owner != info.sender then Handled(Failure(Err(Unauthorized)), config, state)
      else Handled(deps.channels.createChannel, config, state)
    case CloseChannel =>
      if config.owner != info.sender then Handled(Failure(Err(Unauthorized)), config, state)
      else Handled(deps.channels.closeChannel, config, state)
    case MoveFunds(_) =>
      if config.owner != info.sender then Handled(Failure(Err(Unauthorized)), config, state)
      else if info.funds != [] then Handled(Failure(Err(Payment(NonPayable))), config, state)
      else Handled(Failure(Panic(Unimplemented("try_move_funds"))), config, state)
    case ReceiveIcaCallback(callback) =>
      (match callback
       case OnChannelOpenAckCallback(_, _, _) =>
         Handled(Failure(Panic(Unimplemented("OnChannelOpenAckCallback"))), config, state)
       case OnTimeoutPacketCallback(_, _) =>
         Handled(Failure(Panic(Unimplemented("OnTimeoutPacketCallback"))), config, state)
       case OnAcknowledgementPacketCallback(_, packet, _, queryResult) =>
         OnAcknowledgement(config, state, packet, queryResult, deps.codec))
    case UpdateConfig(update) =>
      if info.sender != config.owner then Handled(Failure(Err(Unauthorized)), config, state)
      else if info.funds != [] then Handled(Failure(Err(Payment(NonPayable))), config, state)
      else
        var patched := config.Patch(update);
        match patched.Validate(deps.api)
        case Fail(e) => Handled(Failure(Err(e)), patched, state)
        case Pass => Handled(Success(UPDATE_CONFIG_RESPONSE), patched, state)
  }

  /** The acknowledgement arm of `execute`, step by step on a working copy of the state:
      extract and route the memo, check the query, credit the pool and recompute the rate in
      place, parse the amount, find the outpost and build the deposit-and-lend command. */
  method ReceiveAcknowledgement(config: ConfigData, state: State, packet: IbcPacket,
                                queryResult: Option<IcaQueryResult>, codec: JsonCodec)
    returns (r: Result<Response, Halt>, after: State)
    ensures Handled(r, config, after) == OnAcknowledgement(config, state, packet, queryResult, codec)
  {
    after := state;
    var packetMemo := ExtractPacketMemo(codec, packet);
    if packetMemo.Failure? {
      return Failure(Err(Std(packetMemo.error))), after;
    }
    if packetMemo.value.None? {
      return Failure(Err(UnknownMemo)), after;
    }
    var memo := packetMemo.value.value;
    if StartsWith(memo, "deposit") {
      var parts := Split(memo, '/');
      if !(|parts| == 5 && parts[0] == "deposit") {
        return Failure(Err(InvalidMemoFormat(memo))), after;
      }
      var denom, amount, destination := parts[2], parts[3], parts[4];
      var stableAmount: Uint128 := 0;
      if queryResult.Some? && queryResult.value.QueryError? {
        return Failure(Err(IcaQueryError(queryResult.value.queryError))), after;
      }
      var total := AddU128(after.totalStables, stableAmount);
      // Adding the zero credit cannot overflow.
      assert total.Success?;
      after := after.(totalStables := total.value);
      var rate := FromRatio(after.totalStables, after.virtualReceipt);
      if rate.Failure? {
        return Failure(Panic(rate.error)), after;
      }
      after := after.(depositRedemptionRate := rate.value);
      var parsed := ParseU128(amount);
      if parsed.None? {
        return Failure(Err(InvalidAmount)), after;
      }
      var coin := Coin(denom, parsed.value);
      var funds := [coin];
      var outpost := config.FindDestinationOutpost(destination);
      if outpost.None? {
        return Failure(Err(DestinationNotFound(destination))), after;
      }
      var updateCredit :=
        WasmExecute(outpost.value.marsRedBankContract,
                    CreditManager(UpdateCreditAccount(None, None, [DepositAction(coin), LendAction(ActionCoinFrom(coin))])),
                    funds);
      var command := ExecuteIca(outpost.value.cwIcaControllerContract, None, [Wasm(updateCredit)], []);
      r := Success(Response([Wasm(command)], []));
    } else if StartsWith(memo, "withdraw") {
      r := Failure(Panic(Unimplemented("withdraw")));
    } else if StartsWith(memo, "move_funds") {
      r := Failure(Panic(Unimplemented("move_funds")));
    } else {
      r := Failure(Err(UnknownMemo));
    }
  }

  /** The two storage items an entry point reads and writes. */
  datatype Stored = Stored(config: Option<ConfigData>, state: Option<State>)

  /** An entry point's result together with the storage it leaves. */
  datatype Effect = Effect(result: Result<Response, Halt>, stored: Stored)

  /** `execute` as a function of storage: load both items, run the handler, and on success
      save the state (and, for `UpdateConfig`, the configuration the handler saved). */
  function ExecuteSpec(stored: Stored, info: MessageInfo, msg: ExecuteMsg, deps: Deps): Effect
  {
    if stored.config.None? then Effect(Failure(Err(Std(NotFound(CONFIG_KIND)))), stored)
    else if stored.state.None? then Effect(Failure(Err(Std(NotFound(STATE_KIND)))), stored)
    else
      var h := Handle(stored.config.value, stored.state.value, info, msg, deps);
      if h.result.Success? then Effect(h.result, Stored(Some(h.config), Some(h.state)))
      else Effect(h.result, stored)
  }

  // instantiate

  /** The salt `format!("{}_{}", mars_red_bank_contract, env.block.time.seconds())`. */
  function Salt(outpost: Outpost, env: Env): string
  {
    outpost.marsRedBankContract + "_" + Render(env.blockTimeSeconds)
  }

  /** The controller address `instantiate` predicts for one outpost. */
  function PredictedController(deps: Deps, env: Env, checksum: Binary, outpost: Outpost): Result<Addr, Halt>
  {
    match deps.api.canonicalize(env.contractAddress)
    case None => Failure(Err(Std(HostError("addr_canonicalize"))))
    case Some(creator) =>
      match deps.instantiate2Address(checksum, creator, Salt(outpost, env))
      case None => Failure(Panic(UnwrapFailed("instantiate2_address")))
      case Some(canonical) =>
        match deps.api.humanize(canonical)
        case None => Failure(Err(Std(HostError("addr_humanize"))))
        case Some(addr) => Success(addr)
  }

  /** The outposts with each controller overwritten by its predicted address, or the first
      failure met walking the list in order. */
  function PredictAll(deps: Deps, env: Env, checksum: Binary, outposts: seq<Outpost>): (r: Result<seq<Outpost>, Halt>)
    ensures r.Success? ==> |r.value| == |outposts|
  {
    if outposts == [] then Success([])
    else
      var n := |outposts| - 1;
      match PredictAll(deps, env, checksum, outposts[..n])
      case Failure(h) => Failure(h)
      case Success(done) =>
        match PredictedController(deps, env, checksum, outposts[n])
        case Failure(h) => Failure(h)
        case Success(addr) => Success(done + [outposts[n].(cwIcaControllerContract := addr)])
  }

  /** On success every outpost got its own predicted controller and kept its place. */
  lemma {:induction false} PredictAllPointwise(deps: Deps, env: Env, checksum: Binary, outposts: seq<Outpost>)
    requires PredictAll(deps, env, checksum, outposts).Success?
    ensures forall i | 0 <= i < |outposts| ::
              && PredictedController(deps, env, checksum, outposts[i]).Success?
              && PredictAll(deps, env, checksum, outposts).value[i]
                 == outposts[i].(cwIcaControllerContract := PredictedController(deps, env, checksum, outposts[i]).value)
  {
    if outposts != [] {
      var n := |outposts| - 1;
      PredictAllPointwise(deps, env, checksum, outposts[..n]);
      forall i | 0 <= i < |outposts|
        ensures PredictedController(deps, env, checksum, outposts[i]).Success?
      {
        if i < n {
          assert outposts[..n][i] == outposts[i];
        }
      }
    }
  }

  /** One more outpost: the walk over a longer prefix extends the walk over the shorter one. */
  lemma PredictAllStep(deps: Deps, env: Env, checksum: Binary, outposts: seq<Outpost>, i: nat, done: seq<Outpost>)
    requires i < |outposts|
    requires PredictAll(deps, env, checksum, outposts[..i]) == Success(done)
    ensures var p := PredictedController(deps, env, checksum, outposts[i]);
            && (p.Failure? ==> PredictAll(deps, env, checksum, outposts[..i + 1]) == Failure(p.error))
            && (p.Success? ==> PredictAll(deps, env, checksum, outposts[..i + 1])
                                 == Success(done + [outposts[i].(cwIcaControllerContract := p.value)]))
  {
    assert outposts[..i + 1][..i] == outposts[..i];
  }

  /** The first failure is final: the walk reports the failure of the shortest failing prefix. */
  lemma {:induction false} PredictAllStopsAtFailure(deps: Deps, env: Env, checksum: Binary, outposts: seq<Outpost>, k: nat)
    requires k <= |outposts|
    requires PredictAll(deps, env, checksum, outposts[..k]).Failure?
    ensures PredictAll(deps, env, checksum, outposts) == PredictAll(deps, env, checksum, outposts[..k])
    decreases |outposts| - k
  {
    if k == |outposts| {
      assert outposts[..k] == outposts;
    } else {
      var n := |outposts| - 1;
      assert outposts[..n][..k] == outposts[..k];
      PredictAllStopsAtFailure(deps, env, checksum, outposts[..n], k);
    }
  }

  /** `instantiate` up to the save: the configuration it stores, or how it halts. */
  function InstantiateSpec(deps: Deps, env: Env, msg: InstantiateMsg): Result<ConfigData, Halt>
  {
    match deps.codeChecksum(msg.cwIcaControllerCodeId)
    case None => Failure(Err(Std(HostError("query_wasm_code_info"))))
    case Some(checksum) =>
      match PredictAll(deps, env, checksum, msg.outposts)
      case Failure(h) => Failure(h)
      case Success(outposts) =>
        var config := ConfigData(msg.owner, outposts, msg.cwIcaControllerCodeId);
        match config.Validate(deps.api)
        case Fail(e) => Failure(Err(e))
        case Pass => Success(config)
  }

  function InstantiateResponse(owner: Addr): Response
  {
    Response([], [Attribute("method", "instantiate"), Attribute("owner", owner)])
  }

  /** One turn of the `instantiate` loop: canonicalize the contract's own address, predict
      the controller's address from the checksum and the salt, and humanize it. */
  method PredictController(deps: Deps, env: Env, checksum: Binary, outpost: Outpost) returns (r: Result<Addr, Halt>)
    ensures r == PredictedController(deps, env, checksum, outpost)
  {
    var creator := deps.api.canonicalize(env.contractAddress);
    if creator.None? {
      return Failure(Err(Std(HostError("addr_canonicalize"))));
    }
    var predicted := deps.instantiate2Address(checksum, creator.value, Salt(outpost, env));
    if predicted.None? {
      return Failure(Panic(UnwrapFailed("instantiate2_address")));
    }
    var human := deps.api.humanize(predicted.value);
    if human.None? {
      return Failure(Err(Std(HostError("addr_humanize"))));
    }
    r := Success(human.value);
  }

  /** The walk over `original` stopped at outpost `k`: the outposts before it hold their
      predicted controllers, the prediction for outpost `k` failed with `error`, and it and
      every later outpost are as they were. */
  ghost predicate StoppedAt(deps: Deps, env: Env, checksum: Binary, original: seq<Outpost>, now: seq<Outpost>,
                            error: Halt, k: nat)
  {
    && k < |original| == |now|
    && PredictAll(deps, env, checksum, original[..k]) == Success(now[..k])
    && PredictedController(deps, env, checksum, original[k]) == Failure(error)
    && now[k..] == original[k..]
  }

  /** The loop of `instantiate`: overwrites each outpost's controller with its predicted
      address, in place and in order, stopping at the first failure. Owner and code id are
      never touched. */
  method PredictOutposts(config: Config, deps: Deps, env: Env, checksum: Binary) returns (r: Outcome<Halt>)
    modifies config
    ensures var p := PredictAll(deps, env, checksum, old(config.outposts));
            && (r.Pass? <==> p.Success?)
            && (r.Fail? ==> p == Failure(r.error))
            && (r.Pass? ==> config.Data() == old(config.Data()).(outposts := p.value))
    ensures config.owner == old(config.owner) && config.cwIcaControllerCodeId == old(config.cwIcaControllerCodeId)
    ensures r.Fail? ==> exists k :: StoppedAt(deps, env, checksum, old(config.outposts), config.outposts, r.error, k)
  {
    ghost var original := config.outposts;
    var i := 0;
    while i < |config.outposts|
      invariant 0 <= i <= |config.outposts| == |original|
      invariant config.owner == old(config.owner) && config.cwIcaControllerCodeId == old(config.cwIcaControllerCodeId)
      invariant forall j | i <= j < |original| :: config.outposts[j] == original[j]
      invariant PredictAll(deps, env, checksum, original[..i]) == Success(config.outposts[..i])
    {
      var outpost := config.outposts[i];
      PredictAllStep(deps, env, checksum, original, i, config.outposts[..i]);
      var predicted := PredictController(deps, env, checksum, outpost);
      if predicted.Failure? {
        PredictAllStopsAtFailure(deps, env, checksum, original, i + 1);
        assert config.outposts[i..] == original[i..];
        assert StoppedAt(deps, env, checksum, original, config.outposts, predicted.error, i);
        return Fail(predicted.error);
      }
      ghost var done := config.outposts[..i];
      config.outposts := config.outposts[i := outpost.(cwIcaControllerContract := predicted.value)];
      assert config.outposts[..i + 1] == done + [config.outposts[i]];
      i := i + 1;
    }
    assert original[..i] == original && config.outposts[..i] == config.outposts;
    r := Pass;
  }

  // The contract's storage and entry points

  class Contract {
    /** `CONFIG` and `STATE`. */
    const configItem: ConfigItem
    const stateItem: StateItem

    /** A freshly deployed contract: nothing stored yet. */
    constructor ()
      ensures configItem.stored == None && stateItem.stored == None
      ensures fresh(configItem) && fresh(stateItem)
    {
      configItem := new ConfigItem();
      stateItem := new StateItem();
    }

    /** `instantiate`: predicts each outpost's controller address in place, then saves the
        validated configuration. It never writes `STATE`. */
    method Instantiate(env: Env, info: MessageInfo, msg: InstantiateMsg, deps: Deps) returns (r: Result<Response, Halt>)
      modifies configItem
      ensures var s := InstantiateSpec(deps, env, msg);
              && (s.Success? ==> r == Success(InstantiateResponse(msg.owner)) && configItem.stored == Some(s.value))
              && (s.Failure? ==> r == Failure(s.error) && configItem.stored == old(configItem.stored))
      ensures stateItem.stored == old(stateItem.stored)
    {
      var checksum := deps.codeChecksum(msg.cwIcaControllerCodeId);
      if checksum.None? {
        return Failure(Err(Std(HostError("query_wasm_code_info"))));
      }
      var config := new Config.New(msg);
      var predicted := PredictOutposts(config, deps, env, checksum.value);
      if predicted.Fail? {
        return Failure(predicted.error);
      }
      var saved := config.Save(configItem, deps.api);
      if saved.Fail? {
        return Failure(Err(saved.error));
      }
      r := Success(InstantiateResponse(config.owner));
    }

    /** `execute`: loads both items, dispatches, and saves the state only on success; a
        halted call leaves storage exactly as it found it. */
    method Execute(info: MessageInfo, msg: ExecuteMsg, deps: Deps) returns (r: Result<Response, Halt>)
      modifies configItem, stateItem
      ensures Effect(r, Stored(configItem.stored, stateItem.stored))
              == ExecuteSpec(old(Stored(configItem.stored, stateItem.stored)), info, msg, deps)
    {
      if configItem.stored.None? {
        return Failure(Err(Std(NotFound(CONFIG_KIND))));
      }
      var config := new Config.Load(configItem.stored.value);
      if stateItem.stored.None? {
        return Failure(Err(Std(NotFound(STATE_KIND))));
      }
      var state := stateItem.stored.value;
      var response: Response;
      match msg {
        case Deposit(d) =>
          var deposit := TryDeposit(config.Data(), d.destination);
          if deposit.Failure? {
            return Failure(Err(deposit.error));
          }
          response := deposit.value;
        case Withdraw(_) =>
          if Nonpayable(info).Fail? {
            return Failure(Err(Payment(NonPayable)));
          }
          return Failure(Panic(Unimplemented("try_withdraw")));
        case CreateVault =>
          if config.owner != info.sender {
            return Failure(Err(Unauthorized));
          }
          return Failure(Panic(Unimplemented("try_create_vault")));
        case CreateChannel =>
          if config.owner != info.sender {
            return Failure(Err(Unauthorized));
          }
          if deps.channels.createChannel.Failure? {
            return deps.channels.createChannel;
          }
          response := deps.channels.createChannel.value;
        case CloseChannel =>
          if config.owner != info.sender {
            return Failure(Err(Unauthorized));
          }
          if deps.channels.closeChannel.Failure? {
            return deps.channels.closeChannel;
          }
          response := deps.channels.closeChannel.value;
        case MoveFunds(_) =>
          if config.owner != info.sender {
            return Failure(Err(Unauthorized));
          }
          if Nonpayable(info).Fail? {
            return Failure(Err(Payment(NonPayable)));
          }
          return Failure(Panic(Unimplemented("try_move_funds")));
        case ReceiveIcaCallback(callback) =>
          match callback {
            case OnChannelOpenAckCallback(_, _, _) =>
              return Failure(Panic(Unimplemented("OnChannelOpenAckCallback")));
            case OnTimeoutPacketCallback(_, _) =>
              return Failure(Panic(Unimplemented("OnTimeoutPacketCallback")));
            case OnAcknowledgementPacketCallback(_, packet, _, queryResult) =>
              var acknowledged, after := ReceiveAcknowledgement(config.Data(), state, packet, queryResult, deps.codec);
              if acknowledged.Failure? {
                return acknowledged;
              }
              state := after;
              response := acknowledged.value;
          }
        case UpdateConfig(update) =>
          if info.sender != config.owner {
            return Failure(Err(Unauthorized));
          }
          if Nonpayable(info).Fail? {
            return Failure(Err(Payment(NonPayable)));
          }
          var applied := config.ApplyUpdate(update, deps.api);
          if applied.Fail? {
            return Failure(Err(applied.error));
          }
          var saved := config.Save(configItem, deps.api);
          // `save` validates the configuration `apply_update` has just validated.
          assert saved.Pass?;
          var validated := config.Validate(deps.api);
          assert validated.Pass?;
          response := UPDATE_CONFIG_RESPONSE;
      }
      stateItem.stored := Some(state);
      r := Success(response);
    }

    /** `query`: the stored configuration as a `ConfigResponse`. */
    function Query(msg: QueryMsg): (r: Result<ConfigResponse, ContractError>)
      reads configItem
      ensures r.Failure? <==> configItem.stored.None?
      ensures r.Failure? ==> r.error == Std(NotFound(CONFIG_KIND))
      ensures r.Success? ==> r.value == configItem.stored.value.ToResponse()
    {
      match configItem.stored
      case None => Failure(Std(NotFound(CONFIG_KIND)))
      case Some(config) => Success(config.ToResponse())
    }
  }
}
