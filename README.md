# NAMI × Mars outpost controller — Dafny model

A model of the CosmWasm contract that runs a pool of stable funds across remote chains
("outposts"). Each outpost pairs a Mars red-bank / credit-manager contract on the remote
chain with an interchain-account (ICA) controller contract on the local chain. The model
covers three things:

- the command builders that wrap remote messages and queries in a `SendCosmosMsgs` packet;
- the acknowledgement callback, which reads the memo the packet was sent with, routes on
  its prefix, updates the pool accounting and emits the follow-up deposit-and-lend command;
- the outpost registry kept in the configuration, and the per-address virtual-receipt ledger.

Its entry points are `instantiate`, `execute` and `query`:

- `Contract.Contract.Execute` is an imperative method over the two storage items `CONFIG`
  and `STATE`. It is proved equal to the pure specification `Contract.ExecuteSpec`, and the
  properties in `ContractProperties` are stated over that specification.
- The configuration is a class (`Config.Config`) whose mutating methods (`apply_update`,
  `update_outpost_*`) are proved against functions on the value `Config.ConfigData`.
- The receipt ledger is a class over a `map`.

Rust panics (`unimplemented!()`, `unwrap()`, `Decimal::from_ratio` on zero, `Uint128`
overflow) are `Halt.Panic`. Returned errors are `Halt.Err`. Nothing is saved on either.

The host is a parameter, never a definition:

- the address service (`addr_validate`, `addr_canonicalize`, `addr_humanize`);
- the JSON codec (`serde` parse and serialize);
- the code-info query and `instantiate2_address`;
- the channel handlers.

The model follows what the code does, also where that departs from what the names and
comments around it suggest:

- An acknowledgement's credited amount is always zero (`src/contract.rs:161-179`). It is
  never the value the remote query reported.
- With no receipts issued, the redemption rate divides by zero and the callback panics.
- The timeout and channel-open callbacks panic instead of doing nothing.
- `apply_update` keeps the patch when validation fails. `execute` then does not save it.
- `instantiate` never writes `STATE`, so every `execute` after it fails to load the state
  until something else writes it (`Contract.Contract.Execute`, `ContractProperties.InstantiateThenExecute`).
- The memo `try_deposit` sends is the single token `deposit`. If the ICA controller hands
  back, as `original_packet`, this contract's own `IcaPacketData` encoding of the command,
  the callback rejects that memo as `InvalidMemoFormat`
  (`ContractProperties.OwnDepositAcknowledgementRejected`). If the packet has any other
  shape, no acknowledgement decodes at all (`Ica.ExtractPacketMemoErrors`).

## Model

| member | source | states |
|---|---|---|
| Numbers.AddU128 | src/contract.rs:180 | a `Uint128` sum succeeds exactly below 2^128 and otherwise panics with an add overflow |
| Numbers.FromRatio | src/contract.rs:181-184 | `Decimal::from_ratio` panics with divide-by-zero exactly when the denominator is 0; otherwise it succeeds exactly when the quotient fits in 128 bits and panics with a multiplication overflow when it does not, and the atomics are the floor of num·10^18/den |
| Numbers.Render | src/contract.rs:59-63 | the decimal text of the block time in the salt is non-empty, all digits, no leading zero, and denotes the number |
| Numbers.ParseRendered | src/contract.rs:187-192 | `parse::<u128>` reads back every rendered number below 2^128 and rejects every larger one |
| Numbers.ParseRejectsMalformed | src/contract.rs:187-192 | `parse::<u128>` rejects the empty text, a lone `+`, a minus sign and separators, and accepts a leading `+` |
| Numbers.ParseU128 | src/contract.rs:189-192 | `amount.parse::<u128>()`: an optional leading `+`, then one or more decimal digits whose value is below 2^128; anything else is no number |
| Strings.Split | src/contract.rs:157 | `split('/')` gives at least one token, no token contains the separator, and joining the tokens gives the memo back |
| Strings.StartsWith | src/contract.rs:156 | `memo.starts_with(prefix)`: the prefix is no longer than the memo and equals its first characters |
| Strings.SplitJoin | src/contract.rs:157-160 | splitting a join of separator-free tokens gives exactly those tokens, so the arity pattern sees the memo's real tokens |
| Cosmos.ActionCoinFrom | src/contract.rs:209 | `ActionCoin::from(coin)` keeps the denom and lends the exact amount |
| Cosmos.Nonpayable | src/contract.rs:112 | `nonpayable` passes exactly when no funds are attached |
| Msg.ExecuteMsg.OwnerOnly | src/contract.rs:115-248 | the commands `execute` gates on the sender being the owner: `CreateVault`, `CreateChannel`, `CloseChannel`, `MoveFunds` and `UpdateConfig` |
| Config.FirstMatch | src/config.rs:65-69 | the index found holds the destination key and no earlier outpost does; none is found exactly when no outpost has the key |
| Config.WithAccountId | src/config.rs:77-90 | the outpost list after `update_outpost_account_id`: the first outpost whose red bank is the destination gets `Some(id)`, and a list without one is returned as it was |
| Config.WithController | src/config.rs:92-105 | the outpost list after `update_outpost_controller`: the first outpost whose red bank is the destination gets the new controller, and a list without one is returned as it was |
| Config.FirstMatchKeysOnly | src/config.rs:65-69 | the lookup depends on the red-bank keys alone, so rewriting other fields never changes which outpost is found |
| Config.WithAccountIdIdempotent | src/config.rs:77-90 | writing the same account id twice equals writing it once |
| Config.WithControllerIdempotent | src/config.rs:92-105 | writing the same controller twice equals writing it once |
| Config.WithAccountIdFrame | src/config.rs:77-90 | only the first matching outpost changes, and in it only `account_id`, which becomes `Some(id)` |
| Config.WithControllerFrame | src/config.rs:92-105 | only the first matching outpost changes, and in it only the controller address |
| Config.FirstInvalid | src/config.rs:36-46 | the position of the first address the address service rejects, or the length when all pass |
| Config.AddrValidate | src/config.rs:37 | `addr_validate` passes exactly when the address service accepts the address, and otherwise names it |
| Config.ValidateOutposts | src/config.rs:40-43 | the outpost loop checks red bank then controller, outpost by outpost, and reports the first rejected address |
| Config.ConfigData.Validate | src/config.rs:36-46 | `validate` checks the owner and then each outpost's two addresses in order, and returns the first failure |
| Config.ConfigData.FindDestinationOutpost | src/config.rs:65-69 | a found outpost is registered and has the destination as red-bank key; none is found exactly when no outpost has that key |
| Config.ConfigData.ToResponse | src/config.rs:108-116 | `ConfigResponse::from` copies owner, outposts and code id |
| Config.ConfigData.Patch | src/config.rs:48-59 | the field assignments of `apply_update`: each field present in the update replaces the configuration's, and each absent one keeps it |
| Config.ValidateAcceptsExactlyValid | src/config.rs:36-46 | validation succeeds if and only if every checked address is accepted |
| Config.ValidateReportsFirstInvalid | src/config.rs:36-46 | a failure names the first rejected address in checking order |
| Config.FindReturnsFirst | src/config.rs:65-69 | when several outposts share a key, the first one is returned |
| Config.PatchFieldwise | src/config.rs:48-59 | each present patch field replaces the old value wholesale, absent fields are kept, the empty patch changes nothing and patching twice equals patching once |
| Config.ToResponseCopies | src/config.rs:108-116 | the response has the same owner, outposts and code id as the configuration |
| Config.FirstMatchIs | src/config.rs:65-69 | any index with the first-match property is the one the lookup returns |
| Config.Config.New | src/config.rs:18-24 | `Config::new` takes owner, outposts and code id from the instantiate message |
| Config.Config.Load | src/config.rs:26-28 | a loaded configuration holds the stored value |
| Config.Config.Validate | src/config.rs:36-46 | the loop over the outposts returns what `ConfigData.Validate` specifies |
| Config.Config.Save | src/config.rs:30-34 | the result is the validation outcome, and `CONFIG` is written with the configuration only when it validates |
| Config.Config.ApplyUpdate | src/config.rs:48-63 | the in-memory configuration becomes the field-wise patch even when validation fails, and the result is the patched configuration's validation |
| Config.Config.FindDestinationOutpostMut | src/config.rs:71-75 | the loop returns the position of the first outpost with the destination key, and nothing exactly when no outpost has that key |
| Config.Config.UpdateOutpostAccountId | src/config.rs:77-90 | an unknown destination is `DestinationNotFound` and changes nothing; otherwise the first match gets the account id and nothing else changes |
| Config.Config.UpdateOutpostController | src/config.rs:92-105 | an unknown destination is `DestinationNotFound` and changes nothing; otherwise the first match gets the controller address and nothing else changes |
| Ica.CreateIbcIdentifier | src/handler/ica.rs:8-10 | the identifier is `ica` |
| Ica.ExecuteIca | src/handler/ica.rs:12-32 | `execute_ica`: a `SendCosmosMsgs` with the given messages, queries and memo and no timeout, sent to the controller without funds |
| Ica.QueryIca | src/handler/ica.rs:34-53 | `query_ica`: the same `SendCosmosMsgs` command with no messages, only queries |
| Ica.ExecuteIcaCarriesCommand | src/handler/ica.rs:12-32 | the command goes to the controller with the memo, messages and queries unchanged and in order, no timeout and no funds |
| Ica.QueryIcaIsExecuteIca | src/handler/ica.rs:34-53 | `query_ica(a, m, q)` is `execute_ica(a, m, [], q)` |
| Ica.FromWire | src/handler/ica.rs:55-62 | the serde mapping of a parsed packet object onto `IcaPacketData`: `messages` missing or null is an error, `queries` missing is empty and null is an error, a missing or null memo is none |
| Ica.FromJson | src/handler/ica.rs:64-65 | `from_json::<IcaPacketData>`: an unparsable payload is a parse error, otherwise the payload's object mapped by `FromWire` |
| Ica.ToWire | src/handler/ica.rs:55-62 | the `Serialize` derive of `IcaPacketData`: `messages` and `queries` are always written, and the memo is left out when it is none |
| Ica.ToJsonBinary | src/handler/ica.rs:83 | `to_json_binary(&IcaPacketData)`: the host serializer applied to the object `ToWire` gives |
| Ica.ExtractPacketMemo | src/handler/ica.rs:64-67 | the memo is the decoded payload's memo, and a payload that does not decode is an error |
| Ica.FromWireToWire | src/handler/ica.rs:55-62 | decoding inverts encoding for every payload, including one without memo |
| Ica.FromWireDefaults | src/handler/ica.rs:58-61 | a missing `queries` decodes to the empty list, and a missing or null memo decodes to no memo |
| Ica.ExtractPacketMemoErrors | src/handler/ica.rs:64-67 | malformed JSON, and a payload without `messages`, are errors and never an absent memo |
| Ica.ExtractPacketMemoRoundTrip | src/handler/ica.rs:64-67 | a packet carrying an encoded payload extracts that payload's memo, given a codec that reads back what it writes |
| Ica.ExtractTestMemo | src/handler/ica.rs:75-105 | the packet built from a payload with memo `test_memo` extracts `Some("test_memo")` |
| Ica.ControllerPacket | src/handler/ica.rs:55-67 | the packet this contract expects the controller to hand back for a `SendCosmosMsgs` command: the JSON of `IcaPacketData` with the command's messages, queries and memo; this is an assumption about the controller, not code of this contract |
| Ica.MemoSurvivesRoundTrip | src/handler/ica.rs:18-29 | the memo given to `execute_ica` is the memo extracted from the packet the controller is assumed to send for it (`ControllerPacket`), given a codec that reads back what it writes |
| Deposit.TryDeposit | src/handler/deposit.rs:10-37 | an unknown destination is `DestinationNotFound`; a found outpost without a credit account is `NoCreditAccount`; otherwise exactly one message and no attributes |
| Deposit.TryDepositCommand | src/handler/deposit.rs:26-36 | the message goes to the outpost's controller without funds; it carries no messages, one `Positions` smart query to the red bank, the memo `deposit` and no timeout |
| State.VirtualReceipts.New | src/state.rs:24-26 | a new ledger holds no entries |
| State.VirtualReceipts.Get | src/state.rs:33-35 | `get` returns the stored amount, and an address never stored is `NotFound` |
| State.VirtualReceipts.Query | src/state.rs:46-51 | `query` returns the stored amount, or zero for an address never stored |
| State.VirtualReceipts.Store | src/state.rs:28-31 | `store` overwrites the entry unconditionally; both reads then return it, and every other address reads as before |
| State.VirtualReceipts.Update | src/state.rs:37-44 | `update` adds to the existing amount (zero if absent) when the sum fits, panics with an add overflow and leaves the ledger unchanged otherwise, and touches no other address |
| State.LedgerStoreThenUpdate | src/state.rs:28-51 | a fresh ledger fails `get`; after `store(a, n)` both reads give `n`, and `update(a, m)` then gives `n + m` when that fits |
| Contract.ParseDepositMemo | src/contract.rs:156-160 | the memo parses exactly when `split('/')` gives five tokens led by `deposit`; otherwise it is `InvalidMemoFormat(memo)`; a parsed memo is the join of its tokens |
| Contract.CreditedAmount | src/contract.rs:161-179 | a failed query is `IcaQueryError` with the query's message; a successful or absent query credits zero |
| Contract.RouteMemo | src/contract.rs:155-235 | the memo arms are tried in source order: a `deposit` prefix first, then `withdraw`, then `move_funds`, and every other memo is unknown |
| Contract.DepositLendCommand | src/contract.rs:202-221 | the message a deposit acknowledgement emits: through the outpost's controller, with no memo and no queries, one `UpdateCreditAccount` to the red bank that deposits and then lends the coin, with the coin as funds |
| Contract.OnDepositAcknowledgement | src/contract.rs:156-232 | the deposit arm in source order: memo pattern, query result, credit of the total, redemption rate, amount parse, outpost lookup, then the deposit-and-lend message; each failure returns the configuration and the state as far as it was updated |
| Contract.OnAcknowledgement | src/contract.rs:145-241 | the acknowledgement callback: a payload that does not decode is a standard error, no memo is `UnknownMemo`, and otherwise the arm `RouteMemo` picks |
| Contract.Handle | src/contract.rs:109-257 | the `match msg` of `execute`: the owner gate, then `nonpayable`, where the source checks them, then the handler, with the configuration and state it leaves in memory |
| Contract.ExecuteSpec | src/contract.rs:100-262 | `execute` on storage: a missing configuration, then a missing state, is `NotFound`; otherwise `Handle` runs, and only a successful one writes its state and configuration back |
| Contract.Salt | src/contract.rs:59-63 | the salt `<red bank>_<block time in seconds>` |
| Contract.PredictedController | src/contract.rs:65-76 | one outpost's controller address: canonicalize the contract's own address, derive the `instantiate2` address from the checksum and the salt (panicking on `unwrap`), and humanize it |
| Contract.InstantiateSpec | src/contract.rs:39-90 | `instantiate` up to the save: the code-info query, the prediction walk over the outposts, and the validation of the resulting configuration, with the first failure as the outcome |
| Contract.InstantiateResponse | src/contract.rs:92-96 | the response of a successful `instantiate`: no messages, and the attributes `method = instantiate` and `owner = <owner>` |
| Contract.PredictAll | src/contract.rs:45-85 | a successful prediction walk gives one outpost per outpost |
| Contract.PredictAllPointwise | src/contract.rs:45-85 | on success each outpost keeps its place and its other fields, and gets the controller address predicted from the checksum, the contract's canonical address and its salt |
| Contract.PredictAllStep | src/contract.rs:45-85 | the walk over one more outpost either fails with that outpost's prediction error or appends that outpost with its predicted controller |
| Contract.PredictController | src/contract.rs:65-77 | one turn of the loop: a failed canonicalize or humanize is a host error, a failed `instantiate2_address` panics on `unwrap`, otherwise the humanized predicted address |
| Contract.PredictOutposts | src/contract.rs:45-85 | the in-place loop over `&mut config.outposts` keeps owner and code id on every path; on success it leaves exactly the predicted outposts, and on failure it stops at the first outpost whose prediction fails, with the outposts before it predicted and it and the rest untouched |
| Contract.PredictAllStopsAtFailure | src/contract.rs:45-85 | the first outpost whose prediction fails decides the error; later outposts are not reached |
| Contract.Contract.Instantiate | src/contract.rs:31-97 | the in-place loop and the save yield `instantiate`'s spec: a failed code-info query, address conversion or prediction halts; otherwise the validated configuration is stored and the response names the owner; `STATE` is never written |
| Contract.ReceiveAcknowledgement | src/contract.rs:145-242 | the step-by-step acknowledgement arm, with its in-place update of the pool state, returns exactly the result and the state `OnAcknowledgement` specifies |
| Contract.Contract.Execute | src/contract.rs:100-262 | the load, the dispatch and the conditional save give exactly the result and the storage `ExecuteSpec` specifies |
| Contract.Contract.Query | src/contract.rs:264-270 | a missing configuration is `NotFound`; otherwise the response copies the stored configuration |
| ContractProperties.HaltLeavesStorage | src/contract.rs:257-259 | an error or a panic leaves the stored configuration and state unchanged |
| ContractProperties.ExecuteNeedsBothItems | src/contract.rs:106-107 | without a stored configuration or state every command fails and changes nothing; with only the configuration it is `NotFound` for the state |
| ContractProperties.AcknowledgementKeepsConfig | src/contract.rs:145-242 | the acknowledgement handler never changes the configuration |
| ContractProperties.DepositAcknowledgementKeepsConfig | src/contract.rs:156-230 | the deposit arm never changes the configuration |
| ContractProperties.OnlyUpdateConfigWritesConfig | src/contract.rs:109-257 | every command except `UpdateConfig` leaves the stored configuration as it was |
| ContractProperties.OwnerGate | src/contract.rs:115-130 | `CreateVault`, `CreateChannel`, `CloseChannel`, `MoveFunds` and `UpdateConfig` from anyone but the owner are `Unauthorized`, whatever funds come with them, and change nothing |
| ContractProperties.OpenCommandsIgnoreSender | src/contract.rs:110-114 | `Deposit`, `Withdraw` and every callback behave the same for every sender; `Deposit` and the callbacks also for every attached funds, and `Withdraw` for the same funds |
| ContractProperties.OwnerWithFundsNonPayable | src/contract.rs:127-130 | funds from the owner on `MoveFunds` or `UpdateConfig` are `NonPayable`, checked after the owner gate |
| ContractProperties.UnimplementedCallbacksPanic | src/contract.rs:136-144 | the channel-open and timeout callbacks panic on `unimplemented!()` and change no storage |
| ContractProperties.UpdateConfigPersistsValidated | src/contract.rs:244-256 | `UpdateConfig` succeeds exactly for the owner without funds and a patched configuration that validates; it then stores the patch, all of whose addresses are valid, and keeps the state |
| ContractProperties.UpdateConfigRejectedKeepsConfig | src/contract.rs:251-253 | a patch that fails validation returns that validation error and the stored configuration is untouched |
| ContractProperties.DepositIsTryDeposit | src/contract.rs:110 | `Deposit` returns what `try_deposit` returns on the loaded configuration and changes no storage |
| ContractProperties.AcknowledgementWithoutMemo | src/contract.rs:153-154 | a payload that does not decode is a standard error, and one without memo is `UnknownMemo`; neither changes the state |
| ContractProperties.AcknowledgementRouting | src/contract.rs:155-240 | memos are routed by prefix in the order deposit, withdraw, move_funds; a memo with none of the three prefixes is `UnknownMemo`, and withdraw and move_funds panic |
| ContractProperties.DepositMemoFormat | src/contract.rs:156-230 | a deposit memo is `InvalidMemoFormat(memo)` if and only if it is not five `/`-tokens led by `deposit` |
| ContractProperties.QueryErrorFirst | src/contract.rs:161-176 | a failed ICA query is `IcaQueryError` before any accounting, amount parse or outpost lookup, and changes nothing |
| ContractProperties.ZeroReceiptsPanic | src/contract.rs:181-184 | with zero virtual receipts every well-formed deposit acknowledgement whose query did not fail panics on divide-by-zero |
| ContractProperties.InvalidAmountBeforeDestination | src/contract.rs:187-200 | an amount token that is not a `u128` is `InvalidAmount` even when the destination is unknown |
| ContractProperties.UnknownDestination | src/contract.rs:196-200 | with memo, query, rate and amount in order, an unregistered destination is `DestinationNotFound` of that token, and the configuration is kept |
| ContractProperties.DepositAcknowledgementSuccess | src/contract.rs:161-223 | success holds exactly for a well-formed memo, no failed query, a defined rate, a parsable amount and a registered destination; the total is unchanged, the new rate is total/receipts in 18-decimal fixed point, and the one message is the deposit-and-lend command to that outpost |
| ContractProperties.DepositLendCommandShape | src/contract.rs:202-221 | the command goes to the controller with no memo and no queries; it wraps one `UpdateCreditAccount` to the red bank with no account id or kind, deposit then lend of the same coin, and that coin as funds |
| ContractProperties.ParseDepositMemoRoundTrip | src/contract.rs:156-160 | a memo joined from `deposit` and four separator-free tokens parses back to those tokens |
| ContractProperties.ExampleDepositAcknowledgement | src/contract.rs:156-223 | for `deposit/userX/uusd/1000000/chainA` with outpost `chainA` behind `ctrlA`, the total stays as it was and one command to `ctrlA` deposits and lends 1000000 uusd |
| ContractProperties.ShortDepositMemos | src/contract.rs:225-230 | `deposit/userX/uusd/1000000` and `deposit` are both `InvalidMemoFormat` |
| ContractProperties.OwnDepositAcknowledgementRejected | src/handler/deposit.rs:30-34 | if the controller hands back this contract's `IcaPacketData` encoding of the deposit query `try_deposit` sends, the acknowledgement brings back the memo `deposit`, which the callback rejects as `InvalidMemoFormat` with nothing changed |
| ContractProperties.InstantiateStores | src/contract.rs:45-85 | `instantiate` stores the given owner and code id and one outpost per given outpost; each keeps its red bank, channel options and account id, gets its own predicted controller address, and every stored address is valid |
| ContractProperties.InstantiateThenExecute | src/contract.rs:100-107 | after a successful `instantiate`, `execute` fails with `NotFound` for the state and `query` returns the stored configuration; after a failed one, both report the missing configuration |

## Left out

- JSON at the byte level (`to_json_binary`, `from_json`): a parser and a serializer are
  parameters; packets are modelled as parsed objects, whose fields are missing, `null` or
  a value.
- Failures of `wasm_execute` and `to_json_binary` while building a message are not
  modelled: building the typed payload always succeeds.
- `cw2::set_contract_version` and the `Instantiate2` messages `instantiate` builds. The
  response never carries those messages, so their label, admin and init payload are left
  out. `query`'s final JSON encoding is left out too.
- `handler::channels` is not part of this model: `CreateChannel` and `CloseChannel` return
  a fixed outcome supplied with the host.
- The `unimplemented!()` handlers (`try_withdraw`, `try_move_funds`, `try_create_vault`),
  the timeout and channel-open callbacks, and the `withdraw` and `move_funds` memo arms
  are panics with no effect.
- The chain's rollback of a failed transaction is not modelled. None is needed, since no
  failing path writes storage.
- `VirtualReceipts` is not reached from `execute`, so it is modelled on its own; the
  `Response` its methods return is dropped.
- The ICS-27 transport, relayers and timeouts are not modelled. The cw-ica-controller
  contract is not part of this model either, so the packet it hands back as
  `original_packet` is an assumption (`Ica.ControllerPacket`): the JSON of this contract's
  `IcaPacketData` with the command's messages, queries and memo.
- Ica.MemoSurvivesRoundTrip: holds only under the assumption that the controller returns
  this contract's `IcaPacketData` encoding of the command; nothing in this contract
  establishes that shape.
- ContractProperties.OwnDepositAcknowledgementRejected: rests on the same assumption about
  the packet the controller returns; with a packet of any other shape the acknowledgement
  fails to decode instead (`Ica.ExtractPacketMemoErrors`).
- `ChannelOpenInitOptions` keeps only its four plain fields; the controller's own
  instantiate message is not modelled.
- Contract.Contract.Instantiate: the host query and address failures are collapsed into
  one `HostError` per call site, rather than each host's own error text.
