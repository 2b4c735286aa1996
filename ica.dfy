/** Interchain-account command builders and packet-memo extraction (src/handler/ica.rs). */
module Ica {
  import opened Wrappers
  import opened Numbers
  import opened Errors
  import opened Cosmos

  /** `create_ibc_identifier`. */
  function CreateIbcIdentifier(): (r: string)
    ensures r == "ica"
  {
    "ica"
  }

  /** `execute_ica`: a `SendCosmosMsgs` command to the controller, with no timeout and no funds. */
  function ExecuteIca(controller: Addr, memo: Option<string>, messages: seq<CosmosMsg>,
                      queries: seq<QueryRequest>): WasmMsg
  {
    WasmExecute(controller, SendCosmosMsgs(messages, queries, memo, None), [])
  }

  /** `query_ica`: the same command without executable messages. */
  function QueryIca(controller: Addr, memo: Option<string>, queries: seq<QueryRequest>): WasmMsg
  {
    WasmExecute(controller, SendCosmosMsgs([], queries, memo, None), [])
  }

  /** The command is addressed to the controller, carries the memo, the messages and the
      queries unchanged and in order, asks for no timeout and attaches no funds. */
  lemma ExecuteIcaCarriesCommand(controller: Addr, memo: Option<string>, messages: seq<CosmosMsg>,
                                 queries: seq<QueryRequest>)
    ensures var w := ExecuteIca(controller, memo, messages, queries);
            && w.contractAddr == controller && w.funds == []
            && w.msg.SendCosmosMsgs?
            && w.msg.messages == messages && w.msg.queries == queries
            && w.msg.packetMemo == memo && w.msg.timeoutSeconds == None
  {
  }

  /** A query-only command is an execute command with an empty message list. */
  lemma QueryIcaIsExecuteIca(controller: Addr, memo: Option<string>, queries: seq<QueryRequest>)
    ensures QueryIca(controller, memo, queries) == ExecuteIca(controller, memo, [], queries)
  {
  }

  // The packet payload

  /** `IcaPacketData`: what the contract expects an ICA packet's data to decode to. */
  datatype IcaPacketData = IcaPacketData(messages: seq<CosmosMsg>, queries: seq<QueryRequest>,
                                         packetMemo: Option<string>)

  /** A field of a parsed JSON object: missing, `null`, or a value. */
  datatype Field<+T> = Absent | Null | Present(value: T)

  /** The packet's JSON object after parsing, before it is mapped onto `IcaPacketData`;
      fields other than these three are ignored. */
  datatype WirePacket = WirePacket(messages: Field<seq<CosmosMsg>>,
                                   queries: Field<seq<QueryRequest>>,
                                   packetMemo: Field<string>)

  /** The byte level of JSON, which belongs to serde and is not modelled: a parser that may
      reject its input and a serializer. */
  datatype JsonCodec = JsonCodec(parse: Binary -> Option<WirePacket>, serialize: WirePacket -> Binary)

  /** The codec reads back what it wrote, for this object. */
  predicate ReadsBack(codec: JsonCodec, w: WirePacket)
  {
    codec.parse(codec.serialize(w)) == Some(w)
  }

  /** Deserializing the object: `messages` is required and must not be null; `queries` is
      `#[serde(default)]` so a missing list is empty; a missing or null memo is `None`. */
  function FromWire(w: WirePacket): (r: Result<IcaPacketData, StdError>)
  {
    match w.messages
    case Absent => Failure(ParseErr("IcaPacketData", "missing field `messages`"))
    case Null => Failure(ParseErr("IcaPacketData", "invalid type: null, expected a sequence"))
    case Present(messages) =>
      match w.queries
      case Null => Failure(ParseErr("IcaPacketData", "invalid type: null, expected a sequence"))
      case Absent => Success(IcaPacketData(messages, [], MemoOf(w.packetMemo)))
      case Present(queries) => Success(IcaPacketData(messages, queries, MemoOf(w.packetMemo)))
  }

  function MemoOf(f: Field<string>): Option<string>
  {
    if f.Present? then Some(f.value) else None
  }

  /** Serializing: the memo is left out when it is `None` (`skip_serializing_if`). */
  function ToWire(d: IcaPacketData): WirePacket
  {
    WirePacket(Present(d.messages), Present(d.queries),
               if d.packetMemo.Some? then Present(d.packetMemo.value) else Absent)
  }

  /** `from_json::<IcaPacketData>`. */
  function FromJson(codec: JsonCodec, data: Binary): Result<IcaPacketData, StdError>
  {
    match codec.parse(data)
    case None => Failure(ParseErr("IcaPacketData", "invalid JSON"))
    case Some(w) => FromWire(w)
  }

  /** `to_json_binary(&IcaPacketData)`. */
  function ToJsonBinary(codec: JsonCodec, d: IcaPacketData): Binary
  {
    codec.serialize(ToWire(d))
  }

  /** `extract_packet_memo`: the decoded payload's memo; a payload that does not decode is an
      error, never an absent memo. */
  function ExtractPacketMemo(codec: JsonCodec, packet: IbcPacket): (r: Result<Option<string>, StdError>)
    ensures r.Failure? <==> FromJson(codec, packet.data).Failure?
    ensures r.Success? ==> r.value == FromJson(codec, packet.data).value.packetMemo
  {
    match FromJson(codec, packet.data)
    case Failure(e) => Failure(e)
    case Success(d) => Success(d.packetMemo)
  }

  /** Decoding inverts encoding on the object level, for every payload, memo or not. */
  lemma FromWireToWire(d: IcaPacketData)
    ensures FromWire(ToWire(d)) == Success(d)
  {
  }

  /** A payload without memo field decodes to no memo, a missing query list to an empty one. */
  lemma FromWireDefaults(messages: seq<CosmosMsg>)
    ensures FromWire(WirePacket(Present(messages), Absent, Absent)) == Success(IcaPacketData(messages, [], None))
    ensures FromWire(WirePacket(Present(messages), Absent, Null)) == Success(IcaPacketData(messages, [], None))
  {
  }

  /** A payload the parser rejects is an error, and so is one without `messages`. */
  lemma ExtractPacketMemoErrors(codec: JsonCodec, packet: IbcPacket)
    ensures codec.parse(packet.data).None? ==> ExtractPacketMemo(codec, packet).Failure?
    ensures (codec.parse(packet.data).Some? && codec.parse(packet.data).value.messages.Absent?)
            ==> ExtractPacketMemo(codec, packet).Failure?
  {
  }

  /** A packet carrying an encoded payload yields that payload's memo back. */
  lemma {:induction false} ExtractPacketMemoRoundTrip(codec: JsonCodec, d: IcaPacketData, sequence: U64)
    requires ReadsBack(codec, ToWire(d))
    ensures ExtractPacketMemo(codec, IbcPacket(ToJsonBinary(codec, d), sequence)) == Success(d.packetMemo)
  {
    FromWireToWire(d);
  }

  /** The unit test `test_extract_packet_memo`: a payload with memo "test_memo" extracts `Some("test_memo")`. */
  lemma ExtractTestMemo(codec: JsonCodec)
    requires ReadsBack(codec, ToWire(IcaPacketData([], [], Some("test_memo"))))
    ensures ExtractPacketMemo(codec, IbcPacket(ToJsonBinary(codec, IcaPacketData([], [], Some("test_memo"))), 1))
            == Success(Some("test_memo"))
  {
    ExtractPacketMemoRoundTrip(codec, IcaPacketData([], [], Some("test_memo")), 1);
  }

  // Across the asynchronous boundary

  /** The packet the ICA controller sends for a `SendCosmosMsgs` command, as this contract
      expects it: the command's messages, queries and memo, encoded. The acknowledgement
      callback later hands this packet back as `original_packet`. */
  function ControllerPacket(codec: JsonCodec, command: WasmMsg, sequence: U64): Option<IbcPacket>
  {
    match command.msg
    case SendCosmosMsgs(messages, queries, memo, _) =>
      Some(IbcPacket(ToJsonBinary(codec, IcaPacketData(messages, queries, memo)), sequence))
    case CreditManager(_) => None
  }

  /** The memo given to `execute_ica` is exactly the memo the acknowledgement brings back,
      provided the controller hands back the packet `ControllerPacket` assumes. */
  lemma {:induction false} MemoSurvivesRoundTrip(codec: JsonCodec, controller: Addr, memo: Option<string>,
                                                 messages: seq<CosmosMsg>, queries: seq<QueryRequest>, sequence: U64)
    requires ReadsBack(codec, ToWire(IcaPacketData(messages, queries, memo)))
    ensures var p := ControllerPacket(codec, ExecuteIca(controller, memo, messages, queries), sequence);
            p.Some? && ExtractPacketMemo(codec, p.value) == Success(memo)
  {
    ExtractPacketMemoRoundTrip(codec, IcaPacketData(messages, queries, memo), sequence);
  }
}
