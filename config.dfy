/** The outpost registry and its configuration (src/config.rs). */
module Config {
  import opened Wrappers
  import opened Numbers
  import opened Errors
  import opened Cosmos
  import opened Msg

  // Lookup by natural key

  /** Index of the first outpost whose Mars contract is exactly `destination`
      (`iter().find(|o| o.mars_red_bank_contract == destination)`). */
  function FirstMatch(outposts: seq<Outpost>, destination: string): (r: Option<nat>)
    ensures r.Some? ==> r.value < |outposts| && outposts[r.value].marsRedBankContract == destination
    ensures r.Some? ==> forall j | 0 <= j < r.value :: outposts[j].marsRedBankContract != destination
    ensures r.None? <==> forall j | 0 <= j < |outposts| :: outposts[j].marsRedBankContract != destination
  {
    if outposts == [] then None
    else if outposts[0].marsRedBankContract == destination then Some(0)
    else match FirstMatch(outposts[1..], destination)
      case None => None
      case Some(k) => Some(k + 1)
  }

  /** Two lists whose Mars contracts agree position by position have the same first match. */
  lemma FirstMatchKeysOnly(a: seq<Outpost>, b: seq<Outpost>, destination: string)
    requires |a| == |b|
    requires forall i | 0 <= i < |a| :: a[i].marsRedBankContract == b[i].marsRedBankContract
    ensures FirstMatch(a, destination) == FirstMatch(b, destination)
  {
    var ra, rb := FirstMatch(a, destination), FirstMatch(b, destination);
    if ra.Some? && rb.Some? {
      assert !(ra.value < rb.value) && !(rb.value < ra.value);
    }
  }

  /** The outpost list with the first match's `account_id` set (unchanged when none matches). */
  function WithAccountId(outposts: seq<Outpost>, destination: string, accountId: string): seq<Outpost>
  {
    match FirstMatch(outposts, destination)
    case None => outposts
    case Some(k) => outposts[k := outposts[k].(accountId := Some(accountId))]
  }

  /** The outpost list with the first match's controller set (unchanged when none matches). */
  function WithController(outposts: seq<Outpost>, destination: string, controller: Addr): seq<Outpost>
  {
    match FirstMatch(outposts, destination)
    case None => outposts
    case Some(k) => outposts[k := outposts[k].(cwIcaControllerContract := controller)]
  }

  /** Back-filling the controller twice with the same address is the same as once. */
  lemma WithControllerIdempotent(outposts: seq<Outpost>, destination: string, controller: Addr)
    ensures var once := WithController(outposts, destination, controller);
            WithController(once, destination, controller) == once
  {
    var once := WithController(outposts, destination, controller);
    FirstMatchKeysOnly(outposts, once, destination);
  }

  /** Back-filling the account id twice with the same id is the same as once. */
  lemma WithAccountIdIdempotent(outposts: seq<Outpost>, destination: string, accountId: string)
    ensures var once := WithAccountId(outposts, destination, accountId);
            WithAccountId(once, destination, accountId) == once
  {
    var once := WithAccountId(outposts, destination, accountId);
    FirstMatchKeysOnly(outposts, once, destination);
  }

  /** Back-filling touches one field of one outpost: the first one keyed by `destination`. */
  lemma WithControllerFrame(outposts: seq<Outpost>, destination: string, controller: Addr, i: nat)
    requires i < |outposts|
    ensures var r := WithController(outposts, destination, controller);
            |r| == |outposts| &&
            (if FirstMatch(outposts, destination) == Some(i)
             then r[i] == outposts[i].(cwIcaControllerContract := controller)
             else r[i] == outposts[i])
  {
  }

  /** The same for the account id. */
  lemma WithAccountIdFrame(outposts: seq<Outpost>, destination: string, accountId: string, i: nat)
    requires i < |outposts|
    ensures var r := WithAccountId(outposts, destination, accountId);
            |r| == |outposts| &&
            (if FirstMatch(outposts, destination) == Some(i)
             then r[i] == outposts[i].(accountId := Some(accountId))
             else r[i] == outposts[i])
  {
  }

  // Address validation

  /** The index of the first address the host rejects, or the length when it accepts all. */
  function FirstInvalid(api: Api, addrs: seq<Addr>): (k: nat)
    ensures k <= |addrs|
    ensures forall j | 0 <= j < k :: api.addrValid(addrs[j])
    ensures k < |addrs| ==> !api.addrValid(addrs[k])
  {
    if addrs == [] then 0
    else if !api.addrValid(addrs[0]) then 0
    else 1 + FirstInvalid(api, addrs[1..])
  }

  /** Every address of a list passes, or the first one that does not is reported. */
  function CheckAddresses(api: Api, addrs: seq<Addr>): Outcome<ContractError>
  {
    var k := FirstInvalid(api, addrs);
    if k == |addrs| then Pass else Fail(Std(InvalidAddress(addrs[k])))
  }

  /** The addresses of the outposts in the order `validate` visits them. */
  function OutpostAddresses(outposts: seq<Outpost>): seq<Addr>
  {
    if outposts == [] then []
    else [outposts[0].marsRedBankContract, outposts[0].cwIcaControllerContract]
         + OutpostAddresses(outposts[1..])
  }

  /** `api.addr_validate(addr)?`. */
  function AddrValidate(api: Api, addr: Addr): (r: Outcome<ContractError>)
  {
    if api.addrValid(addr) then Pass else Fail(Std(InvalidAddress(addr)))
  }

  /** The per-outpost checks of `validate`, in order. */
  function ValidateOutposts(api: Api, outposts: seq<Outpost>): (r: Outcome<ContractError>)
    ensures r == CheckAddresses(api, OutpostAddresses(outposts))
  {
    if outposts == [] then Pass
    else
      var o := outposts[0];
      var rest := OutpostAddresses(outposts[1..]);
      var all := [o.marsRedBankContract, o.cwIcaControllerContract] + rest;
      assert all[1..] == [o.cwIcaControllerContract] + rest && all[1..][1..] == rest;
      if !api.addrValid(o.marsRedBankContract) then Fail(Std(InvalidAddress(o.marsRedBankContract)))
      else if !api.addrValid(o.cwIcaControllerContract) then
        assert FirstInvalid(api, all[1..]) == 0;
        Fail(Std(InvalidAddress(o.cwIcaControllerContract)))
      else ValidateOutposts(api, outposts[1..])
  }

  // The configuration as a value

  /** The configuration as it is stored in `CONFIG`. */
  datatype ConfigData = ConfigData(owner: Addr, outposts: seq<Outpost>, cwIcaControllerCodeId: U64)
  {
    /** Every address the configuration holds, in the order `validate` checks them. */
    function Addresses(): seq<Addr>
    {
      [owner] + OutpostAddresses(outposts)
    }

    /** `Config::validate`: the owner, then both addresses of each outpost in turn. */
    function Validate(api: Api): (r: Outcome<ContractError>)
      ensures r == CheckAddresses(api, Addresses())
    {
      var addrs := Addresses();
      assert addrs[1..] == OutpostAddresses(outposts);
      match AddrValidate(api, owner)
      case Fail(e) => Fail(e)
      case Pass => ValidateOutposts(api, outposts)
    }

    /** `Config::find_destination_outpost`. */
    function FindDestinationOutpost(destination: string): (r: Option<Outpost>)
      ensures r.Some? ==> r.value in outposts && r.value.marsRedBankContract == destination
      ensures r.None? <==> forall o | o in outposts :: o.marsRedBankContract != destination
    {
      match FirstMatch(outposts, destination)
      case None => None
      case Some(k) => Some(outposts[k])
    }

    /** The field-wise patch `apply_update` performs before it validates. */
    function Patch(update: ConfigUpdate): ConfigData
    {
      ConfigData(if update.owner.Some? then update.owner.value else owner,
                 if update.outposts.Some? then update.outposts.value else outposts,
                 if update.cwIcaControllerCodeId.Some? then update.cwIcaControllerCodeId.value
                 else cwIcaControllerCodeId)
    }

    /** `ConfigResponse::from`. */
    function ToResponse(): (r: ConfigResponse)
    {
      ConfigResponse(owner, outposts, cwIcaControllerCodeId)
    }
  }

  datatype ConfigResponse = ConfigResponse(owner: Addr, outposts: seq<Outpost>, cwIcaControllerCodeId: U64)

  /** A configuration validates exactly when the host accepts every address it holds. */
  lemma ValidateAcceptsExactlyValid(c: ConfigData, api: Api)
    ensures c.Validate(api).Pass? <==> forall i | 0 <= i < |c.Addresses()| :: api.addrValid(c.Addresses()[i])
  {
  }

  /** A failing validation names the first rejected address in checking order. */
  lemma ValidateReportsFirstInvalid(c: ConfigData, api: Api, k: nat)
    requires k < |c.Addresses()| && !api.addrValid(c.Addresses()[k])
    requires forall j | 0 <= j < k :: api.addrValid(c.Addresses()[j])
    ensures c.Validate(api) == Fail(Std(InvalidAddress(c.Addresses()[k])))
  {
    var n := FirstInvalid(api, c.Addresses());
    assert !(n < k) && !(k < n);
  }

  /** The lookup returns the first outpost keyed by `destination`, whatever follows it. */
  lemma FindReturnsFirst(c: ConfigData, destination: string, i: nat)
    requires i < |c.outposts| && c.outposts[i].marsRedBankContract == destination
    requires forall j | 0 <= j < i :: c.outposts[j].marsRedBankContract != destination
    ensures c.FindDestinationOutpost(destination) == Some(c.outposts[i])
  {
    var r := FirstMatch(c.outposts, destination);
    assert r.Some? && !(r.value < i) && !(i < r.value);
  }

  /** A present patch field replaces the old value wholesale (the outpost list is not merged)
      and an absent one keeps it; an empty patch changes nothing; patching is idempotent. */
  lemma PatchFieldwise(c: ConfigData, update: ConfigUpdate)
    ensures update.owner.Some? ==> c.Patch(update).owner == update.owner.value
    ensures update.owner.None? ==> c.Patch(update).owner == c.owner
    ensures update.outposts.Some? ==> c.Patch(update).outposts == update.outposts.value
    ensures update.outposts.None? ==> c.Patch(update).outposts == c.outposts
    ensures update.cwIcaControllerCodeId.Some? ==> c.Patch(update).cwIcaControllerCodeId == update.cwIcaControllerCodeId.value
    ensures update.cwIcaControllerCodeId.None? ==> c.Patch(update).cwIcaControllerCodeId == c.cwIcaControllerCodeId
    ensures c.Patch(ConfigUpdate(None, None, None)) == c
    ensures c.Patch(update).Patch(update) == c.Patch(update)
  {
  }

  /** The query response copies owner, outposts and code id unchanged. */
  lemma ToResponseCopies(c: ConfigData)
    ensures c.ToResponse().owner == c.owner
    ensures c.ToResponse().outposts == c.outposts
    ensures c.ToResponse().cwIcaControllerCodeId == c.cwIcaControllerCodeId
  {
  }

  // The storage item and the in-memory object

  /** The `CONFIG` item: the serialized configuration, absent until first saved. */
  class ConfigItem {
    var stored: Option<ConfigData>

    constructor ()
      ensures stored == None
    {
      stored := None;
    }
  }

  /** A `Config` held in memory by an entry point, updated in place. */
  class Config {
    var owner: Addr
    var outposts: seq<Outpost>
    var cwIcaControllerCodeId: U64

    function Data(): ConfigData
      reads this
    {
      ConfigData(owner, outposts, cwIcaControllerCodeId)
    }

    /** `Config::new`. */
    constructor New(msg: InstantiateMsg)
      ensures Data() == ConfigData(msg.owner, msg.outposts, msg.cwIcaControllerCodeId)
    {
      owner, outposts, cwIcaControllerCodeId := msg.owner, msg.outposts, msg.cwIcaControllerCodeId;
    }

    /** The object `Config::load` deserializes from a stored value. */
    constructor Load(data: ConfigData)
      ensures Data() == data
    {
      owner, outposts, cwIcaControllerCodeId := data.owner, data.outposts, data.cwIcaControllerCodeId;
    }

    /** `validate`: the owner, then each outpost's two addresses; the first rejection is returned. */
    method Validate(api: Api) returns (r: Outcome<ContractError>)
      ensures r == CheckAddresses(api, Data().Addresses())
      ensures r.Pass? <==> forall i | 0 <= i < |Data().Addresses()| :: api.addrValid(Data().Addresses()[i])
    {
      r := AddrValidate(api, owner);
      if r.Fail? {
        return;
      }
      for i := 0 to |outposts|
        invariant ValidateOutposts(api, outposts) == ValidateOutposts(api, outposts[i..])
      {
        assert outposts[i..][1..] == outposts[i + 1..];
        r := AddrValidate(api, outposts[i].marsRedBankContract);
        if r.Fail? {
          return;
        }
        r := AddrValidate(api, outposts[i].cwIcaControllerContract);
        if r.Fail? {
          return;
        }
      }
      r := Pass;
    }

    /** `save`: validates first, and writes the item only when validation passes. */
    method Save(item: ConfigItem, api: Api) returns (r: Outcome<ContractError>)
      modifies item
      ensures r == Data().Validate(api)
      ensures item.stored == if r.Pass? then Some(Data()) else old(item.stored)
    {
      r := Validate(api);
      if r.Pass? {
        item.stored := Some(Data());
      }
    }

    /** `apply_update`: patches every present field, then validates. The patch is kept even
        when validation fails: there is no rollback. */
    method ApplyUpdate(update: ConfigUpdate, api: Api) returns (r: Outcome<ContractError>)
      modifies this
      ensures Data() == old(Data()).Patch(update)
      ensures r == Data().Validate(api)
    {
      if update.owner.Some? {
        owner := update.owner.value;
      }
      if update.outposts.Some? {
        outposts := update.outposts.value;
      }
      if update.cwIcaControllerCodeId.Some? {
        cwIcaControllerCodeId := update.cwIcaControllerCodeId.value;
      }
      r := Validate(api);
    }

    /** `find_destination_outpost_mut`: the position of the first outpost keyed by
        `destination`, which the caller then updates in place. */
    method FindDestinationOutpostMut(destination: string) returns (r: Option<nat>)
      ensures r.Some? ==> r.value < |outposts| && outposts[r.value].marsRedBankContract == destination
      ensures r.Some? ==> forall j | 0 <= j < r.value :: outposts[j].marsRedBankContract != destination
      ensures r.None? <==> forall j | 0 <= j < |outposts| :: outposts[j].marsRedBankContract != destination
    {
      var i := 0;
      while i < |outposts|
        invariant 0 <= i <= |outposts|
        invariant forall j | 0 <= j < i :: outposts[j].marsRedBankContract != destination
      {
        if outposts[i].marsRedBankContract == destination {
          return Some(i);
        }
        i := i + 1;
      }
      return None;
    }

    /** `update_outpost_account_id`. */
    method UpdateOutpostAccountId(destination: string, accountId: string) returns (r: Outcome<ContractError>)
      modifies this
      ensures r == if FirstMatch(old(outposts), destination).None?
                   then Fail(DestinationNotFound(destination)) else Pass
      ensures Data() == old(Data()).(outposts := WithAccountId(old(outposts), destination, accountId))
    {
      var found := FindDestinationOutpostMut(destination);
      FirstMatchIs(outposts, destination, found);
      if found.None? {
        return Fail(DestinationNotFound(destination));
      }
      var k := found.value;
      outposts := outposts[k := outposts[k].(accountId := Some(accountId))];
      r := Pass;
    }

    /** `update_outpost_controller`. */
    method UpdateOutpostController(destination: string, controller: Addr) returns (r: Outcome<ContractError>)
      modifies this
      ensures r == if FirstMatch(old(outposts), destination).None?
                   then Fail(DestinationNotFound(destination)) else Pass
      ensures Data() == old(Data()).(outposts := WithController(old(outposts), destination, controller))
    {
      var found := FindDestinationOutpostMut(destination);
      FirstMatchIs(outposts, destination, found);
      if found.None? {
        return Fail(DestinationNotFound(destination));
      }
      var k := found.value;
      outposts := outposts[k := outposts[k].(cwIcaControllerContract := controller)];
      r := Pass;
    }
  }

  /** The characterization of the first match determines it. */
  lemma FirstMatchIs(outposts: seq<Outpost>, destination: string, r: Option<nat>)
    requires r.Some? ==> r.value < |outposts| && outposts[r.value].marsRedBankContract == destination
    requires r.Some? ==> forall j | 0 <= j < r.value :: outposts[j].marsRedBankContract != destination
    requires r.None? <==> forall j | 0 <= j < |outposts| :: outposts[j].marsRedBankContract != destination
    ensures FirstMatch(outposts, destination) == r
  {
    var m := FirstMatch(outposts, destination);
    if m.Some? && r.Some? {
      assert !(m.value < r.value) && !(r.value < m.value);
    }
  }
}
