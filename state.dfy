/** Pool accounting state and the per-address virtual-receipt ledger (src/state.rs). */
module State {
  import opened Wrappers
  import opened Numbers
  import opened Errors
  import opened Cosmos

  /** `State`: the pool's stable value and minted receipts (both with 6 decimals) and the
      redemption rate between them. */
  datatype State = State(totalStables: Uint128, virtualReceipt: Uint128, depositRedemptionRate: Decimal)

  /** The `STATE` item; absent until first saved. */
  class StateItem {
    var stored: Option<State>

    constructor ()
      ensures stored == None
    {
      stored := None;
    }
  }

  /** What a failed `load` of a missing ledger entry reports. */
  const RECEIPT_KIND: string := "Uint128"

  /** `VirtualReceipts`: the receipts held by each address (`VIRTUAL_RECEIPTS`). */
  class VirtualReceipts {
    var entries: map<Addr, Uint128>

    constructor New()
      ensures entries == map[]
    {
      entries := map[];
    }

    /** `get`: the stored amount; an address never stored is an error. */
    function Get(address: Addr): (r: Result<Uint128, StdError>)
      reads this
      ensures r.Success? <==> address in entries
      ensures r.Success? ==> r.value == entries[address]
      ensures r.Failure? ==> r.error == NotFound(RECEIPT_KIND)
    {
      if address in entries then Success(entries[address]) else Failure(NotFound(RECEIPT_KIND))
    }

    /** `query`: the stored amount, or zero for an address never stored. */
    function Query(address: Addr): (r: Uint128)
      reads this
      ensures address in entries ==> r == entries[address]
      ensures address !in entries ==> r == 0
    {
      if address in entries then entries[address] else 0
    }

    /** `store`: overwrites the entry unconditionally; every other entry is untouched. */
    method Store(address: Addr, amount: Uint128)
      modifies this
      ensures entries == old(entries)[address := amount]
      ensures Get(address) == Success(amount) && Query(address) == amount
      ensures forall a | a != address :: Get(a) == old(Get(a)) && Query(a) == old(Query(a))
    {
      entries := entries[address := amount];
    }

    /** `update`: adds to the existing amount, zero if absent. The `Uint128` addition panics on
        overflow, and the ledger is then left as it was. */
    method Update(address: Addr, amount: Uint128) returns (r: Outcome<PanicReason>)
      modifies this
      ensures r.Pass? <==> old(Query(address)) + amount < U128_LIMIT
      ensures r.Pass? ==> entries == old(entries)[address := old(Query(address)) + amount]
                          && Query(address) == old(Query(address)) + amount
      ensures r.Fail? ==> r.error == AddOverflow && entries == old(entries)
      ensures forall a | a != address :: Get(a) == old(Get(a)) && Query(a) == old(Query(a))
    {
      var current := if address in entries then entries[address] else 0;
      var sum := AddU128(current, amount);
      if sum.Failure? {
        return Fail(sum.error);
      }
      entries := entries[address := sum.value];
      r := Pass;
    }
  }

  /** A fresh ledger knows no address; after `store(a, n)` both reads give `n`, and a
      following `update(a, m)` that fits gives `n + m`. */
  method LedgerStoreThenUpdate(address: Addr, n: Uint128, m: Uint128)
    returns (before: Result<Uint128, StdError>, stored: Result<Uint128, StdError>,
             queried: Uint128, updated: Outcome<PanicReason>, after: Uint128)
    ensures before == Failure(NotFound(RECEIPT_KIND))
    ensures stored == Success(n) && queried == n
    ensures updated.Pass? <==> n + m < U128_LIMIT
    ensures after == if n + m < U128_LIMIT then n + m else n
  {
    var ledger := new VirtualReceipts.New();
    before := ledger.Get(address);
    ledger.Store(address, n);
    stored := ledger.Get(address);
    queried := ledger.Query(address);
    updated := ledger.Update(address, m);
    after := ledger.Query(address);
  }
}
