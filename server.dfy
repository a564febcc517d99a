/**
 * The server's module-level `orders` array and the three handlers that change
 * it. Every handler changes the ledger before its first `await`, so its
 * effect on the ledger is one atomic method. The reply of every handler is
 * `{ success: true }`.
 * The two read-only views are Orders.KitchenOrders and Orders.ManagerOrders
 * applied to `orders`.
 */
module Server {
  import opened Wrappers
  import opened Orders

  class Ledger<P, T> {
    /** Every record ever placed, in the order the requests arrived. */
    var orders: seq<Order<P, T>>

    /** The server starts with an empty ledger. */
    constructor ()
      ensures orders == []
    {
      orders := [];
    }

    /** `POST /order`: store the body with status Preparing and the server's time stamp. */
    method PlaceOrder(body: Body<P, T>, time: string) returns (success: bool)
      modifies this
      ensures orders == old(orders) + [Placed(body, time)]
      ensures KitchenOrders(orders) == KitchenOrders(old(orders)) + [Placed(body, time)]
      ensures ManagerOrders(orders) == ManagerOrders(old(orders)) + [Placed(body, time)]
      ensures success
    {
      var order := Placed(body, time);
      ViewsAfterPlace(orders, body, time);
      orders := orders + [order];
      success := true;
    }

    /** `POST /mark-prepared`: the first record with the id becomes Prepared, unguarded. */
    method MarkPrepared(id: Option<string>) returns (success: bool)
      modifies this
      ensures orders == Prepare(old(orders), id)
      ensures |orders| == |old(orders)|
      ensures success
    {
      var found := FirstMatch(orders, id);
      if found.Some? {
        var i := found.value;
        PrepareAt(orders, id, i);
        orders := orders[i := orders[i].(status := Prepared)];
      }
      success := true;
    }

    /** `POST /finalize-bill`: the first record with the id becomes Completed and keeps the given total. */
    method FinalizeBill(id: Option<string>, finalTotal: Option<T>) returns (success: bool)
      modifies this
      ensures orders == Finalize(old(orders), id, finalTotal)
      ensures |orders| == |old(orders)|
      ensures success
    {
      var found := FirstMatch(orders, id);
      if found.Some? {
        var i := found.value;
        FinalizeAt(orders, id, finalTotal, i);
        orders := orders[i := orders[i].(status := Completed, finalTotal := finalTotal)];
      }
      success := true;
    }
  }
}
