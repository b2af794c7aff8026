/** The order store of `NostrService` and the subscription callback that
    feeds it: decode an incoming event, append the order unless its id is
    already stored, and run matching only after a successful append. */
module Service {
  import opened Tags
  import opened OrderCodec
  import opened Matching

  /** `orders.some(o => o.id === id)` */
  predicate HasId(orders: seq<Order>, id: string) {
    exists i :: 0 <= i < |orders| && orders[i].id == id
  }

  /** No two stored orders share an id. */
  ghost predicate DistinctIds(orders: seq<Order>) {
    forall i, j :: 0 <= i < j < |orders| ==> orders[i].id != orders[j].id
  }

  /** The store after an order arrives: appended at the end when its id is
      new, unchanged otherwise. */
  function Insert(orders: seq<Order>, o: Order): (r: seq<Order>)
    ensures DistinctIds(orders) ==> DistinctIds(r)
    ensures HasId(r, o.id)
    ensures forall x :: x in orders ==> x in r
    ensures forall x :: x in r ==> x in orders || x == o
    ensures orders <= r && |r| <= |orders| + 1
    ensures HasId(orders, o.id) ==> r == orders
  {
    if HasId(orders, o.id) then orders
    else
      var r := orders + [o];
      assert r[|orders|] == o;
      r
  }

  /** The store after a sequence of orders arrives, one at a time. */
  function InsertAll(orders: seq<Order>, arrivals: seq<Order>): seq<Order>
    decreases |arrivals|
  {
    if arrivals == [] then orders else InsertAll(Insert(orders, arrivals[0]), arrivals[1..])
  }

  /** Inserting an id already stored changes nothing; in particular a second
      insert of the same order is a no-op. */
  lemma InsertIdempotent(orders: seq<Order>, o: Order, o': Order)
    requires o'.id == o.id
    ensures Insert(Insert(orders, o), o') == Insert(orders, o)
  {
  }

  /** After the arrivals every id ever seen is stored, the ids stay distinct,
      and the earlier store is a prefix of the new one. */
  lemma {:induction false} InsertAllStores(orders: seq<Order>, arrivals: seq<Order>)
    ensures var r := InsertAll(orders, arrivals);
      && (DistinctIds(orders) ==> DistinctIds(r))
      && orders <= r
      && (forall x :: x in arrivals ==> HasId(r, x.id))
    decreases |arrivals|
  {
    if arrivals != [] {
      var next := Insert(orders, arrivals[0]);
      InsertAllStores(next, arrivals[1..]);
      var r := InsertAll(next, arrivals[1..]);
      assert HasId(r, arrivals[0].id) by {
        var i :| 0 <= i < |next| && next[i].id == arrivals[0].id;
        assert r[i] == next[i];
      }
    }
  }

  /** Replay is absorbed: delivering the same events again, in the same
      order, leaves the store as the first delivery left it. */
  lemma {:induction false} ReplayAbsorbed(orders: seq<Order>, arrivals: seq<Order>)
    ensures InsertAll(InsertAll(orders, arrivals), arrivals) == InsertAll(orders, arrivals)
  {
    InsertAllStores(orders, arrivals);
    AllStoredUnchanged(InsertAll(orders, arrivals), arrivals);
  }

  /** Arrivals whose ids are all stored leave the store unchanged. */
  lemma {:induction false} AllStoredUnchanged(orders: seq<Order>, arrivals: seq<Order>)
    requires forall x :: x in arrivals ==> HasId(orders, x.id)
    ensures InsertAll(orders, arrivals) == orders
    decreases |arrivals|
  {
    if arrivals != [] {
      assert arrivals[0] in arrivals;
      AllStoredUnchanged(orders, arrivals[1..]);
    }
  }

  /** The service object: its orders, reset when a subscription starts. */
  class NostrService {
    var orders: seq<Order>

    ghost predicate Valid()
      reads this
    {
      DistinctIds(orders)
    }

    constructor ()
      ensures Valid() && orders == []
    {
      orders := [];
    }

    /** subscribeOrders: the store starts empty for each subscription. */
    method SubscribeOrders()
      modifies this
      ensures Valid() && orders == []
    {
      orders := [];
    }

    /** getOrders */
    function GetOrders(): (r: seq<Order>)
      reads this
      requires Valid()
      ensures DistinctIds(r)
    {
      orders
    }

    /** The subscription callback for one delivered event: decode it, append
        the order when its id is not stored yet, and only then match it
        against the updated store. Returns whether the order was appended and
        the matches found. */
    method OnEvent(ev: Envelope, parseRating: string -> Option<Rating>, parse: PriceParser)
      returns (inserted: bool, matched: seq<Order>)
      requires Valid()
      modifies this
      ensures Valid()
      ensures var order := Decode(ev, parseRating);
        && inserted == !HasId(old(orders), ev.id)
        && orders == Insert(old(orders), order)
        && (inserted ==> orders == old(orders) + [order] && matched == Matches(order, orders, parse))
        && (!inserted ==> orders == old(orders) && matched == [])
    {
      var order := Decode(ev, parseRating);
      if !HasId(orders, order.id) {
        orders := orders + [order];
        inserted := true;
        matched := Matches(order, orders, parse);
      } else {
        inserted := false;
        matched := [];
      }
    }
  }
}
