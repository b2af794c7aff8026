/** The matching engine (`matchOrders`): the stored orders that a newly
    inserted order could trade against. */
module Matching {
  import opened Tags
  import opened OrderCodec

  /** `parseFloat` on a price string; None stands for NaN, which satisfies
      no comparison. */
  type PriceParser = string -> Option<real>

  /** `existingPrice <= newPrice` on parsed prices: false when either is NaN. */
  predicate PriceAtMost(lower: string, upper: string, parse: PriceParser) {
    parse(lower).Some? && parse(upper).Some? && parse(lower).value <= parse(upper).value
  }

  /** The filter predicate of matchOrders: `o` is a different order, still
      pending, in the same fiat, and on the other side at a crossing price.
      A new order whose side is not "buy" is matched as a seller. */
  predicate IsCounterOffer(newOrder: Order, o: Order, parse: PriceParser) {
    && o.id != newOrder.id
    && o.status == Some("pending")
    && o.fiat == newOrder.fiat
    && if newOrder.side == Some("buy") then
         o.side == Some("sell") && PriceAtMost(o.price, newOrder.price, parse)
       else
         o.side == Some("buy") && PriceAtMost(newOrder.price, o.price, parse)
  }

  /** `ordersRef.value.filter(...)`: the counter-offers among `orders`, in
      store order. */
  function Matches(newOrder: Order, orders: seq<Order>, parse: PriceParser): (r: seq<Order>)
    ensures |r| <= |orders|
    ensures forall o :: o in r ==> o in orders && IsCounterOffer(newOrder, o, parse)
    ensures forall o :: o in orders && IsCounterOffer(newOrder, o, parse) ==> o in r
  {
    if orders == [] then []
    else
      var rest := Matches(newOrder, orders[1..], parse);
      if IsCounterOffer(newOrder, orders[0], parse) then [orders[0]] + rest else rest
  }

  /** `sub` is `s` with some elements left out, the rest in their order:
      each element of `s` is either kept as the next element of `sub` or
      skipped. */
  ghost predicate IsSubsequence<T>(sub: seq<T>, s: seq<T>)
    decreases |s|
  {
    if s == [] then sub == []
    else (sub != [] && sub[0] == s[0] && IsSubsequence(sub[1..], s[1..])) || IsSubsequence(sub, s[1..])
  }

  /** Matching keeps the store's order: the result is a subsequence of it. */
  lemma {:induction false} MatchesIsSubsequence(newOrder: Order, orders: seq<Order>, parse: PriceParser)
    ensures IsSubsequence(Matches(newOrder, orders, parse), orders)
    decreases |orders|
  {
    if orders != [] {
      var r := Matches(newOrder, orders, parse);
      var rest := Matches(newOrder, orders[1..], parse);
      MatchesIsSubsequence(newOrder, orders[1..], parse);
      if IsCounterOffer(newOrder, orders[0], parse) {
        assert r[1..] == rest;
      }
    }
  }

  /** Matching distributes over the store: orders appended later are
      matched after those already stored, so the store's order is kept. */
  lemma {:induction false} MatchesAppend(newOrder: Order, a: seq<Order>, b: seq<Order>, parse: PriceParser)
    ensures Matches(newOrder, a + b, parse) == Matches(newOrder, a, parse) + Matches(newOrder, b, parse)
    decreases |a|
  {
    if a != [] {
      assert (a + b)[1..] == a[1..] + b;
      MatchesAppend(newOrder, a[1..], b, parse);
    } else {
      assert a + b == b;
    }
  }

  /** What every match is, spelled out: never the new order itself (by id),
      pending, in the same fiat, and for a buy a seller at a price no higher,
      for anything else a buyer at a price no lower; both prices numeric. */
  lemma MatchesCross(newOrder: Order, orders: seq<Order>, parse: PriceParser, o: Order)
    requires o in Matches(newOrder, orders, parse)
    ensures o in orders && o.id != newOrder.id && o.status == Some("pending") && o.fiat == newOrder.fiat
    ensures parse(o.price).Some? && parse(newOrder.price).Some?
    ensures newOrder.side == Some("buy") ==>
              o.side == Some("sell") && parse(o.price).value <= parse(newOrder.price).value
    ensures newOrder.side != Some("buy") ==>
              o.side == Some("buy") && parse(o.price).value >= parse(newOrder.price).value
  {
  }

  /** A non-numeric price never matches: a new order whose price is NaN
      matches nothing, and a stored order whose price is NaN is never
      matched. */
  lemma NonNumericNeverMatches(newOrder: Order, orders: seq<Order>, parse: PriceParser, o: Order)
    ensures parse(newOrder.price).None? ==> Matches(newOrder, orders, parse) == []
    ensures parse(o.price).None? ==> o !in Matches(newOrder, orders, parse)
  {
  }

  /** Matching is symmetric between a pending buyer and a pending seller:
      if the buyer, on arrival, matches the seller, the
      seller, on arrival, matches the buyer, and the other way round. */
  lemma MatchSymmetric(buyer: Order, seller: Order, parse: PriceParser, buyerStore: seq<Order>, sellerStore: seq<Order>)
    requires buyer.side == Some("buy") && seller.side == Some("sell")
    requires buyer.status == Some("pending") && seller.status == Some("pending")
    requires seller in buyerStore && buyer in sellerStore
    ensures seller in Matches(buyer, buyerStore, parse) <==> buyer in Matches(seller, sellerStore, parse)
  {
  }

  /** The sell offer of the worked exchange below. */
  function SellOffer(parseRating: string -> Option<Rating>): Order {
    Decode(Envelope("s", "p1", Some(1), OrderKind,
                    [["k", "sell"], ["f", "USD"], ["amt", "100"], ["premium", "3"], ["s", "pending"]]), parseRating)
  }

  /** A buy offer of the worked exchange below, at the given premium. */
  function BuyOffer(id: string, premium: string, parseRating: string -> Option<Rating>): Order {
    Decode(Envelope(id, "p2", Some(2), OrderKind,
                    [["k", "buy"], ["f", "USD"], ["premium", premium], ["s", "pending"]]), parseRating)
  }

  /** The sell offer decodes to a pending USD sale of 100 at premium 3, with
      no payment methods and no sources. */
  lemma SellOfferDecodes(parseRating: string -> Option<Rating>)
    ensures var sell := SellOffer(parseRating);
      && sell.id == "s" && sell.side == Some("sell") && sell.fiat == "USD" && sell.amount == "100"
      && sell.premium == "3" && sell.price == "3" && sell.status == Some("pending")
      && sell.pm == [] && sell.sources == []
  {
    var tags: seq<Tag> := [["k", "sell"], ["f", "USD"], ["amt", "100"], ["premium", "3"], ["s", "pending"]];
    LookupFirst(tags, "k", 0, "");
    LookupFirst(tags, "f", 1, "");
    LookupFirst(tags, "amt", 2, "0");
    LookupFirst(tags, "premium", 3, "0");
    LookupFirst(tags, "s", 4, "");
    LookupAbsent(tags, "fa", ValueOr(tags, "amt", "0"));
    LookupAbsent(tags, "pm", "");
    LookupAbsent(tags, "y", "");
  }

  /** A buy offer decodes to a pending USD purchase at its premium. */
  lemma BuyOfferDecodes(id: string, premium: string, parseRating: string -> Option<Rating>)
    requires premium != ""
    ensures var buy := BuyOffer(id, premium, parseRating);
      && buy.id == id && buy.side == Some("buy") && buy.fiat == "USD"
      && buy.price == premium && buy.status == Some("pending")
  {
    var tags: seq<Tag> := [["k", "buy"], ["f", "USD"], ["premium", premium], ["s", "pending"]];
    LookupFirst(tags, "k", 0, "");
    LookupFirst(tags, "f", 1, "");
    LookupFirst(tags, "premium", 2, "0");
    LookupFirst(tags, "s", 3, "");
  }

  /** A pending buyer arriving after a pending seller in the same fiat: it
      matches the seller exactly when both prices parse and the seller's is
      no higher, and it never matches itself. */
  lemma BuyerAfterSeller(sell: Order, buy: Order, parse: PriceParser)
    requires sell.side == Some("sell") && buy.side == Some("buy")
    requires sell.status == Some("pending") && buy.status == Some("pending")
    requires sell.fiat == buy.fiat && sell.id != buy.id
    ensures Matches(buy, [sell, buy], parse) == if PriceAtMost(sell.price, buy.price, parse) then [sell] else []
  {
  }

  /** The worked exchange: a pending USD buyer at premium 5 matches the sell
      offer at premium 3 on arrival; one at premium 2 does not. */
  lemma SellOfferScenario(parseRating: string -> Option<Rating>, parse: PriceParser)
    requires parse("3") == Some(3.0) && parse("5") == Some(5.0) && parse("2") == Some(2.0)
    ensures Matches(BuyOffer("b5", "5", parseRating), [SellOffer(parseRating), BuyOffer("b5", "5", parseRating)], parse)
            == [SellOffer(parseRating)]
    ensures Matches(BuyOffer("b2", "2", parseRating), [SellOffer(parseRating), BuyOffer("b2", "2", parseRating)], parse) == []
  {
    SellOfferDecodes(parseRating);
    BuyOfferDecodes("b5", "5", parseRating);
    BuyOfferDecodes("b2", "2", parseRating);
    BuyerAfterSeller(SellOffer(parseRating), BuyOffer("b5", "5", parseRating), parse);
    BuyerAfterSeller(SellOffer(parseRating), BuyOffer("b2", "2", parseRating), parse);
  }
}
