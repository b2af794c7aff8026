/** The order wire schema of `NostrService`: an order becomes a kind-38383 event
    whose content is empty and whose every field is a tag (publishOrder), and an
    incoming event's tags become an order record, each missing or empty value
    replaced by a fixed default (the subscription callback). */
module OrderCodec {
  import opened Tags

  /** Event kind of an order announcement. */
  const OrderKind: int := 38383

  /** Tag names the encoder emits, in emission order. */
  const OrderSchema: seq<string> :=
    ["d", "k", "f", "s", "amt", "fa", "pm", "premium", "community_id", "source",
     "network", "layer", "expiration", "y", "z"]

  /** The platform the service announces itself as, in the `y` tag. */
  const Platform: string := "lnp2pbot"

  /** The document type, in the `z` tag. */
  const DocumentType: string := "order"

  /** The fields of an order that the encoder reads. An absent optional field
      is the empty string: both are falsy to `||`, so the encoder treats them
      alike. */
  datatype NewOrder = NewOrder(
    side: string,
    fiat: string,
    status: string,
    amount: string,
    minAmount: string,
    maxAmount: string,
    pm: seq<string>,
    premium: string,
    communityId: string,
    sources: seq<string>,
    network: string,
    layer: string,
    expiration: string)

  /** An unsigned outgoing event. */
  datatype Event = Event(kind: int, content: string, tags: seq<Tag>)

  /** A rating record as carried, JSON-encoded, in the `rating` tag. */
  datatype Rating = Rating(totalReviews: int, totalRating: int, lastRating: int, maxRate: int, minRate: int)

  /** The rating an order gets when its `rating` tag is missing or does not parse. */
  const DefaultRating: Rating := Rating(0, 0, 0, 5, 1)

  /** What the transport delivers: the envelope fields and the tags. */
  datatype Envelope = Envelope(id: string, pubkey: string, createdAt: Option<int>, kind: int, tags: seq<Tag>)

  /** A decoded order. `side` and `status` are taken without a default, so they
      may be missing (JavaScript's undefined). */
  datatype Order = Order(
    id: string,
    pubkey: string,
    createdAt: int,
    kind: int,
    side: Option<string>,
    fiat: string,
    amount: string,
    price: string,
    status: Option<string>,
    pm: seq<string>,
    premium: string,
    rating: Rating,
    source: string,
    network: string,
    layer: string,
    name: string,
    geohash: string,
    bond: string,
    expiration: string,
    sources: seq<string>,
    minAmount: string,
    maxAmount: string,
    marketPrice: string,
    details: string,
    trades: int,
    communityId: string)

  /** `sources[0] || ''` */
  function FirstSource(sources: seq<string>): (r: string)
    ensures sources == [] ==> r == ""
    ensures sources != [] ==> r == sources[0]
  {
    if |sources| > 0 then Or(sources[0], "") else ""
  }

  /** publishOrder's event for `o`; `d` is the fresh random token of the `d` tag. */
  function Encode(o: NewOrder, d: string): (e: Event)
    ensures e.kind == OrderKind && e.content == ""
    ensures |e.tags| == |OrderSchema|
    ensures forall i :: 0 <= i < |e.tags| ==> IsNamed(e.tags[i], OrderSchema[i])
  {
    Event(OrderKind, "", [
      ["d", d],
      ["k", o.side],
      ["f", o.fiat],
      ["s", o.status],
      ["amt", o.amount],
      ["fa", Or(o.minAmount, "0"), Or(o.maxAmount, "0")],
      ["pm"] + o.pm,
      ["premium", Or(o.premium, "0")],
      ["community_id", Or(o.communityId, "")],
      ["source", FirstSource(o.sources)],
      ["network", Or(o.network, "mainnet")],
      ["layer", Or(o.layer, "lightning")],
      ["expiration", Or(o.expiration, "")],
      ["y", Platform],
      ["z", DocumentType]
    ])
  }

  /** Encoding copies the identity fields and the payment methods verbatim,
      one value per singleton tag, and fixes `y` and `z`: read back the way
      the decoder reads tags, each name yields exactly these values. */
  lemma EncodeFields(o: NewOrder, d: string)
    ensures var tags := Encode(o, d).tags;
      && Values(tags, "d") == [d]
      && Values(tags, "k") == [o.side]
      && Values(tags, "f") == [o.fiat]
      && Values(tags, "s") == [o.status]
      && Values(tags, "amt") == [o.amount]
      && Values(tags, "pm") == o.pm
      && Values(tags, "y") == [Platform]
      && Values(tags, "z") == [DocumentType]
  {
    EncodedValuesAt(o, d, 0);
    EncodedValuesAt(o, d, 1);
    EncodedValuesAt(o, d, 2);
    EncodedValuesAt(o, d, 3);
    EncodedValuesAt(o, d, 4);
    EncodedPaymentMethods(o, d);
    EncodedValuesAt(o, d, 13);
    EncodedValuesAt(o, d, 14);
  }

  /** Encoding a record that carries both lists fills every default: a
      missing minimum or maximum amount or premium becomes "0", network and layer become
      "mainnet" and "lightning", community id and expiration stay "", and
      the source is the first of the sources or "". */
  lemma EncodeDefaults(o: NewOrder, d: string)
    ensures var tags := Encode(o, d).tags;
      && Values(tags, "fa") == [if o.minAmount == "" then "0" else o.minAmount,
                                if o.maxAmount == "" then "0" else o.maxAmount]
      && Values(tags, "premium") == [if o.premium == "" then "0" else o.premium]
      && Values(tags, "community_id") == [o.communityId]
      && Values(tags, "source") == [if o.sources == [] then "" else o.sources[0]]
      && Values(tags, "network") == [if o.network == "" then "mainnet" else o.network]
      && Values(tags, "layer") == [if o.layer == "" then "lightning" else o.layer]
      && Values(tags, "expiration") == [o.expiration]
  {
    EncodedValuesAt(o, d, 5);
    EncodedValuesAt(o, d, 7);
    EncodedValuesAt(o, d, 8);
    EncodedValuesAt(o, d, 9);
    EncodedValuesAt(o, d, 10);
    EncodedValuesAt(o, d, 11);
    EncodedValuesAt(o, d, 12);
  }

  /** Tag `i` of an encoded order is the first one carrying its name, so its
      values are what the decoder reads under that name. */
  lemma EncodedValuesAt(o: NewOrder, d: string, i: nat)
    requires i < |OrderSchema|
    ensures Values(Encode(o, d).tags, OrderSchema[i]) == Encode(o, d).tags[i][1..]
  {
    SchemaNamesDistinct(i);
    LookupFirst(Encode(o, d).tags, OrderSchema[i], i, "");
  }

  /** No name occurs twice in the schema, so each tag is the first of its name. */
  lemma SchemaNamesDistinct(i: nat)
    requires i < |OrderSchema|
    ensures forall j :: 0 <= j < i ==> OrderSchema[j] != OrderSchema[i]
  {
  }

  /** The `pm` tag carries the payment methods in order. */
  lemma EncodedPaymentMethods(o: NewOrder, d: string)
    ensures Values(Encode(o, d).tags, "pm") == o.pm
  {
    EncodedValuesAt(o, d, 6);
    assert Encode(o, d).tags[6] == ["pm"] + o.pm;
  }

  /** The decoder reads four names the encoder never emits. */
  lemma DecodedOnlyNames()
    ensures "name" !in OrderSchema && "g" !in OrderSchema && "bond" !in OrderSchema && "rating" !in OrderSchema
  {
  }

  /** A name outside the schema names no tag of an encoded order. */
  lemma EncodedTagsOmit(o: NewOrder, d: string, name: string)
    requires name !in OrderSchema
    ensures NoneNamed(Encode(o, d).tags, name)
  {
  }

  /** Reading a name outside the schema from an encoded order gives the default. */
  lemma EncodedLookupAbsent(o: NewOrder, d: string, name: string, default: string)
    requires name !in OrderSchema
    ensures FirstValue(Encode(o, d).tags, name) == None
    ensures ValueOr(Encode(o, d).tags, name, default) == default
  {
  }

  /** The rating: `JSON.parse` of value 1 of the first `rating` tag when that
      value is non-empty and parses, the default record otherwise. */
  function DecodeRating(tags: seq<Tag>, parseRating: string -> Option<Rating>): (r: Rating)
    ensures r != DefaultRating ==> exists v :: FirstValue(tags, "rating") == Some(v) && v != "" && parseRating(v) == Some(r)
  {
    match FirstValue(tags, "rating")
    case None => DefaultRating
    case Some(v) =>
      if v == "" then DefaultRating
      else match parseRating(v)
        case None => DefaultRating
        case Some(parsed) => parsed
  }

  /** `faTag?.[1] || amtTag?.[1] || '0'` */
  function DecodeAmount(tags: seq<Tag>): (r: string)
    ensures r != ""
  {
    ValueOr(tags, "fa", ValueOr(tags, "amt", "0"))
  }

  /** The first tag named `name` gives no usable value: it is missing, has
      no value 1, or its value 1 is empty. */
  ghost predicate NoUsableValue(tags: seq<Tag>, name: string) {
    forall i: nat :: IsFirst(tags, name, i) ==> |tags[i]| <= 1 || tags[i][1] == ""
  }

  /** The amount falls back from value 1 of the first `fa` tag to value 1
      of the first `amt` tag to "0", skipping missing and empty values. */
  lemma DecodeAmountFallback(tags: seq<Tag>)
    ensures forall i: nat :: IsFirst(tags, "fa", i) && |tags[i]| > 1 && tags[i][1] != "" ==>
              DecodeAmount(tags) == tags[i][1]
    ensures NoUsableValue(tags, "fa") ==>
              forall j: nat :: IsFirst(tags, "amt", j) && |tags[j]| > 1 && tags[j][1] != "" ==>
                DecodeAmount(tags) == tags[j][1]
    ensures NoUsableValue(tags, "fa") && NoUsableValue(tags, "amt") ==> DecodeAmount(tags) == "0"
  {
    FindTagSpec(tags, "fa");
    FindTagSpec(tags, "amt");
  }

  /** The rating is the parse of value 1 of the first `rating` tag when that
      value is present, non-empty and parses; otherwise it is the default
      record, and then no trades are reported. */
  lemma DecodeRatingFallback(ev: Envelope, parseRating: string -> Option<Rating>)
    ensures var r := Decode(ev, parseRating);
      && (forall i: nat :: (IsFirst(ev.tags, "rating", i) && |ev.tags[i]| > 1 && ev.tags[i][1] != "" &&
                            parseRating(ev.tags[i][1]).Some?) ==> r.rating == parseRating(ev.tags[i][1]).value)
      && (forall i: nat :: (IsFirst(ev.tags, "rating", i) && |ev.tags[i]| > 1 && ev.tags[i][1] != "" &&
                            parseRating(ev.tags[i][1]).None?) ==> r.rating == DefaultRating && r.trades == 0)
      && (NoUsableValue(ev.tags, "rating") ==> r.rating == DefaultRating && r.trades == 0)
  {
    FindTagSpec(ev.tags, "rating");
  }

  /** Decoding an event without `fa`, `network` and `layer` tags: minimum and
      maximum are the `amt` value or "0", on "mainnet" over "lightning". */
  lemma DecodeDefaults(ev: Envelope, parseRating: string -> Option<Rating>)
    requires NoneNamed(ev.tags, "fa") && NoneNamed(ev.tags, "network") && NoneNamed(ev.tags, "layer")
    ensures var r := Decode(ev, parseRating);
      && r.minAmount == ValueOr(ev.tags, "amt", "0") && r.maxAmount == r.minAmount
      && r.network == "mainnet" && r.layer == "lightning"
  {
  }

  /** The order the subscription callback builds from an incoming event.
      `parseRating` stands for `JSON.parse` of the rating; None is a parse error. */
  function Decode(ev: Envelope, parseRating: string -> Option<Rating>): (r: Order)
    ensures r.id == ev.id && r.pubkey == ev.pubkey && r.kind == ev.kind
    ensures ev.createdAt.None? ==> r.createdAt == 0
    ensures ev.createdAt.Some? ==> r.createdAt == ev.createdAt.value
    ensures r.amount != "" && r.premium != "" && r.bond != ""
    ensures r.network != "" && r.layer != ""
    ensures r.price == r.premium
    ensures r.minAmount == r.amount && r.maxAmount == r.amount
    ensures r.trades == r.rating.totalReviews
  {
    var tags := ev.tags;
    var premium := ValueOr(tags, "premium", "0");
    var amount := DecodeAmount(tags);
    var rating := DecodeRating(tags, parseRating);
    Order(
      id := ev.id,
      pubkey := ev.pubkey,
      createdAt := match ev.createdAt case Some(t) => t case None => 0,
      kind := ev.kind,
      side := FirstValue(tags, "k"),
      fiat := ValueOr(tags, "f", ""),
      amount := amount,
      price := premium,
      status := FirstValue(tags, "s"),
      pm := Values(tags, "pm"),
      premium := premium,
      rating := rating,
      source := ValueOr(tags, "source", ""),
      network := ValueOr(tags, "network", "mainnet"),
      layer := ValueOr(tags, "layer", "lightning"),
      name := ValueOr(tags, "name", ""),
      geohash := ValueOr(tags, "g", ""),
      bond := ValueOr(tags, "bond", "0"),
      expiration := ValueOr(tags, "expiration", ""),
      sources := Values(tags, "y"),
      minAmount := amount,
      maxAmount := amount,
      marketPrice := "0",
      details := "",
      trades := rating.totalReviews,
      communityId := ValueOr(tags, "community_id", ""))
  }

  /** Round trip of the order's own fields: an event built by publishOrder,
      delivered in any envelope, decodes to the published side, status and
      fiat. */
  lemma DecodeEncodeFields(o: NewOrder, d: string, ev: Envelope, parseRating: string -> Option<Rating>)
    requires ev.tags == Encode(o, d).tags
    ensures var r := Decode(ev, parseRating);
      && r.side == Some(o.side)
      && r.status == Some(o.status)
      && r.fiat == o.fiat
  {
    EncodedSideFiatStatus(o, d);
  }

  /** The side, fiat and status tags of a published event read back as the
      order's own side, fiat and status. */
  lemma EncodedSideFiatStatus(o: NewOrder, d: string)
    ensures var tags := Encode(o, d).tags;
      && FirstValue(tags, "k") == Some(o.side)
      && FirstValue(tags, "s") == Some(o.status)
      && ValueOr(tags, "f", "") == o.fiat
  {
    EncodedFirstValueAt(o, d, 1, "");
    EncodedFirstValueAt(o, d, 2, "");
    EncodedFirstValueAt(o, d, 3, "");
  }

  /** Value 1 of tag `i` of an encoded order is what the decoder reads under
      that tag's name, with or without a default. */
  lemma EncodedFirstValueAt(o: NewOrder, d: string, i: nat, default: string)
    requires i < |OrderSchema| && i != 6
    ensures var tags := Encode(o, d).tags;
      && FirstValue(tags, OrderSchema[i]) == Some(tags[i][1])
      && ValueOr(tags, OrderSchema[i], default) == Or(tags[i][1], default)
  {
    SchemaNamesDistinct(i);
    LookupFirst(Encode(o, d).tags, OrderSchema[i], i, default);
  }

  /** Round trip of the list fields: every payment method comes back, in
      order, and the sources are the single platform name of the `y` tag. */
  lemma DecodeEncodeLists(o: NewOrder, d: string, ev: Envelope, parseRating: string -> Option<Rating>)
    requires ev.tags == Encode(o, d).tags
    ensures var r := Decode(ev, parseRating);
      && r.pm == o.pm
      && r.sources == [Platform]
  {
    EncodedPaymentMethods(o, d);
    EncodedValuesAt(o, d, 13);
  }

  /** Round trip of the amounts: since `fa` is always emitted with a non-empty
      first value, the decoded amount (and minimum and maximum) is the
      minimum amount or "0", and the `amt` tag is never consulted; price and
      premium are the premium or "0". */
  lemma DecodeEncodeAmounts(o: NewOrder, d: string, ev: Envelope, parseRating: string -> Option<Rating>)
    requires ev.tags == Encode(o, d).tags
    ensures var r := Decode(ev, parseRating);
      var amount := if o.minAmount == "" then "0" else o.minAmount;
      var premium := if o.premium == "" then "0" else o.premium;
      && r.amount == amount && r.minAmount == amount && r.maxAmount == amount
      && r.premium == premium && r.price == premium
  {
    var tags := ev.tags;
    EncodedValuesAt(o, d, 5);
    HeadValue(tags, "fa", "0");
    EncodedValuesAt(o, d, 7);
    HeadValue(tags, "premium", "0");
  }

  /** Round trip of the optional fields: community id and expiration come back
      unchanged, network and layer with their defaults, and the source is the
      first of the order's sources or "". */
  lemma DecodeEncodeOptional(o: NewOrder, d: string, ev: Envelope, parseRating: string -> Option<Rating>)
    requires ev.tags == Encode(o, d).tags
    ensures var r := Decode(ev, parseRating);
      && r.communityId == o.communityId
      && r.source == (if o.sources == [] then "" else o.sources[0])
      && r.network == (if o.network == "" then "mainnet" else o.network)
      && r.layer == (if o.layer == "" then "lightning" else o.layer)
      && r.expiration == o.expiration
  {
    var tags := ev.tags;
    EncodedValuesAt(o, d, 8);
    HeadValue(tags, "community_id", "");
    EncodedValuesAt(o, d, 9);
    HeadValue(tags, "source", "");
    EncodedValuesAt(o, d, 10);
    HeadValue(tags, "network", "mainnet");
    EncodedValuesAt(o, d, 11);
    HeadValue(tags, "layer", "lightning");
    EncodedValuesAt(o, d, 12);
    HeadValue(tags, "expiration", "");
  }

  /** The fields publishOrder never emits decode to their defaults: no name,
      geohash or bond, the default rating and no trades. */
  lemma DecodeEncodeAbsent(o: NewOrder, d: string, ev: Envelope, parseRating: string -> Option<Rating>)
    requires ev.tags == Encode(o, d).tags
    ensures var r := Decode(ev, parseRating);
      && r.name == "" && r.geohash == "" && r.bond == "0"
      && r.rating == DefaultRating && r.trades == 0
  {
    DecodedOnlyNames();
    EncodedLookupAbsent(o, d, "name", "");
    EncodedLookupAbsent(o, d, "g", "");
    EncodedLookupAbsent(o, d, "bond", "0");
    EncodedLookupAbsent(o, d, "rating", "");
  }
}
