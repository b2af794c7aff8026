# NostrService order book, modelled in Dafny

`NostrService` (src/services/NostrService.ts) is the client side of a
peer-to-peer Bitcoin/fiat order book carried over Nostr. Orders travel as
replaceable events of kind 38383 whose content is empty and whose every field
is a tag: a name followed by string values. The service

- **publishes** an order by turning its fields into fifteen tags in a fixed
  order, filling the defaults `'0'`, `'mainnet'`, `'lightning'` and `''`
  (`publishOrder`);
- **decodes** every incoming event into an order record. Each field is read from the FIRST
  tag carrying its name. Except for `side` and `status`, which stay missing
  or empty as they are, a missing or empty value gets a fixed default, and
  the amount falls back from `fa` to `amt` to `'0'` (the subscription callback);
- **stores** the decoded order in a list, at the end, unless an order with the
  same id is already there. The list is reset when a subscription starts;
- **matches** a freshly stored order against the list. It looks for pending
  orders in the same fiat, on the other side, at a crossing price (`matchOrders`).

The model has four modules:

- `Tags` (tags.dfy) — tag lookup as `getMatchingTags(name)[0]` does it, and
  JavaScript's `||` on strings.
- `OrderCodec` (codec.dfy) — the encoder `Encode`, the decoder `Decode`, and
  the round trip between them.
- `Matching` (matching.dfy) — the filter `Matches` and its properties,
  including the worked exchange of one seller and two buyers.
- `Service` (service.dfy) — the store. `Insert` is the pure step and
  `InsertAll` a sequence of deliveries. The class `NostrService` holds the
  order list as a `seq` field that its methods reassign.

`parseFloat` on prices is a parameter of type `PriceParser`; `None` stands for
NaN, which fails every comparison. `JSON.parse` of the rating is a parameter
`parseRating`; `None` stands for a parse error. The random `d` token of
`crypto.randomUUID()` is a parameter of `Encode`. JavaScript's `undefined`
for a missing `side` or `status` is `None`. Optional string fields of an
order to publish are `""` when absent, since `||` treats both alike.

Behaviours of the code worth knowing:

- the `y` tag always carries the literal `'lnp2pbot'`, not the order's sources;
  decoding reads `y` back as the order's `sources`, so a round trip gives
  `["lnp2pbot"]`;
- the subscription asks the relays for kind 38383 only, but the callback
  itself never checks the kind: the decoder copies it and builds an order
  from any event it is handed;
- the decoded `minAmount` and `maxAmount` are both the amount (value 1 of `fa`,
  else of `amt`, else `'0'`), never value 2 of `fa`;
- the geohash is read from the tag `g`;
- a new order whose side is anything but `'buy'` (including a missing side) is
  matched as a seller;
- `fa` is always published with a non-empty first value, so after a round
  trip the `amt` value is never what the decoder reads.

## Model

| member | source | states |
|---|---|---|
| Tags.FindTagFrom | src/services/NostrService.ts:91 | a found index is at or after the start and names a tag with the wanted name |
| Tags.FindTag | src/services/NostrService.ts:91 | a found index is in range and its tag carries the wanted name |
| Tags.FindTagFromSpec | src/services/NostrService.ts:91 | the search from an index stops at the first matching tag, and fails exactly when no tag from there on matches |
| Tags.FindTagSpec | src/services/NostrService.ts:91 | `getMatchingTags(name)[0]` finds tag i exactly when tag i is the first so named, and finds nothing exactly when no tag is so named |
| Tags.ValueOr | src/services/NostrService.ts:130 | `tag?.[1] \|\| default` is never empty when the default is not |
| Tags.LookupFirst | src/services/NostrService.ts:91-92 | reading through the first tag named `name` gives its values after the name, its value 1 when present, and value 1 or the default when value 1 is missing or empty |
| Tags.LookupAbsent | src/services/NostrService.ts:91-92 | a name no tag carries reads as no values, no value 1, and the default |
| Tags.FirstValue | src/services/NostrService.ts:129-143 | `getMatchingTags(n)[0]?.[1]`: its meaning is stated by Tags.LookupFirst (value 1 of the first tag so named, undefined when it has none) and Tags.LookupAbsent (undefined when no tag is so named) |
| Tags.Values | src/services/NostrService.ts:91-96 | `tag ? tag.slice(1) : []`: its meaning is stated by Tags.LookupFirst (the first named tag without its name) and Tags.LookupAbsent (`[]` when absent) |
| Tags.Or | src/services/NostrService.ts:99 | JavaScript's `\|\|` on strings, the empty string being falsy: Tags.LookupFirst and Tags.HeadValue state the defaulted read it builds |
| Tags.HeadValue | src/services/NostrService.ts:99 | whatever the tags, value 1 of the first named tag is the head of its values |
| OrderCodec.FirstSource | src/services/NostrService.ts:67 | `sources[0] \|\| ''` is "" for no sources and the first source otherwise |
| OrderCodec.Encode | src/services/NostrService.ts:54-74 | the event has kind 38383 and empty content, and carries exactly fifteen tags, named d, k, f, s, amt, fa, pm, premium, community_id, source, network, layer, expiration, y, z in that order |
| OrderCodec.EncodeFields | src/services/NostrService.ts:58-64 | read back by first-tag lookup, d, k, f, s and amt each yield exactly their single field, pm yields every payment method in order, y yields 'lnp2pbot' and z 'order' |
| OrderCodec.EncodeDefaults | src/services/NostrService.ts:63-70 | min and max amount and premium default to '0', network to 'mainnet', layer to 'lightning'; community id and expiration are carried as given; source is the first source or '' |
| OrderCodec.EncodedValuesAt | src/services/NostrService.ts:57-73 | each emitted tag is the first of its name, so its values are what a lookup by that name returns |
| OrderCodec.SchemaNamesDistinct | src/services/NostrService.ts:57-73 | no tag name is emitted twice |
| OrderCodec.EncodedPaymentMethods | src/services/NostrService.ts:64 | the pm tag carries the payment methods, all of them, in order |
| OrderCodec.DecodedOnlyNames | src/services/NostrService.ts:107-142 | rating, name, g and bond are read by the decoder but never emitted by the encoder |
| OrderCodec.EncodedTagsOmit | src/services/NostrService.ts:57-73 | no tag of a published event carries a name outside the fifteen |
| OrderCodec.EncodedLookupAbsent | src/services/NostrService.ts:57-73 | looking up a name outside the fifteen in a published event gives no value and the default |
| OrderCodec.DecodeRating | src/services/NostrService.ts:107-122 | a rating other than the default was parsed from a present, non-empty value 1 of the first rating tag |
| OrderCodec.DecodeAmount | src/services/NostrService.ts:102-104 | the amount is never empty |
| OrderCodec.DecodeAmountFallback | src/services/NostrService.ts:102-104 | the amount is fa's value 1 when usable, else amt's value 1 when usable, else '0' |
| OrderCodec.DecodeRatingFallback | src/services/NostrService.ts:107-149 | the rating is the parse of the first rating tag's value when present, non-empty and parsable; on a parse error or a missing or empty value it is the default record and trades is 0 |
| OrderCodec.DecodeDefaults | src/services/NostrService.ts:102-146 | without fa, network and layer tags, min and max amount are the amt value or '0', network is 'mainnet' and layer 'lightning' |
| OrderCodec.Decode | src/services/NostrService.ts:124-152 | id, pubkey and kind are copied; created_at defaults to 0; amount, premium, bond, network and layer are never empty; price is the premium; min and max amount are the amount; trades is the rating's review count |
| OrderCodec.DecodeEncodeFields | src/services/NostrService.ts:59-133 | a published order decodes, in any envelope, to its own side, status and fiat |
| OrderCodec.EncodedSideFiatStatus | src/services/NostrService.ts:59-61 | the k, s and f tags of a published event read back as the order's side, status and fiat |
| OrderCodec.EncodedFirstValueAt | src/services/NostrService.ts:57-73 | value 1 of each tag except pm (which may have none) is what a lookup by its name returns, with or without a default |
| OrderCodec.DecodeEncodeLists | src/services/NostrService.ts:64-96 | a published order decodes to its own payment methods in order, and to the sources ['lnp2pbot'] |
| OrderCodec.DecodeEncodeAmounts | src/services/NostrService.ts:62-146 | a published order decodes to amount, min and max equal to its minimum amount or '0', and to price and premium equal to its premium or '0' |
| OrderCodec.DecodeEncodeOptional | src/services/NostrService.ts:66-151 | a published order decodes to its own community id and expiration, its first source or '', its network or 'mainnet', its layer or 'lightning' |
| OrderCodec.DecodeEncodeAbsent | src/services/NostrService.ts:107-149 | a published order decodes with no name, no geohash, bond '0', the default rating and 0 trades |
| Matching.PriceAtMost | src/services/NostrService.ts:167-173 | `existingPrice <= newPrice` on `parseFloat` results, false when either is NaN: Matching.NonNumericNeverMatches states the NaN case and Matching.MatchesCross the numeric one |
| Matching.IsCounterOffer | src/services/NostrService.ts:163-174 | the filter predicate; Matching.MatchesCross spells out each of its conditions for every match |
| Matching.Matches | src/services/NostrService.ts:161-175 | the result holds exactly the stored orders that are counter-offers: a different id, pending, same fiat, and for a buy a seller at a price no higher, otherwise a buyer at a price no lower |
| Matching.MatchesIsSubsequence | src/services/NostrService.ts:162 | the matches keep the store's order, as a filter does |
| Matching.MatchesAppend | src/services/NostrService.ts:162 | matching a concatenated store is matching each part, concatenated |
| Matching.MatchesCross | src/services/NostrService.ts:163-174 | every match is a stored order with another id, pending, in the same fiat, with both prices numeric, on the opposite side at a crossing price |
| Matching.NonNumericNeverMatches | src/services/NostrService.ts:167-173 | a NaN price on the new order matches nothing, and a stored order with a NaN price is never matched |
| Matching.MatchSymmetric | src/services/NostrService.ts:170-174 | a pending buyer finds a pending seller exactly when that seller, arriving, would find the buyer |
| Matching.SellOfferDecodes | src/services/NostrService.ts:90-152 | the worked sell event decodes to a pending USD sale of 100 at premium 3, with no payment methods and no sources |
| Matching.BuyOfferDecodes | src/services/NostrService.ts:90-152 | a worked buy event decodes to a pending USD purchase priced at its premium |
| Matching.BuyerAfterSeller | src/services/NostrService.ts:161-175 | a pending buyer arriving after a pending seller in the same fiat matches it exactly when both prices parse and the seller's is no higher |
| Matching.SellOfferScenario | src/services/NostrService.ts:154-175 | a USD buyer at premium 5 matches the pending sell offer at premium 3; one at premium 2 matches nothing |
| Service.HasId | src/services/NostrService.ts:154 | `.some(o => o.id === order.id)`; Service.Insert and Service.NostrService.OnEvent state what the store does on each answer |
| Service.Insert | src/services/NostrService.ts:154-155 | the store keeps distinct ids, afterwards holds the arriving id, loses no order, and gains at most the arriving one; the old store is a prefix of the new one, which is at most one longer, and a stored id leaves the store unchanged |
| Service.InsertIdempotent | src/services/NostrService.ts:154 | an order whose id is already stored changes nothing |
| Service.InsertAllStores | src/services/NostrService.ts:154-155 | after a run of deliveries ids stay distinct, the old store is a prefix of the new one, and every delivered id is stored |
| Service.ReplayAbsorbed | src/services/NostrService.ts:154-155 | delivering the same events a second time leaves the store as the first delivery left it |
| Service.AllStoredUnchanged | src/services/NostrService.ts:154-155 | deliveries whose ids are all stored leave the store unchanged |
| Service.NostrService.constructor | src/services/NostrService.ts:16-21 | a new service starts with no orders |
| Service.NostrService.SubscribeOrders | src/services/NostrService.ts:80-81 | subscribing resets the store to empty |
| Service.NostrService.GetOrders | src/services/NostrService.ts:44-46 | the returned orders have distinct ids |
| Service.NostrService.OnEvent | src/services/NostrService.ts:87-157 | the decoded order is appended exactly when its id is not yet stored, and otherwise nothing changes; only after an append is it matched against the updated store; ids stay distinct |

## Left out

- Relay transport (`connect`, the NDK subscription and `event.publish()`, the relay list): network I/O. The model takes the delivered events as arguments and returns the event to publish.
- `login`, `isLoggedIn`, `getPrivateKey`, `generatePrivateKey` and the signer: key handling and randomness, with no effect on orders.
- `crypto.randomUUID()` for the `d` tag is the parameter `d` of `Encode`.
- Vue's `ref` wrapper: the store is a plain `seq` field.
- Logging, including the match report. When a match is found for a new order whose side is missing, `newOrder.side.toUpperCase()` throws inside the report. That happens after the store update, so it does not change the store.
- `parseFloat` and `JSON.parse` are parameters, not parsers. Infinity and the JavaScript number format are not modelled.
- OrderCodec.Decode: does not model `completion`, a floating-point division of the rating's fields.
- OrderCodec.Decode: assumes `JSON.parse` of the rating yields a rating record or fails. When it yields `null`, the parse succeeds (line 118), and then reading `rating.total_reviews` (line 149) throws. The callback stops before line 154, so the source drops that event: it is never stored or matched. The model always builds and stores an order and does not capture this. Other JSON values that are not rating records (a number, or an object without `total_reviews`, which `|| 0` turns into 0 trades) are not modelled either.
- The record to publish has no id, pubkey or timestamp: `publishOrder` excludes them, and the transport sets the event's signature and `created_at`.
- src/types/Order.ts declares the record shape only. Of the fields it declares, three differ in the model: `relay` has no counterpart, since the callback never sets one, and `side` and `status` are `Option<string>`, not `'buy' | 'sell'` and `string`, because the callback casts whatever value 1 of the `k` and `s` tags holds, including undefined. `OrderCodec.Order` also carries the fields the callback builds at lines 124-152 that Order.ts does not declare.
- OrderCodec.Encode: `pm` and `sources` are always sequences in the model. The source throws a TypeError when either is missing from the record to publish: spreading an undefined `pm` at line 64, or indexing an undefined `sources` at line 67. Nothing is then published, and the model does not capture that failure.
