# Flux capacitor indexer: the filter, the decoder and the allow-list

This project models the core of an indexer for a NEAR NFT marketplace. The
indexer reads the chain's block stream and keeps the execution outcomes that
succeeded and whose executor is on an allow-list. It decodes the JSON events
those outcomes log, and forwards each decoded event to the marketplace's
HTTP API (the sink). An administrative endpoint adds contracts to the
allow-list. The allow-list lives in memory and is mirrored to a persisted
collection.

Modules:

- `Json` (json.dfy): the parsed JSON values and the serde_json accessors the decoder uses (`v["k"]`, `as_str`, `as_u64`, `as_bool`, `as_array`, `unwrap_or`).
- `Events` (events.dfy): the nine log tags, the nine kinds of sink call (`DomainEvent`) and the endpoint path of each kind.
- `Decoder` (decoder.dfy): one log line. The "EVENT_JSON:" marker is removed, the text is parsed, and the `event` tag is dispatched. A `data` tag yields one call per array element; a `params` tag yields one call, with its default fields filled in. A missing or mistyped required field is a `FieldError`.
- `DecoderRoundTrip` (decoder.dfy): how contracts write these logs, and the proof that the decoder reads back exactly the events written.
- `Near` (near.dfy): the stream's messages, shards and execution outcomes.
- `Capacitor` (capacitor.dfy): the allow-list as a class with the in-memory `allowedIds` and the persisted `store`, whose methods are `load`, `add_account_id` and the `process_outcome` loop. The loop is proved against the fold `OutcomeRun`. `is_valid_receipt` only reads the allow-list, so it is the module-level predicate `IsValidReceipt` over that list.
- `Indexer` (indexer.dfy): `handle_blocks_message`, three nested loops proved against the fold `StreamRun`. `StreamRun` is also shown equal to "flatten the stream, keep the valid receipts, forward each one".
- `HttpServer` (http_server.dfy): the parameter checks of the admin endpoint and the allow-list change they allow.

The sink is modelled as the sequence of calls it receives, in order. Each
call is a `DomainEvent`, which gives the kind of call and its body fields.
The JSON parser is a parameter `parse: string -> Option<Json>`, where `None`
means a parse error.

Points where the code's behaviour is easy to misread, as the model states them:

- Only the mint and transfer calls carry the emitting contract (`contract_id`, the outcome's executor). The seven market calls carry the payload's `nft_contract_id` and nothing from the outcome.
- The marker is not only stripped from the front. The code tests `contains` and then removes every occurrence with `replace`. `RemoveMarkersSplice` shows that a marker anywhere in a line is removed, and that the text before it is kept.
- A missing or mistyped required field does not skip just that line. The code `unwrap()`s, so the consumer task panics. The model's `FieldError` keeps the calls already made for earlier `data` elements, and the run then stops (`halted`). `OutcomesHaltFinal`, `ShardsHaltFinal` and `StreamHaltFinal` show that nothing later in the stream is forwarded.
- `add_account_id` decides "already present" by querying the persisted collection, not memory. While memory mirrors the collection (`Mirrored`), adding an id keeps the list free of duplicates and makes the id visible at the next filter check. `SeededIdDuplicated` and `StoredButNotLoadedStaysOut` show, for every state where memory and collection differ on the id, the two ways this breaks. The program as wired starts from an empty seed and then calls `load`, which establishes the mirror (`LoadMirrors`).

## Model

| member | source | states |
|---|---|---|
| `Json.StringItems` | src/capacitor.rs:168-169 | the token-id array is read only when every element is a string, and the ids keep their array order |
| `Json.StringItemsRoundTrip` | src/capacitor.rs:168-169 | a list of ids written as a JSON array reads back as the same list |
| `Events.ParseTag` | src/capacitor.rs:164-324 | a string selects tag `t` exactly when it is `t`'s name; every other string, including "None", selects no branch |
| `Events.RouteIdentifiesKind` | src/database.rs:110-412 | two calls go to the same endpoint path exactly when they are of the same kind |
| `Decoder.HasMarker` | src/capacitor.rs:142 | the `contains` test, scanning from the left; `HasMarkerIffOccurs` proves it means "the marker occurs at some position" |
| `Decoder.HasMarkerIffOccurs` | src/capacitor.rs:142 | the marker test holds exactly when the marker occurs at some position of the line |
| `Decoder.RemoveMarkers` | src/capacitor.rs:144 | removal never lengthens a line, shortens every line that holds the marker, and leaves a line without it unchanged |
| `Decoder.RemoveLeadingMarker` | src/capacitor.rs:144 | a marker at the head of a line is dropped and the rest of the line is scanned |
| `Decoder.FirstIsNotMarker` | src/capacitor.rs:144 | marker-free text followed by the marker does not itself start with the marker, because the marker's `':'` occurs only at its end |
| `Decoder.RemoveMarkersSplice` | src/capacitor.rs:144 | for any marker-free text before it, a marker anywhere in the line is removed, not only a leading one, and the text before it is kept |
| `Decoder.LeadingMarkerStripped` | src/capacitor.rs:142-148 | the marker followed by marker-free text is parsed as that text |
| `Decoder.PayloadText` | src/capacitor.rs:141-148 | a line without the marker is parsed unchanged; a line with it is parsed shortened |
| `Decoder.MintItem` | src/capacitor.rs:166-177 | one `nft_mint` element: a mint by the executor when `owner_id` is a string and `token_ids` an array of strings, no call otherwise; `DataItemRoundTrip` proves it reads back what a contract writes |
| `Decoder.TransferItem` | src/capacitor.rs:181-194 | one `nft_transfer` element: a transfer by the executor when `token_ids` is an array of strings and both owner ids are strings, no call otherwise; `DataItemRoundTrip` proves it reads back what a contract writes |
| `Decoder.ListMarketOf` | src/capacitor.rs:196-221 | `add_market_data` params: a listing when `owner_id`, `nft_contract_id`, `ft_token_id` and `price` are strings and `approval_id` a u64; `token_id` defaults to "None", `started_at` and `ended_at` to "0", `is_auction` to false |
| `Decoder.UpdateMarketOf` | src/capacitor.rs:222-239 | `update_market_data` params: an update when `owner_id`, `nft_contract_id`, `ft_token_id` and `price` are strings; `token_id` defaults to "None" |
| `Decoder.DelistMarketOf` | src/capacitor.rs:240-253 | `delete_market_data` params: a delisting when `owner_id` and `nft_contract_id` are strings; `token_id` defaults to "None" |
| `Decoder.AddBidOf` | src/capacitor.rs:254-271 | `add_bid` params: a bid when `bidder_id`, `nft_contract_id`, `ft_token_id` and `amount` are strings, priced at `amount`; `token_id` defaults to "None" |
| `Decoder.AddOfferOf` | src/capacitor.rs:272-288 | `add_offer` params: an offer when `nft_contract_id`, `buyer_id`, `ft_token_id` and `price` are strings; `token_id` defaults to "None" |
| `Decoder.RemoveOfferOf` | src/capacitor.rs:289-301 | `delete_offer` params: a withdrawal when `nft_contract_id` and `buyer_id` are strings; `token_id` defaults to "None" |
| `Decoder.ResolvePurchaseOf` | src/capacitor.rs:302-323 | `resolve_purchase` params: a purchase when `owner_id`, `buyer_id`, `nft_contract_id`, `ft_token_id` and `price` are strings; `token_id` defaults to "None", `is_offer` to false |
| `Decoder.Expand` | src/capacitor.rs:165-195 | a `data` array gives one call per element, in order, when every element decodes; otherwise the calls for the elements before the first bad one, then a failure |
| `Decoder.DecodeParams` | src/capacitor.rs:196-323 | a `params` tag gives exactly one call of its own kind exactly when every required field is present and typed; `token_id` defaults to "None" |
| `Decoder.TagText` | src/capacitor.rs:159 | the `event` field when it is a string, "None" otherwise |
| `Decoder.DecodePayload` | src/capacitor.rs:159-324 | an unknown or missing tag gives no call; every call matches the tag; mint and transfer calls carry the outcome's executor; a `params` tag gives one call |
| `Decoder.DecodeLog` | src/capacitor.rs:140-159 | a parse failure is a `ParseError`; JSON null or an unknown tag gives no call; otherwise the payload is dispatched |
| `DecoderRoundTrip.ParseTagName` | src/capacitor.rs:164-324 | every tag's name selects that tag |
| `DecoderRoundTrip.DataItemRoundTrip` | src/capacitor.rs:166-169 | a mint or transfer element written by a contract decodes to that mint or transfer |
| `DecoderRoundTrip.ListMarketRoundTrip` | src/capacitor.rs:196-221 | `add_market_data` params written from a listing decode to that listing |
| `DecoderRoundTrip.UpdateMarketRoundTrip` | src/capacitor.rs:222-239 | `update_market_data` params decode to the update they describe |
| `DecoderRoundTrip.DelistMarketRoundTrip` | src/capacitor.rs:240-253 | `delete_market_data` params decode to the delisting they describe |
| `DecoderRoundTrip.AddBidRoundTrip` | src/capacitor.rs:254-271 | `add_bid` params decode to the bid they describe |
| `DecoderRoundTrip.AddOfferRoundTrip` | src/capacitor.rs:272-288 | `add_offer` params decode to the offer they describe |
| `DecoderRoundTrip.RemoveOfferRoundTrip` | src/capacitor.rs:289-301 | `delete_offer` params decode to the withdrawal they describe |
| `DecoderRoundTrip.ResolvePurchaseRoundTrip` | src/capacitor.rs:302-323 | `resolve_purchase` params decode to the purchase they describe |
| `DecoderRoundTrip.DecodeParamsRoundTrip` | src/capacitor.rs:196-323 | every market event, written as `params`, decodes to itself |
| `DecoderRoundTrip.BatchRoundTrip` | src/capacitor.rs:163-195 | a batch of mints or transfers of one contract decodes to that batch, in order |
| `DecoderRoundTrip.PayloadRoundTrip` | src/capacitor.rs:159-324 | every event, logged as its contract logs it, decodes to exactly that one event |
| `DecoderRoundTrip.LogRoundTrip` | src/capacitor.rs:140-159 | with or without the leading marker, a line whose text parses to an event's payload decodes to that event |
| `DecoderRoundTrip.AddBidExample` | src/capacitor.rs:254-271 | a concrete `add_bid` payload gives one bid whose price is the logged `amount` |
| `DecoderRoundTrip.ListMarketDefaults` | src/capacitor.rs:196-207 | without the optional fields a listing gets token "None", start "0", end "0" and no auction |
| `DecoderRoundTrip.ResolvePurchaseDefault` | src/capacitor.rs:307 | without a boolean `is_offer` a purchase is not an offer |
| `DecoderRoundTrip.AddBidPriceIsAmount` | src/capacitor.rs:261 | a bid's price is its `amount` field |
| `Capacitor.Merge` | src/capacitor.rs:92-99 | loading keeps the ids already in memory, in order, as a prefix; it appends only ids not already there; afterwards memory holds exactly the old ids plus the persisted ones; a duplicate-free list stays duplicate-free |
| `Capacitor.MergeKnownOnly` | src/capacitor.rs:96 | loading a collection whose ids are all known changes nothing |
| `Capacitor.MergeIdempotent` | src/capacitor.rs:89-102 | loading the same collection twice is the same as loading it once |
| `Capacitor.LoadMirrors` | src/capacitor.rs:89-102 | a duplicate-free seed of persisted ids, after loading, mirrors the collection |
| `Capacitor.AddAccount` | src/capacitor.rs:104-123 | the effect of an add on memory and collection: nothing when the collection has a record of the id, else one record inserted and the id appended; its properties are the lemmas below |
| `Capacitor.AddAccountIdempotent` | src/capacitor.rs:104-123 | in every state, adding the same id a second time changes nothing |
| `Capacitor.AddAccountKeepsMirrored` | src/capacitor.rs:104-123 | adding an account keeps memory mirroring the collection and free of duplicates |
| `Capacitor.AddAccountTwice` | src/capacitor.rs:104-123 | while memory mirrors the collection and the collection holds at most one record of the id, an add leaves exactly one record and one in-memory entry for it |
| `Capacitor.TwoAddsLeaveOne` | src/capacitor.rs:104-123 | while memory mirrors a collection without a record of the id, two adds of it leave exactly one record and one in-memory entry |
| `Capacitor.NoDupCountsOnce` | src/capacitor.rs:96-97 | in a duplicate-free list an id occurs once |
| `Capacitor.SeededIdDuplicated` | src/capacitor.rs:110-122 | for every state, an id in memory but not in the collection is appended once more: its in-memory count grows by one and memory is no longer duplicate-free |
| `Capacitor.SeededIdDuplicatedExample` | src/capacitor.rs:110-122 | the seed `["a"]` over an empty collection becomes `["a", "a"]` after adding "a" |
| `Capacitor.StoredButNotLoadedStaysOut` | src/capacitor.rs:110-118 | for every state, an id in the collection but not in memory stays out of memory after an add |
| `Capacitor.StoredButNotLoadedExample` | src/capacitor.rs:110-118 | an empty memory over the collection `["a"]` stays empty after adding "a" |
| `Capacitor.IsValidReceipt` | src/capacitor.rs:125-133 | the receipt filter over the allow-list; `UnsuccessfulRejected` and `SuccessfulByMembership` state it: accepted exactly when the status is SuccessValue or SuccessReceiptId and the executor is listed |
| `Capacitor.UnsuccessfulRejected` | src/capacitor.rs:126-130 | a failed or unknown outcome is rejected whatever the allow-list holds |
| `Capacitor.SuccessfulByMembership` | src/capacitor.rs:126-132 | a successful outcome is accepted exactly when its executor is allow-listed |
| `Capacitor.AddedAccountAccepted` | src/capacitor.rs:121-132 | while memory mirrors the collection, an account just added is accepted by the next filter check |
| `Capacitor.LogRun` | src/capacitor.rs:149-324 | one line's effect: no call for a parse error, JSON null or an unknown tag; the decoded calls otherwise; on a field panic, the calls already made and a stop |
| `Capacitor.OutcomeRun` | src/capacitor.rs:140-326 | an outcome's lines taken in order, stopping at the first panic; the specification `ProcessOutcome` is proved against |
| `Capacitor.ThenAssociative` | src/capacitor.rs:140 | running logs in sequence does not depend on grouping |
| `Capacitor.ThenIdle` | src/capacitor.rs:151-157 | a step that makes no call changes nothing in a sequence |
| `Capacitor.OutcomeRunAppend` | src/capacitor.rs:140-326 | the calls for two runs of logs are the first run's calls followed, unless it panicked, by the second's |
| `Capacitor.OutcomeRunSnoc` | src/capacitor.rs:140-157 | one more log line adds its own calls after those of the lines before it |
| `Capacitor.HaltedPrefixIsFinal` | src/capacitor.rs:164-324 | once a line has panicked, the lines after it change nothing |
| `Capacitor.OutcomeHaltsIffFieldError` | src/capacitor.rs:140-326 | an outcome's processing panics exactly when one of its lines has a missing or mistyped required field |
| `Capacitor.SkippedLineIsInvisible` | src/capacitor.rs:149-157 | an unparsable, null or untagged line between other lines changes neither their calls nor their order |
| `Capacitor.Capacitor.constructor` | src/capacitor.rs:81-87 | memory starts as the given ids over the given collection |
| `Capacitor.Capacitor.Load` | src/capacitor.rs:89-102 | memory becomes the merge of itself with the persisted ids; the collection is untouched |
| `Capacitor.Capacitor.AddAccountId` | src/capacitor.rs:104-123 | nothing changes if the collection has a record of the id; otherwise one record is inserted and the id appended |
| `Capacitor.Capacitor.ProcessOutcome` | src/capacitor.rs:135-327 | the calls made for an outcome's logs, in line order, and whether a panic cut them short, are those of `OutcomeRun` |
| `Indexer.OutcomeStep` | src/indexer.rs:14-18 | one outcome: the run of its logs when it is a valid receipt, no call otherwise |
| `Indexer.OutcomesRun` | src/indexer.rs:13-19 | a shard's outcomes taken in order, stopping at the first panic |
| `Indexer.ShardsRun` | src/indexer.rs:12-21 | a message's shards taken in order, stopping at the first panic |
| `Indexer.StreamRun` | src/indexer.rs:8-22 | the stream's messages taken in order, stopping at the first panic; the specification `HandleBlocksMessage` is proved against |
| `Indexer.OutcomesRunAppend` | src/indexer.rs:13-19 | outcome sequences compose: the calls for `a + b` are `a`'s, then, unless halted, `b`'s |
| `Indexer.ShardsRunAppend` | src/indexer.rs:12-21 | shard sequences compose in the same way |
| `Indexer.StreamRunAppend` | src/indexer.rs:8-22 | message sequences compose in the same way |
| `Indexer.OutcomesRunSnoc` | src/indexer.rs:13-19 | one more outcome adds its own calls after those already made |
| `Indexer.ShardsRunSnoc` | src/indexer.rs:12-21 | one more shard adds its outcomes' calls after those already made |
| `Indexer.StreamRunSnoc` | src/indexer.rs:8-22 | one more message adds its shards' calls after those already made |
| `Indexer.OutcomesHaltFinal` | src/indexer.rs:13-19 | once an outcome has panicked, the outcomes after it in the shard forward nothing |
| `Indexer.ShardsHaltFinal` | src/indexer.rs:12-21 | once a shard has panicked, the shards after it in the message forward nothing |
| `Indexer.StreamHaltFinal` | src/indexer.rs:8-22 | once a message has panicked, no later message is forwarded |
| `Indexer.Eligible` | src/indexer.rs:14-16 | the kept outcomes are exactly the valid receipts of the input |
| `Indexer.OutcomesRunFiltered` | src/indexer.rs:13-19 | a shard's calls are those of forwarding exactly its valid receipts, in order |
| `Indexer.ShardsRunFlat` | src/indexer.rs:12-21 | a message's calls are those of its outcomes taken shard after shard |
| `Indexer.StreamRunFlat` | src/indexer.rs:8-22 | the stream's calls are those of all its outcomes in message, shard and outcome order |
| `Indexer.StreamIsFilterThenForward` | src/indexer.rs:8-22 | the stream's calls are the in-order concatenation of the calls of its valid receipts |
| `Indexer.NoValidReceiptNoCalls` | src/indexer.rs:14-16 | if no outcome is a valid receipt, no call is made whatever the logs say |
| `Indexer.NothingEligible` | src/indexer.rs:14-16 | when no outcome is valid none is kept |
| `Indexer.AddBidEndToEnd` | src/indexer.rs:12-18 | an allow-listed market's successful outcome with one marked `add_bid` log makes exactly one bid call, with the logged fields |
| `Indexer.HandleBlocksMessage` | src/indexer.rs:7-23 | the calls made, in order, and whether a panic ended the consumer, are those of `StreamRun` over the allow-list as read |
| `HttpServer.AddedBody` | src/http_server.rs:32 | the success text names the added account |
| `HttpServer.Validate` | src/http_server.rs:16-28 | the request is accepted exactly when `token` is present and correct and `account_id` is present; a wrong token is Forbidden whether or not `account_id` is given; a missing parameter is BadRequest |
| `HttpServer.HandlePostAddAccount` | src/http_server.rs:12-33 | a rejected request changes neither memory nor collection; an accepted one answers Ok naming the account and adds it exactly as `add_account_id` does |

## Left out

- JSON text parsing (serde_json) is a parameter of the decoder, not a definition. Numbers are either integral (`JInt`, read by `as_u64` only in the u64 range) or opaque floats. Objects are maps, so the parser decides duplicate keys.
- The persisted collection (MongoDB) is the `store` field: one account id per record, in cursor order. Failing queries or inserts, and records without a string `account_id`, all panic in the source. None of them is modelled.
- The HTTP sink (src/database.rs) is recorded as the sequence of calls it receives. The signature header and API root are constants of a run and are not recorded. The endpoint path of each call is `Events.Route`. The sink's responses never affect control flow and are not modelled.
- Concurrency is not modelled: the `Arc<Mutex<Capacitor>>` shared by the consumer and the admin endpoint, and the lock held across the sink's awaited calls. The source locks the capacitor and reads the allow-list anew for each message. `HandleBlocksMessage` takes one snapshot of the allow-list when the consumer starts, and that snapshot serves the whole stream. So in the model, an account added between two messages is not seen by the later message.
- After a field panic, the mutex is poisoned and every later admin request panics too. The model only stops the consumer (`halted`).
- The stream is the finite sequence of messages received before it closes. "Never returns while the stream is open" is a liveness property and is not stated.
- The admin query string is the decoded map of its parameters. Repeated keys and percent-decoding are left out. The configured `API_TOKEN` is a parameter. The route is `GET /config/add_account`.
- Logging (`println!`), the unused `view_client` argument, the NFT metadata structs, and bootstrap and configuration (src/main.rs, src/configs.rs) are not modelled.
- Strings are sequences of characters. The marker is ASCII, so removing it character by character agrees with Rust's byte-wise `replace`.
