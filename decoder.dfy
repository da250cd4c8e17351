/**
 * The per-log decoder of `Capacitor::process_outcome`: strip the
 * "EVENT_JSON:" marker, parse, read the `event` tag, and turn the payload
 * into the sink calls the tag calls for.
 *
 * The reference `unwrap()`s every required field, so a missing or mistyped
 * one panics. Here that is the explicit outcome `FieldError`, carrying the
 * calls already issued for earlier elements of a `data` array before the
 * panic.
 */
module Decoder {
  import opened Wrappers
  import opened Json
  import opened Events

  const Marker: string := "EVENT_JSON:"

  // ---------------------------------------------------------------------
  // The marker
  // ---------------------------------------------------------------------

  /** `log.contains("EVENT_JSON:")`, scanning from the left. */
  predicate HasMarker(s: string)
    decreases |s|
  {
    |s| >= |Marker| && (s[..|Marker|] == Marker || HasMarker(s[1..]))
  }

  /** The marker occurs in `s` starting at position `i`. */
  ghost predicate OccursAt(s: string, i: int)
  {
    0 <= i && i + |Marker| <= |s| && s[i..i + |Marker|] == Marker
  }

  /** `HasMarker` agrees with the positional definition of "contains". */
  lemma {:induction false} HasMarkerIffOccurs(s: string)
    ensures HasMarker(s) <==> exists i :: OccursAt(s, i)
    decreases |s|
  {
    if |s| >= |Marker| {
      HasMarkerIffOccurs(s[1..]);
      if HasMarker(s) {
        if s[..|Marker|] == Marker {
          assert OccursAt(s, 0);
        } else {
          var i :| OccursAt(s[1..], i);
          assert s[1..][i..i + |Marker|] == s[i + 1..i + 1 + |Marker|];
          assert OccursAt(s, i + 1);
        }
      }
      if exists i :: OccursAt(s, i) {
        var i :| OccursAt(s, i);
        if i > 0 {
          assert s[1..][i - 1..i - 1 + |Marker|] == s[i..i + |Marker|];
          assert OccursAt(s[1..], i - 1);
        }
      }
    }
  }

  /**
   * `str::replace("EVENT_JSON:", "")`: scanning from the left, every
   * non-overlapping occurrence of the marker is dropped.
   */
  function RemoveMarkers(s: string): (r: string)
    ensures |r| <= |s|
    ensures HasMarker(s) ==> |r| < |s|
    ensures !HasMarker(s) ==> r == s
    decreases |s|
  {
    if |s| < |Marker| then s
    else if s[..|Marker|] == Marker then RemoveMarkers(s[|Marker|..])
    else [s[0]] + RemoveMarkers(s[1..])
  }

  /** The marker's last character, `':'`, occurs nowhere else in it. */
  lemma ColonOnlyAtEnd()
    ensures Marker[|Marker| - 1] == ':'
    ensures forall k :: 0 <= k < |Marker| - 1 ==> Marker[k] != ':'
  {
  }

  /**
   * Text without the marker, followed by the marker, does not start with the
   * marker: a match starting inside the text would need its `':'` before the
   * appended marker's only one.
   */
  lemma FirstIsNotMarker(a: string, b: string)
    requires a != [] && !HasMarker(a)
    ensures (a + Marker + b)[..|Marker|] != Marker
  {
    var s := a + Marker + b;
    if |a| >= |Marker| {
      assert s[..|Marker|] == a[..|Marker|];
    } else {
      ColonOnlyAtEnd();
      assert s[|Marker| - 1] == Marker[|Marker| - 1 - |a|];
      assert s[..|Marker|][|Marker| - 1] != Marker[|Marker| - 1];
    }
  }

  /** A marker at the head of a line is dropped and the rest is scanned. */
  lemma RemoveLeadingMarker(b: string)
    ensures RemoveMarkers(Marker + b) == RemoveMarkers(b)
  {
    var s := Marker + b;
    assert s[..|Marker|] == Marker;
    assert s[|Marker|..] == b;
  }

  /** One step of the splice: a non-marker head is kept in front of what the tail becomes. */
  lemma SpliceStep(a: string, b: string)
    requires a != [] && (a + Marker + b)[..|Marker|] != Marker
    requires RemoveMarkers(a[1..] + Marker + b) == a[1..] + RemoveMarkers(b)
    ensures RemoveMarkers(a + Marker + b) == a + RemoveMarkers(b)
  {
    var s := a + Marker + b;
    HeadTail(a, Marker, b);
    KeepFirst(s);
    Regroup(a, RemoveMarkers(b));
  }

  lemma HeadTail(a: string, m: string, b: string)
    requires a != []
    ensures |a + m + b| >= |m| && (a + m + b)[0] == a[0] && (a + m + b)[1..] == a[1..] + m + b
  {
  }

  lemma Regroup(a: string, r: string)
    requires a != []
    ensures [a[0]] + (a[1..] + r) == a + r
  {
    assert [a[0]] + a[1..] == a;
  }

  /** A head that is not a marker is kept and the rest is scanned. */
  lemma KeepFirst(s: string)
    requires |s| >= |Marker| && s[..|Marker|] != Marker
    ensures RemoveMarkers(s) == [s[0]] + RemoveMarkers(s[1..])
  {
  }

  /**
   * Replacement is not limited to a leading marker: a marker in the middle of
   * a line is removed too, and the text before it is kept as it is.
   */
  lemma {:induction false} RemoveMarkersSplice(a: string, b: string)
    requires !HasMarker(a)
    ensures RemoveMarkers(a + Marker + b) == a + RemoveMarkers(b)
    decreases |a|
  {
    if a == [] {
      assert a + Marker + b == Marker + b;
      RemoveLeadingMarker(b);
    } else {
      FirstIsNotMarker(a, b);
      assert !HasMarker(a[1..]);
      RemoveMarkersSplice(a[1..], b);
      SpliceStep(a, b);
    }
  }

  /** A line made of the marker and marker-free text is parsed as that text. */
  lemma LeadingMarkerStripped(text: string)
    requires !HasMarker(text)
    ensures PayloadText(Marker + text) == text
  {
    assert HasMarker(Marker + text) by {
      assert (Marker + text)[..|Marker|] == Marker;
    }
    RemoveMarkersSplice([], text);
    assert [] + Marker + text == Marker + text;
  }

  /** The text handed to the JSON parser: the line with every marker removed, or the line itself. */
  function PayloadText(log: string): (r: string)
    ensures !HasMarker(log) ==> r == log
    ensures HasMarker(log) ==> |r| < |log|
  {
    if HasMarker(log) then RemoveMarkers(log) else log
  }

  // ---------------------------------------------------------------------
  // Decoding results
  // ---------------------------------------------------------------------

  /**
   * What one log line amounts to: the sink calls it produces; no call at all
   * (unknown tag, or the payload is JSON null); a parse failure; or a panic
   * on a required field, after the calls in `emitted` were already made.
   */
  datatype Decoded =
    | Produced(events: seq<DomainEvent>)
    | NoMatch
    | ParseError
    | FieldError(emitted: seq<DomainEvent>)

  /** `v[key].as_str()`. */
  function Str(v: Json, key: string): Option<string>
  {
    AsStr(Get(v, key))
  }

  // ---------------------------------------------------------------------
  // `data`-array tags
  // ---------------------------------------------------------------------

  /** One element of an `nft_mint` log's `data` array. */
  function MintItem(contractId: string, item: Json): Option<DomainEvent>
  {
    var owner := Str(item, "owner_id");
    var values := AsArray(Get(item, "token_ids"));
    if owner.None? || values.None? then None
    else
      var ids := StringItems(values.value);
      if ids.None? then None else Some(Mint(contractId, owner.value, ids.value))
  }

  /** One element of an `nft_transfer` log's `data` array. */
  function TransferItem(contractId: string, item: Json): Option<DomainEvent>
  {
    var values := AsArray(Get(item, "token_ids"));
    var oldOwner := Str(item, "old_owner_id");
    var newOwner := Str(item, "new_owner_id");
    if values.None? || oldOwner.None? || newOwner.None? then None
    else
      var ids := StringItems(values.value);
      if ids.None? then None else Some(Transfer(contractId, oldOwner.value, newOwner.value, ids.value))
  }

  function DataItem(t: Tag, contractId: string, item: Json): Option<DomainEvent>
    requires IsDataTag(t)
  {
    if t == NftMint then MintItem(contractId, item) else TransferItem(contractId, item)
  }

  /**
   * The `for paras in params` loop: one call per element, in array order,
   * until an element lacks a required field; the calls before it have
   * already been made when the panic happens.
   */
  function Expand(items: seq<Json>, decodeItem: Json -> Option<DomainEvent>): (r: Decoded)
    ensures r.Produced? || r.FieldError?
    ensures r.Produced? <==> forall i :: 0 <= i < |items| ==> decodeItem(items[i]).Some?
    ensures r.Produced? ==>
              |r.events| == |items| && forall i :: 0 <= i < |items| ==> decodeItem(items[i]) == Some(r.events[i])
    ensures r.FieldError? ==>
              |r.emitted| < |items| && decodeItem(items[|r.emitted|]).None? &&
              forall i :: 0 <= i < |r.emitted| ==> decodeItem(items[i]) == Some(r.emitted[i])
  {
    if items == [] then Produced([])
    else match decodeItem(items[0])
      case None => FieldError([])
      case Some(e) =>
        match Expand(items[1..], decodeItem)
        case Produced(es) => Produced([e] + es)
        case FieldError(es) => FieldError([e] + es)
  }

  // ---------------------------------------------------------------------
  // `params`-object tags
  // ---------------------------------------------------------------------

  function ListMarketOf(p: Json): Option<DomainEvent>
  {
    var owner := Str(p, "owner_id");
    var approval := AsU64(Get(p, "approval_id"));
    var nftContract := Str(p, "nft_contract_id");
    var ft := Str(p, "ft_token_id");
    var price := Str(p, "price");
    if owner.None? || approval.None? || nftContract.None? || ft.None? || price.None? then None
    else Some(ListMarket(StrOr(p, "token_id", "None"), nftContract.value, owner.value, approval.value,
                         ft.value, price.value, StrOr(p, "started_at", "0"), StrOr(p, "ended_at", "0"),
                         BoolOr(p, "is_auction", false)))
  }

  function UpdateMarketOf(p: Json): Option<DomainEvent>
  {
    var owner := Str(p, "owner_id");
    var nftContract := Str(p, "nft_contract_id");
    var ft := Str(p, "ft_token_id");
    var price := Str(p, "price");
    if owner.None? || nftContract.None? || ft.None? || price.None? then None
    else Some(UpdateMarket(StrOr(p, "token_id", "None"), nftContract.value, owner.value, ft.value, price.value))
  }

  function DelistMarketOf(p: Json): Option<DomainEvent>
  {
    var owner := Str(p, "owner_id");
    var nftContract := Str(p, "nft_contract_id");
    if owner.None? || nftContract.None? then None
    else Some(DelistMarket(StrOr(p, "token_id", "None"), nftContract.value, owner.value))
  }

  /** An `add_bid` log names its price `amount`. */
  function AddBidOf(p: Json): Option<DomainEvent>
  {
    var bidder := Str(p, "bidder_id");
    var nftContract := Str(p, "nft_contract_id");
    var ft := Str(p, "ft_token_id");
    var amount := Str(p, "amount");
    if bidder.None? || nftContract.None? || ft.None? || amount.None? then None
    else Some(AddBid(StrOr(p, "token_id", "None"), nftContract.value, bidder.value, ft.value, amount.value))
  }

  function AddOfferOf(p: Json): Option<DomainEvent>
  {
    var nftContract := Str(p, "nft_contract_id");
    var buyer := Str(p, "buyer_id");
    var ft := Str(p, "ft_token_id");
    var price := Str(p, "price");
    if nftContract.None? || buyer.None? || ft.None? || price.None? then None
    else Some(AddOffer(StrOr(p, "token_id", "None"), nftContract.value, buyer.value, ft.value, price.value))
  }

  function RemoveOfferOf(p: Json): Option<DomainEvent>
  {
    var nftContract := Str(p, "nft_contract_id");
    var buyer := Str(p, "buyer_id");
    if nftContract.None? || buyer.None? then None
    else Some(RemoveOffer(StrOr(p, "token_id", "None"), nftContract.value, buyer.value))
  }

  function ResolvePurchaseOf(p: Json): Option<DomainEvent>
  {
    var owner := Str(p, "owner_id");
    var buyer := Str(p, "buyer_id");
    var nftContract := Str(p, "nft_contract_id");
    var ft := Str(p, "ft_token_id");
    var price := Str(p, "price");
    if owner.None? || buyer.None? || nftContract.None? || ft.None? || price.None? then None
    else Some(ResolvePurchase(StrOr(p, "token_id", "None"), nftContract.value, owner.value, ft.value,
                              price.value, buyer.value, BoolOr(p, "is_offer", false)))
  }

  /** The string fields each `params` tag cannot do without (`add_market_data` also needs a u64 `approval_id`). */
  function RequiredStrings(t: Tag): set<string>
    requires !IsDataTag(t)
  {
    match t
    case AddMarketData => {"owner_id", "nft_contract_id", "ft_token_id", "price"}
    case UpdateMarketData => {"owner_id", "nft_contract_id", "ft_token_id", "price"}
    case DeleteMarketData => {"owner_id", "nft_contract_id"}
    case AddBidTag => {"bidder_id", "nft_contract_id", "ft_token_id", "amount"}
    case AddOfferTag => {"nft_contract_id", "buyer_id", "ft_token_id", "price"}
    case DeleteOffer => {"nft_contract_id", "buyer_id"}
    case ResolvePurchaseTag => {"owner_id", "buyer_id", "nft_contract_id", "ft_token_id", "price"}
  }

  predicate HasRequired(t: Tag, p: Json)
    requires !IsDataTag(t)
  {
    && (forall k :: k in RequiredStrings(t) ==> Str(p, k).Some?)
    && (t == AddMarketData ==> AsU64(Get(p, "approval_id")).Some?)
  }

  /**
   * The seven `params` branches: exactly one call, made exactly when every
   * required field is present with the right type; `token_id` defaults to
   * "None".
   */
  function DecodeParams(t: Tag, p: Json): (r: Option<DomainEvent>)
    requires !IsDataTag(t)
    ensures r.Some? <==> HasRequired(t, p)
    ensures r.Some? ==> TagOf(r.value) == t && r.value.tokenId == StrOr(p, "token_id", "None")
  {
    match t
    case AddMarketData => ListMarketOf(p)
    case UpdateMarketData => UpdateMarketOf(p)
    case DeleteMarketData => DelistMarketOf(p)
    case AddBidTag => AddBidOf(p)
    case AddOfferTag => AddOfferOf(p)
    case DeleteOffer => RemoveOfferOf(p)
    case ResolvePurchaseTag => ResolvePurchaseOf(p)
  }

  // ---------------------------------------------------------------------
  // One log line
  // ---------------------------------------------------------------------

  /** The tag string of a payload: `event` when it is a string, "None" otherwise. */
  function TagText(v: Json): string
  {
    StrOr(v, "event", "None")
  }

  /** The tag dispatch of one parsed, non-null payload emitted by contract `contractId`. */
  function DecodePayload(contractId: string, v: Json): (r: Decoded)
    ensures !r.ParseError?
    ensures r.NoMatch? <==> ParseTag(TagText(v)).None?
    ensures r.Produced? ==> forall e :: e in r.events ==> TagName(TagOf(e)) == TagText(v)
    ensures r.Produced? ==> forall e :: e in r.events && (e.Mint? || e.Transfer?) ==> e.contractId == contractId
    ensures r.Produced? && !IsDataTag(ParseTag(TagText(v)).value) ==> |r.events| == 1
  {
    match ParseTag(TagText(v))
    case None => NoMatch
    case Some(t) =>
      if IsDataTag(t) then
        match AsArray(Get(v, "data"))
        case None => FieldError([])
        case Some(items) => Expand(items, item => DataItem(t, contractId, item))
      else
        match DecodeParams(t, Get(v, "params"))
        case None => FieldError([])
        case Some(e) => Produced([e])
  }

  /** One iteration of the `for log in &outcome.logs` loop, before any sink call. */
  function DecodeLog(parse: string -> Option<Json>, contractId: string, log: string): (r: Decoded)
    ensures r.ParseError? <==> parse(PayloadText(log)).None?
    ensures r.NoMatch? <==> parse(PayloadText(log)).Some? &&
                            (parse(PayloadText(log)).value == JNull ||
                             ParseTag(TagText(parse(PayloadText(log)).value)).None?)
  {
    match parse(PayloadText(log))
    case None => ParseError
    case Some(v) => if v == JNull then NoMatch else DecodePayload(contractId, v)
  }
}

/**
 * The logs a marketplace or NFT contract writes, as JSON, and the proof that
 * the decoder reads back exactly the events they describe.
 */
module DecoderRoundTrip {
  import opened Wrappers
  import opened Json
  import opened Events
  import opened Decoder

  /** One element of a `data` array describing a mint or a transfer. */
  function ItemJson(e: DomainEvent): Json
    requires IsDataTag(TagOf(e))
  {
    if e.Mint? then
      JObject(map["owner_id" := JString(e.ownerId), "token_ids" := JArray(StringsJson(e.tokenIds))])
    else
      JObject(map["old_owner_id" := JString(e.oldOwnerId), "new_owner_id" := JString(e.newOwnerId),
                  "token_ids" := JArray(StringsJson(e.tokenIds))])
  }

  /** The `params` object of a market event, every optional field written out. */
  function ParamsJson(e: DomainEvent): Json
    requires !IsDataTag(TagOf(e))
  {
    match e
    case ListMarket(tok, nft, owner, approval, ft, price, started, ended, auction) =>
      JObject(map["token_id" := JString(tok), "nft_contract_id" := JString(nft), "owner_id" := JString(owner),
                  "approval_id" := JInt(approval), "ft_token_id" := JString(ft), "price" := JString(price),
                  "started_at" := JString(started), "ended_at" := JString(ended), "is_auction" := JBool(auction)])
    case UpdateMarket(tok, nft, owner, ft, price) =>
      JObject(map["token_id" := JString(tok), "nft_contract_id" := JString(nft), "owner_id" := JString(owner),
                  "ft_token_id" := JString(ft), "price" := JString(price)])
    case DelistMarket(tok, nft, owner) =>
      JObject(map["token_id" := JString(tok), "nft_contract_id" := JString(nft), "owner_id" := JString(owner)])
    case AddBid(tok, nft, bidder, ft, price) =>
      JObject(map["token_id" := JString(tok), "nft_contract_id" := JString(nft), "bidder_id" := JString(bidder),
                  "ft_token_id" := JString(ft), "amount" := JString(price)])
    case AddOffer(tok, nft, buyer, ft, price) =>
      JObject(map["token_id" := JString(tok), "nft_contract_id" := JString(nft), "buyer_id" := JString(buyer),
                  "ft_token_id" := JString(ft), "price" := JString(price)])
    case RemoveOffer(tok, nft, buyer) =>
      JObject(map["token_id" := JString(tok), "nft_contract_id" := JString(nft), "buyer_id" := JString(buyer)])
    case ResolvePurchase(tok, nft, owner, ft, price, buyer, isOffer) =>
      JObject(map["token_id" := JString(tok), "nft_contract_id" := JString(nft), "owner_id" := JString(owner),
                  "ft_token_id" := JString(ft), "price" := JString(price), "buyer_id" := JString(buyer),
                  "is_offer" := JBool(isOffer)])
  }

  /** A `data`-tag payload listing the given mints or transfers. */
  function BatchJson(t: Tag, es: seq<DomainEvent>): Json
    requires IsDataTag(t) && forall i :: 0 <= i < |es| ==> TagOf(es[i]) == t
  {
    JObject(map["event" := JString(TagName(t)),
                "data" := JArray(seq(|es|, i requires 0 <= i < |es| => ItemJson(es[i])))])
  }

  /** The payload a contract logs for one event. */
  function EventJson(e: DomainEvent): Json
  {
    if IsDataTag(TagOf(e)) then BatchJson(TagOf(e), [e])
    else JObject(map["event" := JString(TagName(TagOf(e))), "params" := ParamsJson(e)])
  }

  lemma ParseTagName(t: Tag)
    ensures ParseTag(TagName(t)) == Some(t)
  {
  }

  lemma {:induction false} DataItemRoundTrip(contractId: string, e: DomainEvent)
    requires (e.Mint? || e.Transfer?) && e.contractId == contractId
    ensures DataItem(TagOf(e), contractId, ItemJson(e)) == Some(e)
  {
    StringItemsRoundTrip(e.tokenIds);
  }

  lemma ListMarketRoundTrip(e: DomainEvent)
    requires e.ListMarket? && e.approvalId <= U64Max
    ensures ListMarketOf(ParamsJson(e)) == Some(e)
  {
    var p := ParamsJson(e);
    assert Str(p, "owner_id") == Some(e.ownerId);
    assert AsU64(Get(p, "approval_id")) == Some(e.approvalId);
    assert Str(p, "nft_contract_id") == Some(e.nftContractId);
    assert Str(p, "ft_token_id") == Some(e.ftTokenId);
    assert Str(p, "price") == Some(e.price);
    assert StrOr(p, "token_id", "None") == e.tokenId;
    assert StrOr(p, "started_at", "0") == e.startedAt;
    assert StrOr(p, "ended_at", "0") == e.endedAt;
    assert BoolOr(p, "is_auction", false) == e.isAuction;
  }

  lemma UpdateMarketRoundTrip(e: DomainEvent)
    requires e.UpdateMarket?
    ensures UpdateMarketOf(ParamsJson(e)) == Some(e)
  {
    var p := ParamsJson(e);
    assert Str(p, "owner_id") == Some(e.ownerId);
    assert Str(p, "nft_contract_id") == Some(e.nftContractId);
    assert Str(p, "ft_token_id") == Some(e.ftTokenId);
    assert Str(p, "price") == Some(e.price);
    assert StrOr(p, "token_id", "None") == e.tokenId;
  }

  lemma DelistMarketRoundTrip(e: DomainEvent)
    requires e.DelistMarket?
    ensures DelistMarketOf(ParamsJson(e)) == Some(e)
  {
    var p := ParamsJson(e);
    assert Str(p, "owner_id") == Some(e.ownerId);
    assert Str(p, "nft_contract_id") == Some(e.nftContractId);
    assert StrOr(p, "token_id", "None") == e.tokenId;
  }

  lemma AddBidRoundTrip(e: DomainEvent)
    requires e.AddBid?
    ensures AddBidOf(ParamsJson(e)) == Some(e)
  {
    var p := ParamsJson(e);
    assert Str(p, "bidder_id") == Some(e.bidderId);
    assert Str(p, "nft_contract_id") == Some(e.nftContractId);
    assert Str(p, "ft_token_id") == Some(e.ftTokenId);
    assert Str(p, "amount") == Some(e.price);
    assert StrOr(p, "token_id", "None") == e.tokenId;
  }

  lemma AddOfferRoundTrip(e: DomainEvent)
    requires e.AddOffer?
    ensures AddOfferOf(ParamsJson(e)) == Some(e)
  {
    var p := ParamsJson(e);
    assert Str(p, "nft_contract_id") == Some(e.nftContractId);
    assert Str(p, "buyer_id") == Some(e.buyerId);
    assert Str(p, "ft_token_id") == Some(e.ftTokenId);
    assert Str(p, "price") == Some(e.price);
    assert StrOr(p, "token_id", "None") == e.tokenId;
  }

  lemma RemoveOfferRoundTrip(e: DomainEvent)
    requires e.RemoveOffer?
    ensures RemoveOfferOf(ParamsJson(e)) == Some(e)
  {
    var p := ParamsJson(e);
    assert Str(p, "nft_contract_id") == Some(e.nftContractId);
    assert Str(p, "buyer_id") == Some(e.buyerId);
    assert StrOr(p, "token_id", "None") == e.tokenId;
  }

  lemma ResolvePurchaseRoundTrip(e: DomainEvent)
    requires e.ResolvePurchase?
    ensures ResolvePurchaseOf(ParamsJson(e)) == Some(e)
  {
    var p := ParamsJson(e);
    assert Str(p, "owner_id") == Some(e.ownerId);
    assert Str(p, "buyer_id") == Some(e.buyerId);
    assert Str(p, "nft_contract_id") == Some(e.nftContractId);
    assert Str(p, "ft_token_id") == Some(e.ftTokenId);
    assert Str(p, "price") == Some(e.price);
    assert StrOr(p, "token_id", "None") == e.tokenId;
    assert BoolOr(p, "is_offer", false) == e.isOffer;
  }

  lemma DecodeParamsRoundTrip(e: DomainEvent)
    requires !IsDataTag(TagOf(e))
    requires e.ListMarket? ==> e.approvalId <= U64Max
    ensures DecodeParams(TagOf(e), ParamsJson(e)) == Some(e)
  {
    match e
    case ListMarket(_, _, _, _, _, _, _, _, _) => ListMarketRoundTrip(e);
    case UpdateMarket(_, _, _, _, _) => UpdateMarketRoundTrip(e);
    case DelistMarket(_, _, _) => DelistMarketRoundTrip(e);
    case AddBid(_, _, _, _, _) => AddBidRoundTrip(e);
    case AddOffer(_, _, _, _, _) => AddOfferRoundTrip(e);
    case RemoveOffer(_, _, _) => RemoveOfferRoundTrip(e);
    case ResolvePurchase(_, _, _, _, _, _, _) => ResolvePurchaseRoundTrip(e);
  }

  /** A batch of mints (or transfers) of one contract decodes to that batch, in order. */
  lemma {:induction false} BatchRoundTrip(contractId: string, t: Tag, es: seq<DomainEvent>)
    requires IsDataTag(t)
    requires forall i :: 0 <= i < |es| ==> TagOf(es[i]) == t && es[i].contractId == contractId
    ensures DecodePayload(contractId, BatchJson(t, es)) == Produced(es)
  {
    var v := BatchJson(t, es);
    ParseTagName(t);
    assert TagText(v) == TagName(t);
    var items := seq(|es|, i requires 0 <= i < |es| => ItemJson(es[i]));
    assert AsArray(Get(v, "data")) == Some(items);
    var decodeItem := item => DataItem(t, contractId, item);
    forall i | 0 <= i < |es| ensures decodeItem(items[i]) == Some(es[i]) {
      DataItemRoundTrip(contractId, es[i]);
    }
    var r := Expand(items, decodeItem);
    assert r.Produced?;
    assert r.events == es;
  }

  /** Every event, logged as its contract would log it, decodes to itself. */
  lemma {:induction false} PayloadRoundTrip(contractId: string, e: DomainEvent)
    requires (e.Mint? || e.Transfer?) ==> e.contractId == contractId
    requires e.ListMarket? ==> e.approvalId <= U64Max
    ensures DecodePayload(contractId, EventJson(e)) == Produced([e])
  {
    if IsDataTag(TagOf(e)) {
      BatchRoundTrip(contractId, TagOf(e), [e]);
    } else {
      ParseTagName(TagOf(e));
      DecodeParamsRoundTrip(e);
    }
  }

  /**
   * A whole log line, with or without the marker in front: if the parser
   * reads the text as the event's payload, the line decodes to that event.
   */
  lemma {:induction false} LogRoundTrip(parse: string -> Option<Json>, contractId: string, text: string, e: DomainEvent)
    requires !HasMarker(text) && parse(text) == Some(EventJson(e))
    requires (e.Mint? || e.Transfer?) ==> e.contractId == contractId
    requires e.ListMarket? ==> e.approvalId <= U64Max
    ensures DecodeLog(parse, contractId, text) == Produced([e])
    ensures DecodeLog(parse, contractId, Marker + text) == Produced([e])
  {
    PayloadRoundTrip(contractId, e);
    LeadingMarkerStripped(text);
  }

  /** The `add_bid` payload of a worked case decodes to one bid priced at its `amount`. */
  lemma AddBidExample(v: Json)
    requires v == JObject(map[
      "event" := JString("add_bid"),
      "params" := JObject(map["bidder_id" := JString("bob.near"), "nft_contract_id" := JString("nft.near"),
                              "token_id" := JString("42"), "ft_token_id" := JString("near"),
                              "amount" := JString("100")])])
    ensures DecodePayload("market.near", v) == Produced([AddBid("42", "nft.near", "bob.near", "near", "100")])
  {
    assert TagText(v) == "add_bid";
    var p := Get(v, "params");
    assert Str(p, "bidder_id") == Some("bob.near");
    assert Str(p, "nft_contract_id") == Some("nft.near");
    assert Str(p, "ft_token_id") == Some("near");
    assert Str(p, "amount") == Some("100");
    assert StrOr(p, "token_id", "None") == "42";
  }

  /** `add_market_data` without the optional fields lists from "None", "0" to "0", not as an auction. */
  lemma ListMarketDefaults(p: Json)
    requires HasRequired(AddMarketData, p)
    requires Str(p, "token_id").None? && Str(p, "started_at").None? && Str(p, "ended_at").None?
    requires AsBool(Get(p, "is_auction")).None?
    ensures DecodeParams(AddMarketData, p) ==
            Some(ListMarket("None", Str(p, "nft_contract_id").value, Str(p, "owner_id").value,
                            AsU64(Get(p, "approval_id")).value, Str(p, "ft_token_id").value,
                            Str(p, "price").value, "0", "0", false))
  {
    assert "owner_id" in RequiredStrings(AddMarketData);
  }

  /** `resolve_purchase` without a boolean `is_offer` is not an offer. */
  lemma ResolvePurchaseDefault(p: Json)
    requires HasRequired(ResolvePurchaseTag, p) && AsBool(Get(p, "is_offer")).None?
    ensures DecodeParams(ResolvePurchaseTag, p).value.isOffer == false
  {
  }

  /** `add_bid` forwards the bid's `amount` as the price. */
  lemma AddBidPriceIsAmount(p: Json)
    requires HasRequired(AddBidTag, p)
    ensures DecodeParams(AddBidTag, p).value.price == Str(p, "amount").value
  {
    assert "amount" in RequiredStrings(AddBidTag);
  }
}
