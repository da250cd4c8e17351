/**
 * The marketplace events the indexer forwards, the nine log tags that name
 * them, and the sink endpoint each kind of event is posted to.
 */
module Events {
  import opened Wrappers

  /**
   * The `event` tags of the log protocol. Every other tag, and the
   * placeholder "None" that stands for a missing tag, matches none of them.
   */
  datatype Tag =
    | NftMint
    | NftTransfer
    | AddMarketData
    | UpdateMarketData
    | DeleteMarketData
    | AddBidTag
    | AddOfferTag
    | DeleteOffer
    | ResolvePurchaseTag

  function TagName(t: Tag): string
  {
    match t
    case NftMint => "nft_mint"
    case NftTransfer => "nft_transfer"
    case AddMarketData => "add_market_data"
    case UpdateMarketData => "update_market_data"
    case DeleteMarketData => "delete_market_data"
    case AddBidTag => "add_bid"
    case AddOfferTag => "add_offer"
    case DeleteOffer => "delete_offer"
    case ResolvePurchaseTag => "resolve_purchase"
  }

  /** The `if log_type == "..." else if ...` chain: which of the nine tags a string names, if any. */
  function ParseTag(s: string): (r: Option<Tag>)
    ensures forall t: Tag :: r == Some(t) <==> TagName(t) == s
  {
    if s == "nft_mint" then Some(NftMint)
    else if s == "nft_transfer" then Some(NftTransfer)
    else if s == "add_market_data" then Some(AddMarketData)
    else if s == "update_market_data" then Some(UpdateMarketData)
    else if s == "delete_market_data" then Some(DeleteMarketData)
    else if s == "add_bid" then Some(AddBidTag)
    else if s == "add_offer" then Some(AddOfferTag)
    else if s == "delete_offer" then Some(DeleteOffer)
    else if s == "resolve_purchase" then Some(ResolvePurchaseTag)
    else None
  }

  /** Tags read their payload either from a `data` array (one event per element) or a `params` object. */
  predicate IsDataTag(t: Tag)
  {
    t == NftMint || t == NftTransfer
  }

  /**
   * One sink call: which endpoint, with which body. Only the two token
   * events carry the emitting contract (`contractId`); the market events
   * carry the payload's `nft_contract_id` instead.
   */
  datatype DomainEvent =
    | Mint(contractId: string, ownerId: string, tokenIds: seq<string>)
    | Transfer(contractId: string, oldOwnerId: string, newOwnerId: string, tokenIds: seq<string>)
    | ListMarket(tokenId: string, nftContractId: string, ownerId: string, approvalId: nat,
                 ftTokenId: string, price: string, startedAt: string, endedAt: string, isAuction: bool)
    | UpdateMarket(tokenId: string, nftContractId: string, ownerId: string, ftTokenId: string, price: string)
    | DelistMarket(tokenId: string, nftContractId: string, ownerId: string)
    | AddBid(tokenId: string, nftContractId: string, bidderId: string, ftTokenId: string, price: string)
    | AddOffer(tokenId: string, nftContractId: string, buyerId: string, ftTokenId: string, price: string)
    | RemoveOffer(tokenId: string, nftContractId: string, buyerId: string)
    | ResolvePurchase(tokenId: string, nftContractId: string, ownerId: string, ftTokenId: string,
                      price: string, buyerId: string, isOffer: bool)

  /** The tag whose log produces this kind of event. */
  function TagOf(e: DomainEvent): Tag
  {
    match e
    case Mint(_, _, _) => NftMint
    case Transfer(_, _, _, _) => NftTransfer
    case ListMarket(_, _, _, _, _, _, _, _, _) => AddMarketData
    case UpdateMarket(_, _, _, _, _) => UpdateMarketData
    case DelistMarket(_, _, _) => DeleteMarketData
    case AddBid(_, _, _, _, _) => AddBidTag
    case AddOffer(_, _, _, _, _) => AddOfferTag
    case RemoveOffer(_, _, _) => DeleteOffer
    case ResolvePurchase(_, _, _, _, _, _, _) => ResolvePurchaseTag
  }

  /** The path, below the public API root, that the sink posts each kind of event to. */
  function Route(e: DomainEvent): string
  {
    match TagOf(e)
    case NftMint => "/insert_tokens"
    case NftTransfer => "/transfer_tokens"
    case AddMarketData => "/list_token"
    case UpdateMarketData => "/update_token"
    case DeleteMarketData => "/unlist_token"
    case AddBidTag => "/bid_token"
    case AddOfferTag => "/offer_token"
    case DeleteOffer => "/unoffer_token"
    case ResolvePurchaseTag => "/resolve_token"
  }

  /** The endpoint identifies the kind of event: two events share a path exactly when they share a tag. */
  lemma RouteIdentifiesKind(a: DomainEvent, b: DomainEvent)
    ensures Route(a) == Route(b) <==> TagOf(a) == TagOf(b)
  {
    if TagOf(a) != TagOf(b) {
      var ra, rb := Route(a), Route(b);
      if |ra| == |rb| {
        // equal lengths: the paths differ in one of their first three characters
        assert ra[1] != rb[1] || ra[2] != rb[2] || ra[3] != rb[3];
      }
    }
  }
}
