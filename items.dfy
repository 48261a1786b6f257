/** The identifiers and value records shared by the offer pipeline and the
    trade summaries. */
module Items {

  /** An item type ("defindex;quality;..."), kept opaque. */
  type Sku = string

  /** A Steam asset id: one tradable instance of an item type. */
  type AssetId = string

  const ScrapSku: Sku := "5000;6"
  const ReclaimedSku: Sku := "5001;6"
  const RefinedSku: Sku := "5002;6"
  const KeySku: Sku := "5021;6"
  /** What item classification yields for an item that is not from TF2. */
  const UnknownSku: Sku := "unknown"

  predicate IsMetal(sku: Sku)
  {
    sku == ScrapSku || sku == ReclaimedSku || sku == RefinedSku
  }

  /** Scrap worth of one piece of metal: 1, 3 or 9. */
  function MetalWorth(sku: Sku): (w: int)
    requires IsMetal(sku)
    ensures w > 0
  {
    if sku == ScrapSku then 1 else if sku == ReclaimedSku then 3 else 9
  }

  /** One entry of the dictionary one side of an offer is grouped into:
      an item type and the asset ids of that type. */
  datatype Group = Group(sku: Sku, assetids: seq<AssetId>)

  /** One entry of the `{ sku: amount }` dictionary stored on the offer as
      `dict` and read back by the summaries. */
  datatype DictEntry = DictEntry(sku: Sku, amount: int)

  /** The `Currency { keys, metal }` shape; the metal part is held in whole
      scrap. */
  datatype Currency = Currency(keys: int, metal: int)
}
