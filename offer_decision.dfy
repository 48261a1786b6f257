/** `onNewTradeOffer` of src/classes/MyHandler.ts: classify both sides of an
    offer, value them, check stock limits, and decide to accept, decline or
    hold the offer for review. The collaborators it calls (price list,
    inventory manager, item schema, escrow / ban / dupe services) are
    parameters. */
module OfferDecision {
  import opened Wrappers
  import opened Text
  import opened Items

  /* ---------------------------------------------------------------- inputs */

  /** One side of a price entry: its `toValue(keyPrice.metal)` in scrap, its
      key count, and its metal part in scrap. */
  datatype Price = Price(value: int, keys: int, scrap: int)

  /** A price-list entry; `intent` is 0 (buying), 1 (selling) or 2 (both). */
  datatype PriceEntry = PriceEntry(buy: Price, sell: Price, intent: int)

  /** One dupe check: `true`, `false`, `null` (undetermined), or an error. */
  datatype DupeAnswer = Answer(duped: Option<bool>) | CheckError(message: string)

  /** The collaborators, as functions of their arguments. */
  datatype Oracles = Oracles(
    getPrice: Sku -> Option<PriceEntry>,     // pricelist.getPrice(sku, true)
    keyValue: int,                           // keyPrice.toValue(), in scrap
    amountCanTrade: (Sku, bool) -> int,      // inventoryManager.amountCanTrade
    hasEffect: Sku -> bool,                  // SKU.fromString(sku).effect !== null
    isDuped: AssetId -> DupeAnswer)          // TF2Inventory.isDuped

  /** The settings read from the environment and the handler's fields. */
  datatype Config = Config(
    manualReview: bool,        // ENABLE_MANUAL_REVIEW !== 'false'
    allowOverpay: bool,        // ALLOW_OVERPAY !== 'false'
    declineDupes: bool,        // DECLINE_DUPES !== 'false'
    dupeCheckEnabled: bool,    // ENABLE_DUPE_CHECK === 'true'
    minimumKeysDupeCheck: int) // MINIMUM_KEYS_DUPE_CHECK

  /** The escrow and ban checks' answers, or the errors they threw. */
  datatype RiskChecks = RiskChecks(escrow: Result<bool, string>, banned: Result<bool, string>)

  /** An offer: both sides grouped by item type (in dictionary order), the
      partner's message, whether the partner is an admin, and the offer's
      per-item difference (`offer.getDiff()`, positive where we receive). */
  datatype Offer = Offer(our: seq<Group>, their: seq<Group>, message: string, fromAdmin: bool, diff: map<Sku, int>)

  /* ---------------------------------------------------------------- outputs */

  /** One entry of `wrongAboutOffer`. */
  datatype Wrong =
    | Overstocked(sku: Sku, buying: bool, diff: int, amountCanTrade: int)
    | InvalidItems(sku: Sku, buying: bool, amount: int)
    | InvalidValue(our: int, their: int)
    | DupeCheckFailed(assetid: Option<AssetId>, error: Option<string>)
    | DupedItems(dupedAssetid: AssetId)

  const OverstockedTag := "🟦OVERSTOCKED"
  const InvalidItemsTag := "🟨INVALID_ITEMS"
  const InvalidValueTag := "🟥INVALID_VALUE"
  const DupeCheckFailedTag := "🟪DUPE_CHECK_FAILED"
  const DupedItemsTag := "🟫DUPED_ITEMS"
  const NonTf2Tag := "🟨INVALID_ITEMS_CONTAINS_NON_TF2"

  /** `wrong.reason`. */
  function Tag(w: Wrong): string
  {
    match w
    case Overstocked(_, _, _, _) => OverstockedTag
    case InvalidItems(_, _, _) => InvalidItemsTag
    case InvalidValue(_, _) => InvalidValueTag
    case DupeCheckFailed(_, _) => DupeCheckFailedTag
    case DupedItems(_) => DupedItemsTag
  }

  datatype Action = Accept | Decline | Skip

  datatype Meta =
    | NoMeta
    | Reasons(uniqueReasons: seq<string>, reasons: seq<Wrong>)
    | Dupes(assetids: seq<AssetId>, result: seq<Option<bool>>)

  datatype Decision = Decision(action: Action, reason: string, meta: Meta)

  /* ---------------------------------------------------- the reason summary */

  /** `wrongAboutOffer.map(wrong => wrong.reason)`. */
  function Tags(ws: seq<Wrong>): (r: seq<string>)
    ensures |r| == |ws| && forall i :: 0 <= i < |ws| ==> r[i] == Tag(ws[i])
  {
    seq(|ws|, i requires 0 <= i < |ws| => Tag(ws[i]))
  }

  /** `xs.filter(x => all.includes(x))`. */
  function FilterIncluded(xs: seq<string>, all: seq<string>): seq<string>
  {
    if xs == [] then []
    else (if xs[0] in all then [xs[0]] else []) + FilterIncluded(xs[1..], all)
  }

  /** `uniqueReasons`: the reasons filtered by membership in themselves. */
  function UniqueReasons(ws: seq<Wrong>): seq<string>
  {
    FilterIncluded(Tags(ws), Tags(ws))
  }

  function ReasonsMeta(ws: seq<Wrong>): Meta
  {
    Reasons(UniqueReasons(ws), ws)
  }

  /* ---------------------------------------------------- classification */

  datatype Contains = Contains(items: bool, metal: bool, keys: bool)

  const NoContents := Contains(false, false, false)

  /** Classification's accumulator: `exchange.contains` overall and per
      side, `hasInvalidItems`, and `itemsDict`. */
  datatype Classification = Classification(
    contains: Contains, our: Contains, their: Contains, hasInvalidItems: bool,
    dictOur: seq<DictEntry>, dictTheir: seq<DictEntry>)

  const NotClassified := Classification(NoContents, NoContents, NoContents, false, [], [])

  /** Sets the flag for the kind of `sku`: metal, keys, or anything else. */
  function Mark(c: Contains, sku: Sku): Contains
  {
    if IsMetal(sku) then c.(metal := true)
    else if sku == KeySku then c.(keys := true)
    else c.(items := true)
  }

  function ClassifyGroup(cl: Classification, buying: bool, g: Group): Classification
  {
    var entry := DictEntry(g.sku, |g.assetids|);
    var cl1 := cl.(hasInvalidItems := cl.hasInvalidItems || g.sku == UnknownSku, contains := Mark(cl.contains, g.sku));
    if buying then cl1.(their := Mark(cl.their, g.sku), dictTheir := cl.dictTheir + [entry])
    else cl1.(our := Mark(cl.our, g.sku), dictOur := cl.dictOur + [entry])
  }

  function ClassifySide(cl: Classification, buying: bool, gs: seq<Group>): Classification
  {
    if gs == [] then cl
    else ClassifyGroup(ClassifySide(cl, buying, gs[..|gs| - 1]), buying, gs[|gs| - 1])
  }

  /** The classification after the first `i` of `states = [false, true]`. */
  function ClassifyUpTo(offer: Offer, i: nat): Classification
    requires i <= 2
  {
    if i == 0 then NotClassified
    else if i == 1 then ClassifySide(NotClassified, false, offer.our)
    else ClassifySide(ClassifyUpTo(offer, 1), true, offer.their)
  }

  function Classify(offer: Offer): Classification
  {
    ClassifyUpTo(offer, 2)
  }

  /* ---------------------------------------------------- gift detection */

  const GiftWords: seq<string> := ["gift", "donat", "tip", "tribute", "souvenir", "favor", "giveaway",
    "bonus", "grant", "bounty", "present", "contribution", "award", "nice", "happy", "thank", "goo",
    "awesome", "rep", "joy", "cute"]

  function IncludesAny(s: string, words: seq<string>): bool
  {
    if words == [] then false else Includes(s, words[0]) || IncludesAny(s, words[1..])
  }

  /** The lower-cased message contains one of the gift words. */
  predicate IsGiftMessage(message: string)
  {
    IncludesAny(ToLower(message), GiftWords)
  }

  /** `itemsToGive.length` / `itemsToReceive.length`. */
  function ItemCount(gs: seq<Group>): nat
  {
    if gs == [] then 0 else ItemCount(gs[..|gs| - 1]) + |gs[|gs| - 1].assetids|
  }

  /* ---------------------------------------------------- valuation */

  datatype Totals = Totals(value: int, keys: int, scrap: int)

  const ZeroTotals := Totals(0, 0, 0)

  function AddTotals(a: Totals, b: Totals): Totals
  {
    Totals(a.value + b.value, a.keys + b.keys, a.scrap + b.scrap)
  }

  /** Valuation's accumulator: `exchange[which]` totals, `wrongAboutOffer`,
      `assetidsToCheck`, `hasOverstock`, and the second write of
      `hasInvalidItems`. */
  datatype Tally = Tally(our: Totals, their: Totals, wrong: seq<Wrong>, toCheck: seq<AssetId>,
                         hasOverstock: bool, invalidAgain: bool)

  const EmptyTally := Tally(ZeroTotals, ZeroTotals, [], [], false, false)

  /** What valuation reads besides the group: the collaborators, the
      difference map, whether the offer has non-currency items, and the dupe
      threshold. */
  datatype Env = Env(o: Oracles, diff: map<Sku, int>, containsItems: bool, minimumKeysDupeCheck: int)

  /** The stock-limit check of one item type: `diff !== 0 && amountCanTrade
      < diff`; with no entry in the difference map both comparisons with
      `undefined` are false and nothing is recorded. */
  function OverstockCheck(sku: Sku, diff: map<Sku, int>, o: Oracles): seq<Wrong>
  {
    if sku !in diff then []
    else
      var d := diff[sku];
      var buying := d > 0;
      var can := o.amountCanTrade(sku, buying);
      if d != 0 && can < d then [Overstocked(sku, buying, d, can)] else []
  }

  function AddTo(t: Tally, buying: bool, add: Totals): Tally
  {
    if buying then t.(their := AddTotals(t.their, add)) else t.(our := AddTotals(t.our, add))
  }

  /** The valuation of one group on the `buying` side (`their` when true). */
  function ValueGroup(t: Tally, buying: bool, g: Group, env: Env): Tally
  {
    var amount := |g.assetids|;
    if IsMetal(g.sku) then
      AddTo(t, buying, Totals(MetalWorth(g.sku) * amount, 0, MetalWorth(g.sku) * amount))
    else
      var entry := env.o.getPrice(g.sku);
      if entry.Some? && (g.sku != KeySku || !env.containsItems) then
        var p := if buying then entry.value.buy else entry.value.sell;
        var t1 := AddTo(t, buying, Totals(p.value * amount, p.keys * amount, p.scrap * amount));
        var over := OverstockCheck(g.sku, env.diff, env.o);
        var check := env.o.hasEffect(g.sku) && entry.value.buy.value > env.minimumKeysDupeCheck * env.o.keyValue;
        t1.(wrong := t1.wrong + over, hasOverstock := t1.hasOverstock || over != [],
            toCheck := if check then t1.toCheck + g.assetids else t1.toCheck)
      else if g.sku == KeySku && env.containsItems then
        AddTo(t, buying, Totals(env.o.keyValue * amount, amount, 0))
      else if entry.None? || entry.value.intent == (if buying then 1 else 0) then
        t.(invalidAgain := true, wrong := t.wrong + [InvalidItems(g.sku, buying, amount)])
      else
        t
  }

  function ValueSide(t: Tally, buying: bool, gs: seq<Group>, env: Env): Tally
  {
    if gs == [] then t
    else ValueGroup(ValueSide(t, buying, gs[..|gs| - 1], env), buying, gs[|gs| - 1], env)
  }

  function EnvOf(offer: Offer, o: Oracles, cfg: Config): Env
  {
    Env(o, offer.diff, Classify(offer).contains.items, cfg.minimumKeysDupeCheck)
  }

  function ValueUpTo(offer: Offer, env: Env, i: nat): Tally
    requires i <= 2
  {
    if i == 0 then EmptyTally
    else if i == 1 then ValueSide(EmptyTally, false, offer.our, env)
    else ValueSide(ValueUpTo(offer, env, 1), true, offer.their, env)
  }

  function Valuation(offer: Offer, o: Oracles, cfg: Config): Tally
  {
    ValueUpTo(offer, EnvOf(offer, o, cfg), 2)
  }

  /* ---------------------------------------------------- dupe checks */

  /** The batch's outcome: every answer in order, or the first error. */
  datatype Batch = Results(result: seq<Option<bool>>) | Thrown(message: string)

  /** `async.series` over the checks: run them in order, stop at the first
      error. */
  function Series(ids: seq<AssetId>, isDuped: AssetId -> DupeAnswer): (b: Batch)
    ensures b.Results? ==> |b.result| == |ids|
  {
    if ids == [] then Results([])
    else match isDuped(ids[0])
      case CheckError(m) => Thrown(m)
      case Answer(a) =>
        match Series(ids[1..], isDuped)
        case Thrown(m) => Thrown(m)
        case Results(rest) => Results([a] + rest)
  }

  /** The scan of the results: a dupe that is declined stops it; otherwise
      each dupe and each undetermined answer adds a reason. */
  datatype Scan = FoundDupe | Flagged(ws: seq<Wrong>)

  function ScanDupes(ids: seq<AssetId>, rs: seq<Option<bool>>, declineDupes: bool): Scan
    requires |rs| <= |ids|
  {
    if rs == [] then Flagged([])
    else
      var k := |rs| - 1;
      match ScanDupes(ids, rs[..k], declineDupes)
      case FoundDupe => FoundDupe
      case Flagged(ws) =>
        if rs[k] == Some(true) then
          (if declineDupes then FoundDupe else Flagged(ws + [DupedItems(ids[k])]))
        else if rs[k] == None then Flagged(ws + [DupeCheckFailed(Some(ids[k]), None)])
        else Flagged(ws)
  }

  /* ---------------------------------------------------- the decision */

  function Plain(action: Action, reason: string): Option<Decision>
  {
    Some(Decision(action, reason, NoMeta))
  }

  /** Final synthesis: hold for review when anything was recorded. */
  function Synthesize(wrong: seq<Wrong>): Decision
  {
    if |wrong| != 0 then Decision(Skip, "REVIEW", ReasonsMeta(wrong))
    else Decision(Accept, "VALID", NoMeta)
  }

  /** Dupe checks (when enabled and something qualifies), then synthesis. */
  function DupeStage(wrong: seq<Wrong>, toCheck: seq<AssetId>, o: Oracles, cfg: Config): Decision
  {
    if cfg.dupeCheckEnabled && |toCheck| > 0 then
      match Series(toCheck, o.isDuped)
      case Thrown(m) => Synthesize(wrong + [DupeCheckFailed(None, Some(m))])
      case Results(rs) =>
        match ScanDupes(toCheck, rs, cfg.declineDupes)
        case FoundDupe => Decision(Decline, DupedItemsTag, Dupes(toCheck, rs))
        case Flagged(ws) => Synthesize(wrong + ws)
    else
      Synthesize(wrong)
  }

  /** Escrow, then bans; a check that throws ends with no decision. */
  function RiskStage(wrong: seq<Wrong>, toCheck: seq<AssetId>, o: Oracles, cfg: Config, risk: RiskChecks): Option<Decision>
  {
    match risk.escrow
    case Failure(_) => None
    case Success(true) => Plain(Decline, "ESCROW")
    case Success(false) =>
      match risk.banned
      case Failure(_) => None
      case Success(true) => Plain(Decline, "BANNED")
      case Success(false) => Some(DupeStage(wrong, toCheck, o, cfg))
  }

  /** Value comparison, the fail-fast declines without manual review, and
      overpay. */
  function ValueStage(t: Tally, o: Oracles, cfg: Config, risk: RiskChecks): Option<Decision>
  {
    var hasInvalidValue := t.our.value > t.their.value;
    var wrong := t.wrong + (if hasInvalidValue then [InvalidValue(t.our.value, t.their.value)] else []);
    if !cfg.manualReview && t.hasOverstock then Some(Decision(Decline, OverstockedTag, ReasonsMeta(wrong)))
    else if !cfg.manualReview && hasInvalidValue then Some(Decision(Decline, InvalidValueTag, ReasonsMeta(wrong)))
    else if t.our.value < t.their.value && !cfg.allowOverpay then Plain(Decline, "OVERPAY")
    else RiskStage(wrong, t.toCheck, o, cfg, risk)
  }

  /** Whether keys are traded, when keys are the only non-metal items. */
  predicate KeysRefused(cl: Classification, keyEntry: Option<PriceEntry>)
  {
    keyEntry.None?
    || (cl.our.keys && keyEntry.value.intent != 1 && keyEntry.value.intent != 2)
    || (cl.their.keys && keyEntry.value.intent != 0 && keyEntry.value.intent != 2)
  }

  /** The key-only stock check, on `5021;6`. */
  function KeyStockCheck(t: Tally, offer: Offer, o: Oracles): Tally
  {
    var over := OverstockCheck(KeySku, offer.diff, o);
    t.(wrong := t.wrong + over, hasOverstock := t.hasOverstock || over != [])
  }

  /** Metal-only and key-only offers, after valuation. */
  function CurrencyStage(offer: Offer, cl: Classification, t: Tally, o: Oracles, cfg: Config, risk: RiskChecks): Option<Decision>
  {
    if cl.contains.metal && !cl.contains.keys && !cl.contains.items then Plain(Decline, "ONLY_METAL")
    else if cl.contains.keys && !cl.contains.items then
      if KeysRefused(cl, o.getPrice(KeySku)) then Plain(Decline, "NOT_TRADING_KEYS")
      else ValueStage(KeyStockCheck(t, offer, o), o, cfg, risk)
    else ValueStage(t, o, cfg, risk)
  }

  /** The whole pipeline. */
  function Decide(offer: Offer, o: Oracles, cfg: Config, risk: RiskChecks): Option<Decision>
  {
    var cl := Classify(offer);
    if offer.fromAdmin then Plain(Accept, "ADMIN")
    else if cl.hasInvalidItems then Plain(Decline, NonTf2Tag)
    else if ItemCount(offer.our) == 0 && IsGiftMessage(offer.message) then Plain(Accept, "GIFT")
    else if ItemCount(offer.their) == 0 || ItemCount(offer.our) == 0 then Plain(Decline, "GIFT")
    else CurrencyStage(offer, cl, Valuation(offer, o, cfg), o, cfg, risk)
  }

  /* ---------------------------------------------------- the handler */

  /** Once a declined dupe is found the scan stays decided, however many
      results follow. */
  lemma {:induction false} FoundDupeStays(ids: seq<AssetId>, rs: seq<Option<bool>>, k: nat, declineDupes: bool)
    requires k <= |rs| <= |ids|
    requires ScanDupes(ids, rs[..k], declineDupes) == FoundDupe
    ensures ScanDupes(ids, rs, declineDupes) == FoundDupe
    decreases |rs| - k
  {
    if k < |rs| {
      assert rs[..k + 1][..k] == rs[..k];
      FoundDupeStays(ids, rs, k + 1, declineDupes);
    } else {
      assert rs[..k] == rs;
    }
  }

  /** The first pass of `onNewTradeOffer`: mark what each side contains,
      note items that are not from TF2, and build `itemsDict`. */
  method ClassifyItems(offer: Offer) returns (cl: Classification)
    ensures cl == Classify(offer)
  {
    var states := [false, true];
    var contains, ourContains, theirContains := NoContents, NoContents, NoContents;
    var hasInvalidItems := false;
    var dictOur, dictTheir := [], [];
    for i := 0 to |states|
      invariant Classification(contains, ourContains, theirContains, hasInvalidItems, dictOur, dictTheir)
                == ClassifyUpTo(offer, i)
    {
      var buying := states[i];
      var items := if buying then offer.their else offer.our;
      ghost var start := Classification(contains, ourContains, theirContains, hasInvalidItems, dictOur, dictTheir);
      for j := 0 to |items|
        invariant Classification(contains, ourContains, theirContains, hasInvalidItems, dictOur, dictTheir)
                  == ClassifySide(start, buying, items[..j])
      {
        assert items[..j + 1][..j] == items[..j];
        var sku := items[j].sku;
        if sku == UnknownSku {
          hasInvalidItems := true;
        }
        contains := Mark(contains, sku);
        var amount := |items[j].assetids|;
        if buying {
          theirContains := Mark(theirContains, sku);
          dictTheir := dictTheir + [DictEntry(sku, amount)];
        } else {
          ourContains := Mark(ourContains, sku);
          dictOur := dictOur + [DictEntry(sku, amount)];
        }
      }
      assert items[..|items|] == items;
    }
    cl := Classification(contains, ourContains, theirContains, hasInvalidItems, dictOur, dictTheir);
  }

  /** The loop body of the second pass: one item type on one side. */
  method ValueOne(t: Tally, buying: bool, g: Group, env: Env) returns (t': Tally)
    ensures t' == ValueGroup(t, buying, g, env)
  {
    var o := env.o;
    var sku, assetids := g.sku, g.assetids;
    var amount := |assetids|;
    t' := t;
    var add := ZeroTotals;
    if sku == ScrapSku {
      add := Totals(amount, 0, amount);
    } else if sku == ReclaimedSku {
      add := Totals(3 * amount, 0, 3 * amount);
    } else if sku == RefinedSku {
      add := Totals(9 * amount, 0, 9 * amount);
    } else {
      var entry := o.getPrice(sku);
      if entry.Some? && (sku != KeySku || !env.containsItems) {
        var p := if buying then entry.value.buy else entry.value.sell;
        add := Totals(p.value * amount, p.keys * amount, p.scrap * amount);
        if sku in env.diff {
          var diff := env.diff[sku];
          var buyingOverstockCheck := diff > 0;
          var amountCanTrade := o.amountCanTrade(sku, buyingOverstockCheck);
          if diff != 0 && amountCanTrade < diff {
            t' := t'.(hasOverstock := true, wrong := t'.wrong + [Overstocked(sku, buyingOverstockCheck, diff, amountCanTrade)]);
          }
        }
        if o.hasEffect(sku) && entry.value.buy.value > env.minimumKeysDupeCheck * o.keyValue {
          t' := t'.(toCheck := t'.toCheck + assetids);
        }
      } else if sku == KeySku && env.containsItems {
        add := Totals(o.keyValue * amount, amount, 0);
      } else if entry.None? {
        // A priced item always takes one of the two branches above, so the
        // intent test beside this one never decides.
        t' := t'.(invalidAgain := true, wrong := t'.wrong + [InvalidItems(sku, buying, amount)]);
      }
    }
    t' := AddTo(t', buying, add);
  }

  /** The second pass of `onNewTradeOffer`: add up each side's value, check
      stock limits, note unpriced items, and collect the asset ids to dupe
      check. */
  method ValueItems(offer: Offer, o: Oracles, cfg: Config, containsItems: bool) returns (t: Tally)
    requires containsItems == Classify(offer).contains.items
    ensures t == Valuation(offer, o, cfg)
  {
    var states := [false, true];
    var env := Env(o, offer.diff, containsItems, cfg.minimumKeysDupeCheck);
    t := EmptyTally;
    for i := 0 to |states|
      invariant t == ValueUpTo(offer, env, i)
    {
      var buying := states[i];
      var items := if buying then offer.their else offer.our;
      ghost var start := t;
      for j := 0 to |items|
        invariant t == ValueSide(start, buying, items[..j], env)
      {
        assert items[..j + 1][..j] == items[..j];
        t := ValueOne(t, buying, items[j], env);
      }
      assert items[..|items|] == items;
    }
  }

  /** The loop over the dupe-check results: `true` declines at once when
      dupes are declined and is recorded otherwise; `null` is recorded. */
  method ScanResults(assetidsToCheck: seq<AssetId>, result: seq<Option<bool>>, declineDupes: bool)
    returns (declined: bool, flagged: seq<Wrong>)
    requires |result| == |assetidsToCheck|
    ensures declined <==> ScanDupes(assetidsToCheck, result, declineDupes) == FoundDupe
    ensures !declined ==> flagged == ScanDupes(assetidsToCheck, result, declineDupes).ws
  {
    flagged := [];
    for i := 0 to |result|
      invariant ScanDupes(assetidsToCheck, result[..i], declineDupes) == Flagged(flagged)
    {
      assert result[..i + 1][..i] == result[..i];
      if result[i] == Some(true) {
        if declineDupes {
          FoundDupeStays(assetidsToCheck, result, i + 1, declineDupes);
          return true, flagged;
        } else {
          flagged := flagged + [DupedItems(assetidsToCheck[i])];
        }
      } else if result[i] == None {
        flagged := flagged + [DupeCheckFailed(Some(assetidsToCheck[i]), None)];
      }
    }
    assert result[..|result|] == result;
    declined := false;
  }

  /** The dupe checks and the final synthesis. */
  method CheckDupes(wrong: seq<Wrong>, assetidsToCheck: seq<AssetId>, o: Oracles, cfg: Config)
    returns (decision: Decision)
    ensures decision == DupeStage(wrong, assetidsToCheck, o, cfg)
  {
    var wrongAboutOffer := wrong;
    if cfg.dupeCheckEnabled && |assetidsToCheck| > 0 {
      var series := Series(assetidsToCheck, o.isDuped);
      if series.Thrown? {
        wrongAboutOffer := wrongAboutOffer + [DupeCheckFailed(None, Some(series.message))];
      } else {
        var declined, flagged := ScanResults(assetidsToCheck, series.result, cfg.declineDupes);
        if declined {
          return Decision(Decline, DupedItemsTag, Dupes(assetidsToCheck, series.result));
        }
        wrongAboutOffer := wrongAboutOffer + flagged;
      }
    }
    if |wrongAboutOffer| != 0 {
      var reasons := Tags(wrongAboutOffer);
      var uniqueReasons := FilterIncluded(reasons, reasons);
      return Decision(Skip, "REVIEW", Reasons(uniqueReasons, wrongAboutOffer));
    }
    return Decision(Accept, "VALID", NoMeta);
  }

  /** Everything after valuation and the currency-only checks: value
      comparison, the fail-fast declines, overpay, escrow, bans, dupes. */
  method DecideOnValue(t: Tally, o: Oracles, cfg: Config, risk: RiskChecks) returns (decision: Option<Decision>)
    ensures decision == ValueStage(t, o, cfg, risk)
  {
    var our, their := t.our, t.their;
    var wrongAboutOffer := t.wrong;
    var hasInvalidValue := false;
    if our.value > their.value {
      hasInvalidValue := true;
      wrongAboutOffer := wrongAboutOffer + [InvalidValue(our.value, their.value)];
    }
    assert wrongAboutOffer == t.wrong + (if hasInvalidValue then [InvalidValue(our.value, their.value)] else []);
    if !cfg.manualReview {
      if t.hasOverstock {
        var reasons := Tags(wrongAboutOffer);
        var uniqueReasons := FilterIncluded(reasons, reasons);
        return Some(Decision(Decline, OverstockedTag, Reasons(uniqueReasons, wrongAboutOffer)));
      }
      if hasInvalidValue {
        var reasons := Tags(wrongAboutOffer);
        var uniqueReasons := FilterIncluded(reasons, reasons);
        return Some(Decision(Decline, InvalidValueTag, Reasons(uniqueReasons, wrongAboutOffer)));
      }
    }
    if our.value < their.value && !cfg.allowOverpay {
      return Plain(Decline, "OVERPAY");
    }

    // Escrow, then bans; a check that throws leaves the offer undecided.
    if risk.escrow.Failure? {
      return None;
    } else if risk.escrow.value {
      return Plain(Decline, "ESCROW");
    }
    if risk.banned.Failure? {
      return None;
    } else if risk.banned.value {
      return Plain(Decline, "BANNED");
    }
    var d := CheckDupes(wrongAboutOffer, t.toCheck, o, cfg);
    return Some(d);
  }

  /** `onNewTradeOffer`: the decision (`None` where the source returns
      `undefined`) and the `dict` it stores on the offer. */
  method OnNewTradeOffer(offer: Offer, o: Oracles, cfg: Config, risk: RiskChecks)
    returns (decision: Option<Decision>, dictOur: seq<DictEntry>, dictTheir: seq<DictEntry>)
    ensures decision == Decide(offer, o, cfg, risk)
    ensures dictOur == Classify(offer).dictOur && dictTheir == Classify(offer).dictTheir
  {
    var cl := ClassifyItems(offer);
    dictOur, dictTheir := cl.dictOur, cl.dictTheir;

    if offer.fromAdmin {
      return Plain(Accept, "ADMIN"), dictOur, dictTheir;
    }
    if cl.hasInvalidItems {
      return Plain(Decline, NonTf2Tag), dictOur, dictTheir;
    }
    var offerMessage := ToLower(offer.message);
    if ItemCount(offer.our) == 0 && IncludesAny(offerMessage, GiftWords) {
      return Plain(Accept, "GIFT"), dictOur, dictTheir;
    } else if ItemCount(offer.their) == 0 || ItemCount(offer.our) == 0 {
      return Plain(Decline, "GIFT"), dictOur, dictTheir;
    }

    var t := ValueItems(offer, o, cfg, cl.contains.items);
    assert Decide(offer, o, cfg, risk) == CurrencyStage(offer, cl, t, o, cfg, risk);

    // Metal-only and key-only offers.
    if cl.contains.metal && !cl.contains.keys && !cl.contains.items {
      return Plain(Decline, "ONLY_METAL"), dictOur, dictTheir;
    } else if cl.contains.keys && !cl.contains.items {
      var priceEntry := o.getPrice(KeySku);
      if priceEntry.None? {
        return Plain(Decline, "NOT_TRADING_KEYS"), dictOur, dictTheir;
      } else if cl.our.keys && priceEntry.value.intent != 1 && priceEntry.value.intent != 2 {
        return Plain(Decline, "NOT_TRADING_KEYS"), dictOur, dictTheir;
      } else if cl.their.keys && priceEntry.value.intent != 0 && priceEntry.value.intent != 2 {
        return Plain(Decline, "NOT_TRADING_KEYS"), dictOur, dictTheir;
      } else if KeySku in offer.diff {
        ghost var t0 := t;
        var diff := offer.diff[KeySku];
        var buying := diff > 0;
        var amountCanTrade := o.amountCanTrade(KeySku, buying);
        if diff != 0 && amountCanTrade < diff {
          t := t.(hasOverstock := true, wrong := t.wrong + [Overstocked(KeySku, buying, diff, amountCanTrade)]);
        }
        assert t == KeyStockCheck(t0, offer, o);
      } else {
        assert t == KeyStockCheck(t, offer, o);
      }
    }
    decision := DecideOnValue(t, o, cfg, risk);
  }
}
