/** Properties of the offer decision pipeline of src/classes/MyHandler.ts,
    stated over the specification functions that `OnNewTradeOffer` is
    proved against. */
module DecisionProperties {
  import opened Wrappers
  import opened Text
  import opened Items
  import opened OfferDecision

  /* ------------------------------------------------ classification */

  /** Some item type on either side has the SKU `unknown`. */
  predicate HasUnknown(offer: Offer)
  {
    (exists i :: 0 <= i < |offer.our| && offer.our[i].sku == UnknownSku)
    || (exists i :: 0 <= i < |offer.their| && offer.their[i].sku == UnknownSku)
  }

  /** Classification marks an invalid item exactly when one of the groups
      seen has the SKU `unknown`. */
  lemma {:induction false} ClassifySideInvalid(cl: Classification, buying: bool, gs: seq<Group>)
    ensures ClassifySide(cl, buying, gs).hasInvalidItems
            <==> cl.hasInvalidItems || exists i :: 0 <= i < |gs| && gs[i].sku == UnknownSku
  {
    if gs != [] {
      var init := gs[..|gs| - 1];
      ClassifySideInvalid(cl, buying, init);
      if exists i :: 0 <= i < |gs| && gs[i].sku == UnknownSku {
        var i :| 0 <= i < |gs| && gs[i].sku == UnknownSku;
        if i < |gs| - 1 {
          assert init[i] == gs[i];
        }
      }
      if exists i :: 0 <= i < |init| && init[i].sku == UnknownSku {
        var i :| 0 <= i < |init| && init[i].sku == UnknownSku;
        assert gs[i] == init[i];
      }
    }
  }

  /** Both sides' loops are run: the offer is marked invalid exactly when
      either side has an `unknown` SKU. */
  lemma ClassifyInvalid(offer: Offer)
    ensures Classify(offer).hasInvalidItems <==> HasUnknown(offer)
  {
    ClassifySideInvalid(NotClassified, false, offer.our);
    ClassifySideInvalid(ClassifyUpTo(offer, 1), true, offer.their);
  }

  /** Some group of the side is metal / a key / anything else. */
  predicate SomeMetal(gs: seq<Group>)
  {
    exists i :: 0 <= i < |gs| && IsMetal(gs[i].sku)
  }

  predicate SomeKey(gs: seq<Group>)
  {
    exists i :: 0 <= i < |gs| && gs[i].sku == KeySku
  }

  predicate SomeItem(gs: seq<Group>)
  {
    exists i :: 0 <= i < |gs| && !IsMetal(gs[i].sku) && gs[i].sku != KeySku
  }

  /** What a list of groups contains, read off its SKUs. */
  function SideContents(gs: seq<Group>): Contains
  {
    Contains(SomeItem(gs), SomeMetal(gs), SomeKey(gs))
  }

  function Union(a: Contains, b: Contains): Contains
  {
    Contains(a.items || b.items, a.metal || b.metal, a.keys || b.keys)
  }

  /** One more group: some group is metal / a key / anything else iff one
      of the earlier groups is, or the new one is. */
  lemma SomeMetalSnoc(gs: seq<Group>)
    requires gs != []
    ensures SomeMetal(gs) <==> SomeMetal(gs[..|gs| - 1]) || IsMetal(gs[|gs| - 1].sku)
  {
    var init := gs[..|gs| - 1];
    if SomeMetal(gs) {
      var i :| 0 <= i < |gs| && IsMetal(gs[i].sku);
      assert i < |init| ==> init[i] == gs[i];
    }
    if SomeMetal(init) {
      var i :| 0 <= i < |init| && IsMetal(init[i].sku);
      assert init[i] == gs[i];
    }
  }

  lemma SomeKeySnoc(gs: seq<Group>)
    requires gs != []
    ensures SomeKey(gs) <==> SomeKey(gs[..|gs| - 1]) || gs[|gs| - 1].sku == KeySku
  {
    var init := gs[..|gs| - 1];
    if SomeKey(gs) {
      var i :| 0 <= i < |gs| && gs[i].sku == KeySku;
      assert i < |init| ==> init[i] == gs[i];
    }
    if SomeKey(init) {
      var i :| 0 <= i < |init| && init[i].sku == KeySku;
      assert init[i] == gs[i];
    }
  }

  lemma SomeItemSnoc(gs: seq<Group>)
    requires gs != []
    ensures SomeItem(gs) <==> SomeItem(gs[..|gs| - 1]) || (!IsMetal(gs[|gs| - 1].sku) && gs[|gs| - 1].sku != KeySku)
  {
    var init := gs[..|gs| - 1];
    if SomeItem(gs) {
      var i :| 0 <= i < |gs| && !IsMetal(gs[i].sku) && gs[i].sku != KeySku;
      assert i < |init| ==> init[i] == gs[i];
    }
    if SomeItem(init) {
      var i :| 0 <= i < |init| && !IsMetal(init[i].sku) && init[i].sku != KeySku;
      assert init[i] == gs[i];
    }
  }

  /** Marking one more group's SKU is taking the contents of one more
      group. */
  lemma SideContentsSnoc(gs: seq<Group>)
    requires gs != []
    ensures SideContents(gs) == Mark(SideContents(gs[..|gs| - 1]), gs[|gs| - 1].sku)
  {
    SomeMetalSnoc(gs);
    SomeKeySnoc(gs);
    SomeItemSnoc(gs);
  }

  lemma MarkUnion(a: Contains, b: Contains, sku: Sku)
    ensures Mark(Union(a, b), sku) == Union(a, Mark(b, sku))
  {
  }

  /** A side's loop adds exactly that side's contents to the overall flags
      and to its own side's flags, and leaves the other side's alone. */
  lemma {:induction false} ClassifySideContents(cl: Classification, buying: bool, gs: seq<Group>)
    ensures var r := ClassifySide(cl, buying, gs);
            r.contains == Union(cl.contains, SideContents(gs))
            && (if buying then r.their == Union(cl.their, SideContents(gs)) && r.our == cl.our
                else r.our == Union(cl.our, SideContents(gs)) && r.their == cl.their)
  {
    if gs == [] {
      assert SideContents(gs) == NoContents;
    } else {
      var init, g := gs[..|gs| - 1], gs[|gs| - 1];
      ClassifySideContents(cl, buying, init);
      SideContentsSnoc(gs);
      var prev := ClassifySide(cl, buying, init);
      assert ClassifySide(cl, buying, gs) == ClassifyGroup(prev, buying, g);
      MarkUnion(cl.contains, SideContents(init), g.sku);
      MarkUnion(if buying then cl.their else cl.our, SideContents(init), g.sku);
    }
  }

  /** The flags `exchange.contains`, `exchange.our.contains` and
      `exchange.their.contains` are what the two sides' SKUs say. */
  lemma ClassifyContents(offer: Offer)
    ensures Classify(offer).our == SideContents(offer.our)
    ensures Classify(offer).their == SideContents(offer.their)
    ensures Classify(offer).contains == Union(SideContents(offer.our), SideContents(offer.their))
  {
    ClassifySideContents(NotClassified, false, offer.our);
    ClassifySideContents(ClassifyUpTo(offer, 1), true, offer.their);
  }

  /* ------------------------------------------------ the first checks */

  /** The admin check runs first: an admin's offer is accepted whatever it
      holds, even items that are not from TF2. */
  lemma AdminBypass(offer: Offer, o: Oracles, cfg: Config, risk: RiskChecks)
    requires offer.fromAdmin
    ensures Decide(offer, o, cfg, risk) == Some(Decision(Accept, "ADMIN", NoMeta))
  {
  }

  /** The reasons the stages after the gift rule can give. */
  predicate LaterReason(reason: string)
  {
    reason in ["ONLY_METAL", "NOT_TRADING_KEYS", OverstockedTag, InvalidValueTag, "OVERPAY",
               "ESCROW", "BANNED", DupedItemsTag, "REVIEW", "VALID"]
  }

  /** The dupe stage ends in `DUPED_ITEMS`, `REVIEW` or `VALID`. */
  lemma DupeStageReason(wrong: seq<Wrong>, toCheck: seq<AssetId>, o: Oracles, cfg: Config)
    ensures var r := DupeStage(wrong, toCheck, o, cfg).reason;
            r == DupedItemsTag || r == "REVIEW" || r == "VALID"
  {
  }

  /** Every decision after valuation carries one of the later reasons, or
      there is no decision. */
  lemma CurrencyStageReason(offer: Offer, cl: Classification, t: Tally, o: Oracles, cfg: Config, risk: RiskChecks)
    ensures var d := CurrencyStage(offer, cl, t, o, cfg, risk);
            d.Some? ==> LaterReason(d.value.reason)
  {
    var t' := if cl.contains.keys && !cl.contains.items then KeyStockCheck(t, offer, o) else t;
    var wrong := t'.wrong + (if t'.our.value > t'.their.value then [InvalidValue(t'.our.value, t'.their.value)] else []);
    DupeStageReason(wrong, t'.toCheck, o, cfg);
  }

  /** Outside admin offers, an offer is declined as holding non-TF2 items
      exactly when one of its SKUs is `unknown`, whatever its message and
      values. */
  lemma NonTf2Declined(offer: Offer, o: Oracles, cfg: Config, risk: RiskChecks)
    requires !offer.fromAdmin
    ensures Decide(offer, o, cfg, risk) == Some(Decision(Decline, NonTf2Tag, NoMeta)) <==> HasUnknown(offer)
  {
    ClassifyInvalid(offer);
    CurrencyStageReason(offer, Classify(offer), Valuation(offer, o, cfg), o, cfg, risk);
  }

  /** The gift rule, after the admin and non-TF2 checks: nothing asked and
      a gift word in the message accepts; otherwise an empty side
      declines. */
  lemma GiftRule(offer: Offer, o: Oracles, cfg: Config, risk: RiskChecks)
    requires !offer.fromAdmin && !HasUnknown(offer)
    ensures ItemCount(offer.our) == 0 && IsGiftMessage(offer.message)
            ==> Decide(offer, o, cfg, risk) == Some(Decision(Accept, "GIFT", NoMeta))
    ensures !(ItemCount(offer.our) == 0 && IsGiftMessage(offer.message))
            && (ItemCount(offer.their) == 0 || ItemCount(offer.our) == 0)
            ==> Decide(offer, o, cfg, risk) == Some(Decision(Decline, "GIFT", NoMeta))
  {
    ClassifyInvalid(offer);
  }

  /** A gift is accepted only when nothing is asked for and the message
      holds a gift word. */
  lemma GiftNeedsWordAndNothingAsked(offer: Offer, o: Oracles, cfg: Config, risk: RiskChecks)
    requires Decide(offer, o, cfg, risk) == Some(Decision(Accept, "GIFT", NoMeta))
    ensures ItemCount(offer.our) == 0 && IsGiftMessage(offer.message)
  {
    CurrencyStageReason(offer, Classify(offer), Valuation(offer, o, cfg), o, cfg, risk);
  }

  /** "gift" in any letter case anywhere in the message makes it a gift
      message ("Happy birthday GIFT!", say). */
  lemma GiftAnywhere(message: string, k: nat)
    requires k + 4 <= |message| && ToLower(message[k..k + 4]) == "gift"
    ensures IsGiftMessage(message)
  {
    var m := ToLower(message);
    var w := ToLower(message[k..k + 4]);
    assert m[k..][..4] == w by {
      forall i | 0 <= i < 4
        ensures m[k..][..4][i] == w[i]
      {
        assert message[k..k + 4][i] == message[k + i];
      }
    }
    IncludesAt(m, "gift", k);
    assert GiftWords[0] == "gift";
  }

  /** A partner asking for nothing, with "gift" somewhere in the message,
      gets the offer accepted as a gift. */
  lemma GiftAccepted(offer: Offer, o: Oracles, cfg: Config, risk: RiskChecks, k: nat)
    requires offer.our == [] && !offer.fromAdmin
    requires k + 4 <= |offer.message| && ToLower(offer.message[k..k + 4]) == "gift"
    requires forall i :: 0 <= i < |offer.their| ==> offer.their[i].sku != UnknownSku
    ensures Decide(offer, o, cfg, risk) == Some(Decision(Accept, "GIFT", NoMeta))
  {
    GiftAnywhere(offer.message, k);
    GiftRule(offer, o, cfg, risk);
  }

  /** Every decision carries one of the pipeline's reasons. */
  lemma DecisionReasons(offer: Offer, o: Oracles, cfg: Config, risk: RiskChecks)
    requires Decide(offer, o, cfg, risk).Some?
    ensures var r := Decide(offer, o, cfg, risk).value.reason;
            r in ["ADMIN", NonTf2Tag, "GIFT"] || LaterReason(r)
  {
    CurrencyStageReason(offer, Classify(offer), Valuation(offer, o, cfg), o, cfg, risk);
  }

  /** An offer that gets past the first checks: not an admin's, all TF2,
      not an accepted gift, and something on both sides. */
  predicate PastFirstChecks(offer: Offer)
  {
    !offer.fromAdmin && !HasUnknown(offer)
    && ItemCount(offer.our) > 0 && ItemCount(offer.their) > 0
  }

  lemma PastFirstChecksReachesCurrency(offer: Offer, o: Oracles, cfg: Config, risk: RiskChecks)
    requires PastFirstChecks(offer)
    ensures Decide(offer, o, cfg, risk) == CurrencyStage(offer, Classify(offer), Valuation(offer, o, cfg), o, cfg, risk)
  {
    ClassifyInvalid(offer);
  }

  /* ------------------------------------------------ valuation */

  /** Scrap, reclaimed and refined add 1, 3 and 9 scrap per item to their
      side's value and scrap, and change nothing else. */
  lemma MetalValue(t: Tally, buying: bool, g: Group, env: Env)
    requires IsMetal(g.sku)
    ensures var w := if g.sku == ScrapSku then 1 else if g.sku == ReclaimedSku then 3 else 9;
            var add := Totals(w * |g.assetids|, 0, w * |g.assetids|);
            ValueGroup(t, buying, g, env)
            == if buying then t.(their := AddTotals(t.their, add)) else t.(our := AddTotals(t.our, add))
  {
  }

  /** A priced item is valued at the buy price on their side and at the
      sell price on ours; the other side is unchanged and no invalid item is
      recorded. */
  lemma PricedValue(t: Tally, buying: bool, g: Group, env: Env)
    requires !IsMetal(g.sku) && env.o.getPrice(g.sku).Some?
    requires g.sku != KeySku || !env.containsItems
    ensures var e := env.o.getPrice(g.sku).value;
            var r := ValueGroup(t, buying, g, env);
            var p := if buying then e.buy else e.sell;
            (if buying then r.their == AddTotals(t.their, Totals(p.value * |g.assetids|, p.keys * |g.assetids|, p.scrap * |g.assetids|)) && r.our == t.our
             else r.our == AddTotals(t.our, Totals(p.value * |g.assetids|, p.keys * |g.assetids|, p.scrap * |g.assetids|)) && r.their == t.their)
            && r.invalidAgain == t.invalidAgain
            && r.wrong == t.wrong + OverstockCheck(g.sku, env.diff, env.o)
  {
  }

  /** The item is unpriced in the sense of the valuation loop: not metal, no
      price entry, and not a key beside non-currency items. */
  predicate Unpriced(sku: Sku, env: Env)
  {
    !IsMetal(sku) && env.o.getPrice(sku).None? && !(sku == KeySku && env.containsItems)
  }

  /** The intent test beside the missing-price test never decides: an
      invalid item is recorded exactly for unpriced items, whatever the
      entry's intent. */
  lemma InvalidItemsExactlyUnpriced(t: Tally, buying: bool, g: Group, env: Env)
    ensures var r := ValueGroup(t, buying, g, env);
            r.wrong == t.wrong + [InvalidItems(g.sku, buying, |g.assetids|)] <==> Unpriced(g.sku, env)
  {
    var r := ValueGroup(t, buying, g, env);
    var entry := env.o.getPrice(g.sku);
    if !IsMetal(g.sku) && entry.Some? && (g.sku != KeySku || !env.containsItems) {
      var over := OverstockCheck(g.sku, env.diff, env.o);
      if over != [] {
        assert r.wrong[|t.wrong|] == over[0];
      }
    }
  }

  /** The stock check records `OVERSTOCKED` exactly when the difference is
      non-zero and exceeds what may be traded in its direction. */
  lemma OverstockExactly(sku: Sku, diff: map<Sku, int>, o: Oracles)
    ensures OverstockCheck(sku, diff, o) != []
            <==> sku in diff && diff[sku] != 0 && o.amountCanTrade(sku, diff[sku] > 0) < diff[sku]
    ensures |OverstockCheck(sku, diff, o)| <= 1
  {
  }

  /** With a non-negative allowance, only a positive difference (we would
      receive more) can be overstocked. */
  lemma OverstockOnlyWhenReceiving(sku: Sku, diff: map<Sku, int>, o: Oracles)
    requires OverstockCheck(sku, diff, o) != []
    requires o.amountCanTrade(sku, diff[sku] > 0) >= 0
    ensures diff[sku] > 0
  {
  }

  /** In a key-only offer whose keys are priced, `5021;6` is stock-checked
      twice: once as a priced group during valuation and once more by the
      key-only branch. One key received beyond the allowance is therefore
      recorded as overstocked twice, and without manual review the offer is
      declined with both entries leading its reasons. */
  lemma KeyOverstockRecordedTwice(offer: Offer, o: Oracles, cfg: Config, risk: RiskChecks, a: AssetId, k: AssetId)
    requires offer.our == [Group(RefinedSku, [a])] && offer.their == [Group(KeySku, [k])]
    requires offer.diff == map[KeySku := 1] && !offer.fromAdmin
    requires o.getPrice(KeySku).Some?
    requires o.getPrice(KeySku).value.intent == 0 || o.getPrice(KeySku).value.intent == 2
    requires o.amountCanTrade(KeySku, true) == 0
    ensures var ov := Overstocked(KeySku, true, 1, 0);
            KeyStockCheck(Valuation(offer, o, cfg), offer, o).wrong == [ov, ov]
    ensures var ov := Overstocked(KeySku, true, 1, 0);
            var d := Decide(offer, o, cfg, risk);
            !cfg.manualReview ==>
              d.Some? && d.value.action == Decline && d.value.reason == OverstockedTag
              && d.value.meta.Reasons? && |d.value.meta.reasons| >= 2 && d.value.meta.reasons[..2] == [ov, ov]
  {
    var ov := Overstocked(KeySku, true, 1, 0);
    ClassifyContents(offer);
    assert offer.our[..0] == [] && offer.their[..0] == [];
    assert !SomeItem(offer.our) && !SomeItem(offer.their);
    assert RefinedSku != UnknownSku && KeySku != UnknownSku;
    assert ClassifySide(NotClassified, false, offer.our)
           == ClassifyGroup(NotClassified, false, Group(RefinedSku, [a]));
    assert !ClassifyUpTo(offer, 1).hasInvalidItems;
    assert ClassifySide(ClassifyUpTo(offer, 1), true, offer.their)
           == ClassifyGroup(ClassifyUpTo(offer, 1), true, Group(KeySku, [k]));
    assert !Classify(offer).hasInvalidItems;
    assert ItemCount(offer.our) == 1 && ItemCount(offer.their) == 1;
    var env := EnvOf(offer, o, cfg);
    assert ValueSide(EmptyTally, false, offer.our, env)
           == ValueGroup(EmptyTally, false, Group(RefinedSku, [a]), env);
    assert ValueUpTo(offer, env, 1).wrong == [];
    assert OverstockCheck(KeySku, offer.diff, o) == [ov];
    assert ValueSide(ValueUpTo(offer, env, 1), true, offer.their, env)
           == ValueGroup(ValueUpTo(offer, env, 1), true, Group(KeySku, [k]), env);
    assert ValueSide(ValueUpTo(offer, env, 1), true, offer.their, env).wrong == [ov];
    assert KeyStockCheck(Valuation(offer, o, cfg), offer, o).wrong == [ov, ov];
  }

  /** A group's valuation only appends to the reasons. */
  lemma ValueGroupExtends(t: Tally, buying: bool, g: Group, env: Env)
    ensures t.wrong <= ValueGroup(t, buying, g, env).wrong
  {
  }

  lemma {:induction false} ValueSideExtends(t: Tally, buying: bool, gs: seq<Group>, env: Env)
    ensures t.wrong <= ValueSide(t, buying, gs, env).wrong
  {
    if gs != [] {
      var init := gs[..|gs| - 1];
      ValueSideExtends(t, buying, init, env);
      ValueGroupExtends(ValueSide(t, buying, init, env), buying, gs[|gs| - 1], env);
    }
  }

  /** The loop does not stop at an unpriced item: every unpriced group of
      the side has its `INVALID_ITEMS` reason in the result. */
  lemma {:induction false} ValueSideRecordsUnpriced(t: Tally, buying: bool, gs: seq<Group>, env: Env, i: nat)
    requires i < |gs| && Unpriced(gs[i].sku, env)
    ensures InvalidItems(gs[i].sku, buying, |gs[i].assetids|) in ValueSide(t, buying, gs, env).wrong
  {
    var init := gs[..|gs| - 1];
    var before := ValueSide(t, buying, init, env);
    InvalidItemsExactlyUnpriced(before, buying, gs[|gs| - 1], env);
    if i == |gs| - 1 {
      var w := ValueGroup(before, buying, gs[i], env).wrong;
      assert w[|before.wrong|] == InvalidItems(gs[i].sku, buying, |gs[i].assetids|);
    } else {
      assert init[i] == gs[i];
      ValueSideRecordsUnpriced(t, buying, init, env, i);
      ValueGroupExtends(before, buying, gs[|gs| - 1], env);
    }
  }

  /** Every unpriced item of either side ends up among the reasons. */
  lemma UnpricedRecorded(offer: Offer, o: Oracles, cfg: Config)
    ensures forall i :: 0 <= i < |offer.our| && Unpriced(offer.our[i].sku, EnvOf(offer, o, cfg))
              ==> InvalidItems(offer.our[i].sku, false, |offer.our[i].assetids|) in Valuation(offer, o, cfg).wrong
    ensures forall i :: 0 <= i < |offer.their| && Unpriced(offer.their[i].sku, EnvOf(offer, o, cfg))
              ==> InvalidItems(offer.their[i].sku, true, |offer.their[i].assetids|) in Valuation(offer, o, cfg).wrong
  {
    var env := EnvOf(offer, o, cfg);
    var mid := ValueUpTo(offer, env, 1);
    forall i | 0 <= i < |offer.our| && Unpriced(offer.our[i].sku, env)
      ensures InvalidItems(offer.our[i].sku, false, |offer.our[i].assetids|) in Valuation(offer, o, cfg).wrong
    {
      ValueSideRecordsUnpriced(EmptyTally, false, offer.our, env, i);
      ValueSideExtends(mid, true, offer.their, env);
    }
    forall i | 0 <= i < |offer.their| && Unpriced(offer.their[i].sku, env)
      ensures InvalidItems(offer.their[i].sku, true, |offer.their[i].assetids|) in Valuation(offer, o, cfg).wrong
    {
      ValueSideRecordsUnpriced(mid, true, offer.their, env, i);
    }
  }

  /* ------------------------------------------------ after valuation */

  /** The stages after the currency checks never give their reasons. */
  lemma ValueStageReason(t: Tally, o: Oracles, cfg: Config, risk: RiskChecks)
    ensures var d := ValueStage(t, o, cfg, risk);
            d.Some? ==> d.value.reason != "ONLY_METAL" && d.value.reason != "NOT_TRADING_KEYS"
  {
    var wrong := t.wrong + (if t.our.value > t.their.value then [InvalidValue(t.our.value, t.their.value)] else []);
    DupeStageReason(wrong, t.toCheck, o, cfg);
  }

  /** Past the first checks, an offer is declined as metal only exactly
      when every item type on both sides is scrap, reclaimed or refined. */
  lemma OnlyMetalDeclined(offer: Offer, o: Oracles, cfg: Config, risk: RiskChecks)
    requires PastFirstChecks(offer)
    ensures Decide(offer, o, cfg, risk) == Some(Decision(Decline, "ONLY_METAL", NoMeta))
            <==> (forall i :: 0 <= i < |offer.our| ==> IsMetal(offer.our[i].sku))
                 && (forall i :: 0 <= i < |offer.their| ==> IsMetal(offer.their[i].sku))
  {
    PastFirstChecksReachesCurrency(offer, o, cfg, risk);
    ClassifyContents(offer);
    var t := Valuation(offer, o, cfg);
    ValueStageReason(t, o, cfg, risk);
    ValueStageReason(KeyStockCheck(t, offer, o), o, cfg, risk);
    assert offer.our != [];
    if (forall i :: 0 <= i < |offer.our| ==> IsMetal(offer.our[i].sku))
       && (forall i :: 0 <= i < |offer.their| ==> IsMetal(offer.their[i].sku)) {
      assert IsMetal(offer.our[0].sku);
    }
  }

  /** Past the first checks, an offer of keys (and perhaps metal) only is
      declined as `NOT_TRADING_KEYS` exactly when keys have no price entry,
      or we give keys and the entry's intent is neither selling (1) nor
      both (2), or they give keys and it is neither buying (0) nor both.
      Otherwise the keys' stock check is added and the value checks
      follow. */
  lemma KeysOnlyRefused(offer: Offer, o: Oracles, cfg: Config, risk: RiskChecks)
    requires PastFirstChecks(offer)
    requires !SomeItem(offer.our) && !SomeItem(offer.their)
    requires SomeKey(offer.our) || SomeKey(offer.their)
    ensures var e := o.getPrice(KeySku);
            var refused := e.None?
              || (SomeKey(offer.our) && e.value.intent != 1 && e.value.intent != 2)
              || (SomeKey(offer.their) && e.value.intent != 0 && e.value.intent != 2);
            (refused <==> Decide(offer, o, cfg, risk) == Some(Decision(Decline, "NOT_TRADING_KEYS", NoMeta)))
            && (!refused ==> Decide(offer, o, cfg, risk)
                             == ValueStage(KeyStockCheck(Valuation(offer, o, cfg), offer, o), o, cfg, risk))
  {
    PastFirstChecksReachesCurrency(offer, o, cfg, risk);
    ClassifyContents(offer);
    ValueStageReason(KeyStockCheck(Valuation(offer, o, cfg), offer, o), o, cfg, risk);
  }

  /** Without manual review an overstock is declined first, and the
      reasons also carry the invalid value when there is one. */
  lemma OverstockDeclinedFirst(t: Tally, o: Oracles, cfg: Config, risk: RiskChecks)
    requires !cfg.manualReview && t.hasOverstock
    ensures ValueStage(t, o, cfg, risk) == Some(Decision(Decline, OverstockedTag, ReasonsMeta(
              t.wrong + (if t.our.value > t.their.value then [InvalidValue(t.our.value, t.their.value)] else []))))
  {
  }

  /** Without manual review and without overstock, asking for more than is
      offered is declined as an invalid value. */
  lemma InvalidValueDeclined(t: Tally, o: Oracles, cfg: Config, risk: RiskChecks)
    requires !cfg.manualReview && !t.hasOverstock && t.our.value > t.their.value
    ensures ValueStage(t, o, cfg, risk)
            == Some(Decision(Decline, InvalidValueTag, ReasonsMeta(t.wrong + [InvalidValue(t.our.value, t.their.value)])))
  {
  }

  /** Overpay is declined when disallowed, unless a fail-fast decline came
      first. */
  lemma OverpayDeclined(t: Tally, o: Oracles, cfg: Config, risk: RiskChecks)
    requires t.our.value < t.their.value && !cfg.allowOverpay
    requires cfg.manualReview || !t.hasOverstock
    ensures ValueStage(t, o, cfg, risk) == Some(Decision(Decline, "OVERPAY", NoMeta))
  {
  }

  /** The escrow check comes before the ban check: a failing escrow check
      leaves the offer undecided and an escrow hold declines, whatever the
      ban check says. */
  lemma EscrowBeforeBan(wrong: seq<Wrong>, toCheck: seq<AssetId>, o: Oracles, cfg: Config, risk: RiskChecks)
    ensures risk.escrow.Failure? ==> RiskStage(wrong, toCheck, o, cfg, risk) == None
    ensures risk.escrow == Success(true) ==> RiskStage(wrong, toCheck, o, cfg, risk) == Some(Decision(Decline, "ESCROW", NoMeta))
    ensures risk.escrow == Success(false) && risk.banned.Failure? ==> RiskStage(wrong, toCheck, o, cfg, risk) == None
    ensures risk.escrow == Success(false) && risk.banned == Success(true)
            ==> RiskStage(wrong, toCheck, o, cfg, risk) == Some(Decision(Decline, "BANNED", NoMeta))
  {
  }

  /** The pipeline ends without a decision only when a risk check failed. */
  lemma UndecidedOnlyOnRiskFailure(offer: Offer, o: Oracles, cfg: Config, risk: RiskChecks)
    requires Decide(offer, o, cfg, risk).None?
    ensures risk.escrow.Failure? || (risk.escrow == Success(false) && risk.banned.Failure?)
  {
  }

  /** The second write of `hasInvalidItems` during valuation has no later
      effect. */
  lemma InvalidAgainIgnored(offer: Offer, cl: Classification, t: Tally, o: Oracles, cfg: Config, risk: RiskChecks, b: bool)
    ensures CurrencyStage(offer, cl, t, o, cfg, risk) == CurrencyStage(offer, cl, t.(invalidAgain := b), o, cfg, risk)
  {
    assert KeyStockCheck(t.(invalidAgain := b), offer, o) == KeyStockCheck(t, offer, o).(invalidAgain := b);
  }

  /* ------------------------------------------------ dupe checks */

  /** The batch stops at the first error: its message is that of a check
      after only successful ones. */
  lemma {:induction false} SeriesStopsAtFirstError(ids: seq<AssetId>, isDuped: AssetId -> DupeAnswer)
    requires Series(ids, isDuped).Thrown?
    ensures exists k :: 0 <= k < |ids| && isDuped(ids[k]) == CheckError(Series(ids, isDuped).message)
                        && forall j :: 0 <= j < k ==> isDuped(ids[j]).Answer?
  {
    if isDuped(ids[0]).CheckError? {
      assert isDuped(ids[0]) == CheckError(Series(ids, isDuped).message);
    } else {
      SeriesStopsAtFirstError(ids[1..], isDuped);
      var k :| 0 <= k < |ids[1..]| && isDuped(ids[1..][k]) == CheckError(Series(ids[1..], isDuped).message)
               && forall j :: 0 <= j < k ==> isDuped(ids[1..][j]).Answer?;
      assert isDuped(ids[k + 1]) == CheckError(Series(ids, isDuped).message);
      forall j | 0 <= j < k + 1
        ensures isDuped(ids[j]).Answer?
      {
        if j > 0 {
          assert ids[j] == ids[1..][j - 1];
        }
      }
    }
  }

  /** The results answer each asset id in order. */
  lemma {:induction false} SeriesAnswers(ids: seq<AssetId>, isDuped: AssetId -> DupeAnswer, i: nat)
    requires Series(ids, isDuped).Results? && i < |ids|
    ensures isDuped(ids[i]) == Answer(Series(ids, isDuped).result[i])
  {
    if i > 0 {
      SeriesAnswers(ids[1..], isDuped, i - 1);
    }
  }

  /** When dupes are declined the scan stops exactly when some result says
      duped. */
  lemma {:induction false} ScanFindsDupe(ids: seq<AssetId>, rs: seq<Option<bool>>)
    requires |rs| <= |ids|
    ensures ScanDupes(ids, rs, true) == FoundDupe <==> exists i :: 0 <= i < |rs| && rs[i] == Some(true)
  {
    if rs != [] {
      var k := |rs| - 1;
      ScanFindsDupe(ids, rs[..k]);
      if exists i :: 0 <= i < |rs| && rs[i] == Some(true) {
        var i :| 0 <= i < |rs| && rs[i] == Some(true);
        if i < k {
          assert rs[..k][i] == rs[i];
        }
      }
      if exists i :: 0 <= i < k && rs[..k][i] == Some(true) {
        var i :| 0 <= i < k && rs[..k][i] == Some(true);
        assert rs[i] == Some(true);
      }
    }
  }

  /** When no result says duped, or dupes are not declined, the scan
      never stops, and every duped and every undetermined result adds its
      reason. */
  lemma {:induction false} ScanFlagsAll(ids: seq<AssetId>, rs: seq<Option<bool>>, declineDupes: bool, i: nat)
    requires |rs| <= |ids| && i < |rs|
    requires declineDupes ==> forall j :: 0 <= j < |rs| ==> rs[j] != Some(true)
    ensures ScanDupes(ids, rs, declineDupes).Flagged?
    ensures rs[i] == Some(true) ==> DupedItems(ids[i]) in ScanDupes(ids, rs, declineDupes).ws
    ensures rs[i] == None ==> DupeCheckFailed(Some(ids[i]), None) in ScanDupes(ids, rs, declineDupes).ws
  {
    var k := |rs| - 1;
    assert forall j :: 0 <= j < k ==> rs[..k][j] == rs[j];
    if i < k {
      ScanFlagsAll(ids, rs[..k], declineDupes, i);
    } else if k > 0 {
      ScanFlagsAll(ids, rs[..k], declineDupes, 0);
    }
  }

  /** A duped item with dupes declined: the offer is declined as duped. */
  lemma DupeDeclined(wrong: seq<Wrong>, toCheck: seq<AssetId>, o: Oracles, cfg: Config, i: nat)
    requires cfg.dupeCheckEnabled && cfg.declineDupes && i < |toCheck|
    requires o.isDuped(toCheck[i]) == Answer(Some(true))
    requires Series(toCheck, o.isDuped).Results?
    ensures DupeStage(wrong, toCheck, o, cfg)
            == Decision(Decline, DupedItemsTag, Dupes(toCheck, Series(toCheck, o.isDuped).result))
  {
    var rs := Series(toCheck, o.isDuped).result;
    SeriesAnswers(toCheck, o.isDuped, i);
    ScanFindsDupe(toCheck, rs);
  }

  /** An item whose check is undetermined, with no item found duped: the
      offer is held for review, and the reasons keep those recorded before
      and name that item as `DUPE_CHECK_FAILED`, whether or not dupes are
      declined. */
  lemma UndeterminedReviewed(wrong: seq<Wrong>, toCheck: seq<AssetId>, o: Oracles, cfg: Config, i: nat)
    requires cfg.dupeCheckEnabled && i < |toCheck|
    requires Series(toCheck, o.isDuped).Results?
    requires forall j :: 0 <= j < |toCheck| ==> o.isDuped(toCheck[j]) != Answer(Some(true))
    requires o.isDuped(toCheck[i]) == Answer(None)
    ensures var d := DupeStage(wrong, toCheck, o, cfg);
            d.action == Skip && d.reason == "REVIEW" && d.meta.Reasons?
            && d.meta.uniqueReasons == Tags(d.meta.reasons)
            && wrong <= d.meta.reasons
            && DupeCheckFailed(Some(toCheck[i]), None) in d.meta.reasons
  {
    var rs := Series(toCheck, o.isDuped).result;
    forall j | 0 <= j < |rs|
      ensures rs[j] != Some(true)
    {
      SeriesAnswers(toCheck, o.isDuped, j);
    }
    SeriesAnswers(toCheck, o.isDuped, i);
    ScanFlagsAll(toCheck, rs, cfg.declineDupes, i);
    var ws := ScanDupes(toCheck, rs, cfg.declineDupes).ws;
    UniqueReasonsIsIdentity(wrong + ws);
  }

  /** A batch that throws adds exactly one `DUPE_CHECK_FAILED` reason with
      the error, and the offer is held for review. */
  lemma ThrownBatchReviewed(wrong: seq<Wrong>, toCheck: seq<AssetId>, o: Oracles, cfg: Config)
    requires cfg.dupeCheckEnabled && |toCheck| > 0
    requires Series(toCheck, o.isDuped).Thrown?
    ensures var ws := wrong + [DupeCheckFailed(None, Some(Series(toCheck, o.isDuped).message))];
            DupeStage(wrong, toCheck, o, cfg) == Decision(Skip, "REVIEW", Reasons(Tags(ws), ws))
  {
    var ws := wrong + [DupeCheckFailed(None, Some(Series(toCheck, o.isDuped).message))];
    UniqueReasonsIsIdentity(ws);
  }

  /* ------------------------------------------------ synthesis */

  lemma {:induction false} FilterKeepsIncluded(xs: seq<string>, all: seq<string>)
    requires forall x :: x in xs ==> x in all
    ensures FilterIncluded(xs, all) == xs
  {
    if xs != [] {
      FilterKeepsIncluded(xs[1..], all);
    }
  }

  /** `uniqueReasons` removes nothing: it is the list of reasons itself,
      duplicates included. */
  lemma UniqueReasonsIsIdentity(ws: seq<Wrong>)
    ensures UniqueReasons(ws) == Tags(ws)
  {
    FilterKeepsIncluded(Tags(ws), Tags(ws));
  }

  /** The final synthesis: held for review with every recorded reason when
      any was recorded, otherwise accepted as valid. */
  lemma SynthesisRule(ws: seq<Wrong>)
    ensures |ws| > 0 ==> Synthesize(ws) == Decision(Skip, "REVIEW", Reasons(Tags(ws), ws))
    ensures |ws| == 0 <==> Synthesize(ws) == Decision(Accept, "VALID", NoMeta)
  {
    UniqueReasonsIsIdentity(ws);
  }

  /** Reasons recorded before the dupe checks stay in the final list. */
  lemma DupeStageKeepsReasons(wrong: seq<Wrong>, toCheck: seq<AssetId>, o: Oracles, cfg: Config)
    requires DupeStage(wrong, toCheck, o, cfg).meta.Reasons?
    ensures wrong <= DupeStage(wrong, toCheck, o, cfg).meta.reasons
  {
  }

  /** An invalid value is always among the reasons reported after
      valuation. */
  lemma InvalidValueReported(t: Tally, o: Oracles, cfg: Config, risk: RiskChecks)
    requires t.our.value > t.their.value
    requires ValueStage(t, o, cfg, risk).Some? && ValueStage(t, o, cfg, risk).value.meta.Reasons?
    ensures InvalidValue(t.our.value, t.their.value) in ValueStage(t, o, cfg, risk).value.meta.reasons
  {
    var wrong := t.wrong + [InvalidValue(t.our.value, t.their.value)];
    assert wrong[|t.wrong|] == InvalidValue(t.our.value, t.their.value);
    if cfg.manualReview && !(t.our.value < t.their.value && !cfg.allowOverpay) {
      DupeStageKeepsReasons(wrong, t.toCheck, o, cfg);
    }
  }
}
