/** `keepMetalSupply` of src/classes/MyHandler.ts: keep the scrap and
    reclaimed counts inside their bands by combining (3 of a metal into 1 of
    the next) or smelting (1 of a metal into 3 of the previous). */
module MetalSupply {

  /** The three settings `MINIMUM_SCRAP`, `MINIMUM_RECLAIMED` and
      `METAL_THRESHOLD` (each 9 unless the environment gives a number). */
  datatype Settings = Settings(minimumScrap: int, minimumReclaimed: int, combineThreshold: int)
  {
    function MaxScrap(): int { minimumScrap + combineThreshold }
    function MaxReclaimed(): int { minimumReclaimed + combineThreshold }
  }

  const DefaultSettings := Settings(9, 9, 9)

  /** The four operation counts. */
  datatype Plan = Plan(combineScrap: nat, combineReclaimed: nat, smeltRefined: nat, smeltReclaimed: nat)

  /** The counts together with the reclaimed and scrap the source's local
      variables hold once both steps are done. */
  datatype Outcome = Outcome(plan: Plan, reclaimed: int, scrap: int)

  /** One call into the game coordinator. */
  datatype GcCall = CombineMetal(defindex: int) | SmeltMetal(defindex: int)

  /** `Math.ceil(gap / 3)` for a positive gap. */
  function CeilThird(gap: int): (n: nat)
    requires gap > 0
    ensures n > 0 && 3 * n >= gap && 3 * (n - 1) < gap
  {
    (gap + 2) / 3
  }

  /** The counting part of `keepMetalSupply`: reclaimed first, then scrap
      (whose combines add reclaimed and whose smelts use it up). */
  function Rebalance(reclaimed: int, scrap: int, s: Settings): (o: Outcome)
    // at most one of combine / smelt per denomination
    ensures o.plan.combineReclaimed == 0 || o.plan.smeltRefined == 0
    ensures o.plan.combineScrap == 0 || o.plan.smeltReclaimed == 0
    // reclaimed: combine exactly when above the band, smelt exactly when below
    ensures o.plan.combineReclaimed > 0 <==> reclaimed > s.MaxReclaimed()
    ensures o.plan.smeltRefined > 0 <==> reclaimed < s.minimumReclaimed && reclaimed <= s.MaxReclaimed()
    ensures o.plan.combineReclaimed > 0 ==>
              s.MaxReclaimed() - 3 < reclaimed - 3 * o.plan.combineReclaimed <= s.MaxReclaimed()
    ensures o.plan.smeltRefined > 0 ==>
              s.minimumReclaimed <= reclaimed + 3 * o.plan.smeltRefined < s.minimumReclaimed + 3
    // scrap: the same rule against its own band
    ensures o.plan.combineScrap > 0 <==> scrap > s.MaxScrap()
    ensures o.plan.smeltReclaimed > 0 <==> scrap < s.minimumScrap && scrap <= s.MaxScrap()
    ensures o.plan.combineScrap > 0 ==> s.MaxScrap() - 3 < o.scrap <= s.MaxScrap()
    ensures o.plan.smeltReclaimed > 0 ==> s.minimumScrap <= o.scrap < s.minimumScrap + 3
    ensures s.minimumScrap <= scrap <= s.MaxScrap() ==> o.scrap == scrap
    // where the metal goes
    ensures o.scrap == scrap - 3 * o.plan.combineScrap + 3 * o.plan.smeltReclaimed
    ensures o.reclaimed == reclaimed - 3 * o.plan.combineReclaimed + 3 * o.plan.smeltRefined
                           + o.plan.combineScrap - o.plan.smeltReclaimed
  {
    var maxReclaimed, maxScrap := s.MaxReclaimed(), s.MaxScrap();
    var combineReclaimed := if reclaimed > maxReclaimed then CeilThird(reclaimed - maxReclaimed) else 0;
    var smeltRefined := if reclaimed > maxReclaimed then 0
                        else if s.minimumReclaimed > reclaimed then CeilThird(s.minimumReclaimed - reclaimed) else 0;
    var r1 := reclaimed - 3 * combineReclaimed + 3 * smeltRefined;
    var combineScrap := if scrap > maxScrap then CeilThird(scrap - maxScrap) else 0;
    var smeltReclaimed := if scrap > maxScrap then 0
                          else if s.minimumScrap > scrap then CeilThird(s.minimumScrap - scrap) else 0;
    Outcome(Plan(combineScrap, combineReclaimed, smeltRefined, smeltReclaimed),
            r1 + combineScrap - smeltReclaimed,
            scrap - 3 * combineScrap + 3 * smeltReclaimed)
  }

  function Repeat(c: GcCall, n: nat): (r: seq<GcCall>)
    ensures |r| == n && forall i :: 0 <= i < n ==> r[i] == c
  {
    if n == 0 then [] else Repeat(c, n - 1) + [c]
  }

  /** The calls issued for a plan, in the source's order: combine scrap,
      combine reclaimed, smelt refined, smelt reclaimed. */
  function CallsFor(p: Plan): seq<GcCall>
  {
    Repeat(CombineMetal(5000), p.combineScrap) + Repeat(CombineMetal(5001), p.combineReclaimed)
    + Repeat(SmeltMetal(5002), p.smeltRefined) + Repeat(SmeltMetal(5001), p.smeltReclaimed)
  }

  /** `keepMetalSupply`: step the counters, then issue exactly that many
      combine and smelt calls. */
  method KeepMetalSupply(reclaimedCount: nat, scrapCount: nat, s: Settings) returns (plan: Plan, calls: seq<GcCall>)
    ensures plan == Rebalance(reclaimedCount, scrapCount, s).plan
    ensures calls == CallsFor(plan)
  {
    var reclaimed, scrap := reclaimedCount, scrapCount;
    var maxReclaimed := s.minimumReclaimed + s.combineThreshold;
    var maxScrap := s.minimumScrap + s.combineThreshold;
    var minReclaimed, minScrap := s.minimumReclaimed, s.minimumScrap;

    var smeltReclaimed, smeltRefined, combineScrap, combineReclaimed := 0, 0, 0, 0;

    if reclaimed > maxReclaimed {
      combineReclaimed := CeilThird(reclaimed - maxReclaimed);
      reclaimed := reclaimed - combineReclaimed * 3;
    } else if minReclaimed > reclaimed {
      smeltRefined := CeilThird(minReclaimed - reclaimed);
      reclaimed := reclaimed + smeltRefined * 3;
    }

    if scrap > maxScrap {
      combineScrap := CeilThird(scrap - maxScrap);
      reclaimed := reclaimed + combineScrap;
      scrap := scrap - combineScrap * 3;
    } else if minScrap > scrap {
      smeltReclaimed := CeilThird(minScrap - scrap);
      scrap := scrap + smeltReclaimed * 3;
      reclaimed := reclaimed - smeltReclaimed;
    }

    plan := Plan(combineScrap, combineReclaimed, smeltRefined, smeltReclaimed);
    calls := [];
    for i := 0 to combineScrap
      invariant calls == Repeat(CombineMetal(5000), i)
    {
      calls := calls + [CombineMetal(5000)];
    }
    ghost var done := calls;
    for i := 0 to combineReclaimed
      invariant calls == done + Repeat(CombineMetal(5001), i)
    {
      calls := calls + [CombineMetal(5001)];
    }
    done := calls;
    for i := 0 to smeltRefined
      invariant calls == done + Repeat(SmeltMetal(5002), i)
    {
      calls := calls + [SmeltMetal(5002)];
    }
    done := calls;
    for i := 0 to smeltReclaimed
      invariant calls == done + Repeat(SmeltMetal(5001), i)
    {
      calls := calls + [SmeltMetal(5001)];
    }
  }

  /** Counts already inside both bands ask for no operation and no call. */
  lemma WithinBandsIsIdle(reclaimed: int, scrap: int, s: Settings)
    requires s.minimumReclaimed <= reclaimed <= s.MaxReclaimed()
    requires s.minimumScrap <= scrap <= s.MaxScrap()
    ensures Rebalance(reclaimed, scrap, s).plan == Plan(0, 0, 0, 0)
    ensures CallsFor(Rebalance(reclaimed, scrap, s).plan) == []
  {
  }

  /** Combining and smelting only move metal between denominations: the
      total worth in scrap (1 / 3 / 9 per scrap / reclaimed / refined) after
      the planned operations equals the worth before. */
  lemma WorthIsConserved(refined: int, reclaimed: int, scrap: int, s: Settings)
    ensures var o := Rebalance(reclaimed, scrap, s);
            var refinedAfter := refined + o.plan.combineReclaimed - o.plan.smeltRefined;
            o.scrap + 3 * o.reclaimed + 9 * refinedAfter == scrap + 3 * reclaimed + 9 * refined
  {
  }

  /** With a threshold of at least 2, scrap always lands inside its band. */
  lemma ScrapLandsInBand(reclaimed: int, scrap: int, s: Settings)
    requires s.combineThreshold >= 2
    ensures s.minimumScrap <= Rebalance(reclaimed, scrap, s).scrap <= s.MaxScrap()
  {
  }

  /** One pass is not always enough: with the default settings, 18 reclaimed
      (the top of its band) and 30 scrap, the four scrap combines push
      reclaimed to 22, and a second pass combines reclaimed again. */
  lemma SecondPassNotIdle()
    ensures var o := Rebalance(18, 30, DefaultSettings);
            o.plan == Plan(4, 0, 0, 0) && o.reclaimed == 22 && o.scrap == 18
            && Rebalance(o.reclaimed, o.scrap, DefaultSettings).plan == Plan(0, 2, 0, 0)
  {
    assert CeilThird(12) == 4;
    assert CeilThird(4) == 2;
  }
}
