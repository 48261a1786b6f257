# tf2-automatic trading core in Dafny

This project models the decision core of the tf2-automatic Steam trading
bot and proves properties of the model. It covers five parts:

- **`onNewTradeOffer`** (`src/classes/MyHandler.ts`) decides whether an
  incoming offer is accepted, declined or held for review, or gets no
  decision. The module is `OfferDecision`.
  - The method `OfferDecision.OnNewTradeOffer` runs the source's loops:
    - classification over `states = [false, true]` and each side's item
      types;
    - valuation with the stock-limit checks;
    - the scan of the dupe-check results.
  - Its contract ties its result to `OfferDecision.Decide`, a function of
    the offer, the collaborators, the settings and the risk-check answers.
  - The module `DecisionProperties` proves what the pipeline promises about
    `Decide` and its stages:
    - the order of the checks;
    - the gift rule;
    - how each item type is valued;
    - when `OVERSTOCKED` and `INVALID_ITEMS` are recorded;
    - the dupe handling;
    - the final synthesis.
- **`keepMetalSupply`** (same file) computes how many scrap and reclaimed
  metal to combine or smelt so that both counts stay inside their bands,
  then issues those game-coordinator calls. The module is `MetalSupply`.
- **`checkFriendsCount`** (same file) selects the friends to remove when
  the friend list comes within 20 of its limit. The module is
  `FriendsPruning`.
- **`app/queue.js`** is the queue of pending offers. The module is
  `PendingQueue`.
  - The class `PendingQueue.Queue` holds:
    - the `QUEUE` array as a `seq` field;
    - a `savePending` flag standing for the armed write timer;
    - the last contents written to the queue file.
  - `getLength` is the function `Queue.Length`.
- **`summarize.ts` and `summarizeWithLink.ts`** are the plain and linked
  offer summaries. The modules are `Summarize` and `SummarizeWithLink`.

The collaborators are parameters, as functions of their arguments:

- the price list;
- the key price in scrap;
- `amountCanTrade`;
- the unusual-effect test;
- the dupe service;
- the item-name lookup;
- the currency library's rendering and valuation.

Item dictionaries are sequences of (SKU, asset ids) groups in dictionary
order. The helper modules are:

- `Wrappers`: `Option` and `Result`;
- `Text`: join, number rendering, ASCII lower-casing and substring search;
- `Items`: SKUs, metal worth, dictionary entries.

### How the model reads the code

The model follows the code where the code does something surprising:

- **`uniqueReasons`** is `reasons.filter(r => reasons.includes(r))`. That is
  the identity, so no reason is ever deduplicated
  (`DecisionProperties.UniqueReasonsIsIdentity`).
- **The intent test** beside the missing-price test in valuation never
  decides. A priced item always takes one of the two branches before it
  (`DecisionProperties.InvalidItemsExactlyUnpriced`). The method keeps only
  the missing-price test and says why.
- **The second write of `hasInvalidItems`** during valuation has no later
  effect (`DecisionProperties.InvalidAgainIgnored`).
- **An item type with no entry in `offer.getDiff()`** is never overstocked.
  Both comparisons with `undefined` are false.
- **`summarize.ts` with no value.** It reads `value.their` before its
  `!value` guard, so the summary of an offer with no stored value fails.
  `Summarize.Summary` returns `Failure`. The linked summary has the guard
  first and renders the value-less format.
- **A single pass of `keepMetalSupply`** does not always leave both counts
  in their bands. Combining scrap adds reclaimed after the reclaimed step
  has run (`MetalSupply.SecondPassNotIdle`).
- **An offer that asks for nothing and gives three scrap, with no gift
  word,** is declined as `GIFT`. An empty side declines before any
  valuation (`DecisionProperties.GiftRule`).
- **`enqueueReceivedOffer`** hands `offerInQueue` the accessor `offer.id`
  (line 65), not the id `offer.id()` it stores (line 72). Loose equality
  makes a function equal to no stored id, so the duplicate check never
  fires and an offer is queued again each time it arrives. The lookup key
  is the datatype `PendingQueue.LookupKey`. `EnqueueReceivedOfferAsWritten`
  models the code as written; `EnqueueReceivedOffer` models the intended
  lookup (see Findings).
- **Key-only offers stock-check `5021;6` twice.** Keys with a price entry
  take the priced branch of valuation, which runs the overstock check
  (lines 470-486). The key-only branch then runs it again (lines 558-574).
  A key overstock is therefore recorded twice
  (`DecisionProperties.KeyOverstockRecordedTwice`).

## Model

| member | source | states |
|---|---|---|
| OfferDecision.OnNewTradeOffer | src/classes/MyHandler.ts:260-735 | the handler's decision is exactly `Decide` of the offer, collaborators, settings and risk answers, and the stored `dict` is the classification's per-side dictionary |
| OfferDecision.ClassifyItems | src/classes/MyHandler.ts:286-335 | the first pass over both sides yields exactly `Classify(offer)`: what each side contains, the non-TF2 flag and the item dictionaries |
| OfferDecision.ValueOne | src/classes/MyHandler.ts:432-511 | one item type's valuation step equals `ValueGroup`: metal worth, priced items, keys beside items, unpriced items |
| OfferDecision.ValueItems | src/classes/MyHandler.ts:427-513 | the valuation loops over both sides yield exactly `Valuation(offer)`: totals, reasons, asset ids to dupe check, overstock flag |
| OfferDecision.ScanResults | src/classes/MyHandler.ts:684-707 | the scan of dupe results stops with a decline exactly when `ScanDupes` finds a declined dupe, and otherwise returns the reasons it records |
| OfferDecision.CheckDupes | src/classes/MyHandler.ts:659-734 | dupe checks plus synthesis equal `DupeStage` |
| OfferDecision.DecideOnValue | src/classes/MyHandler.ts:578-734 | value comparison, fail-fast declines, overpay, escrow, bans and dupes equal `ValueStage` |
| OfferDecision.Series | src/classes/MyHandler.ts:660-676 | a batch that completes has one result per asset id |
| OfferDecision.FoundDupeStays | src/classes/MyHandler.ts:684-693 | once a declined dupe is found, later results do not change the outcome |
| DecisionProperties.ClassifySideInvalid | src/classes/MyHandler.ts:302-310 | a side's classification flags an invalid item iff some group on it has SKU `unknown` |
| DecisionProperties.ClassifyInvalid | src/classes/MyHandler.ts:298-333 | the offer is flagged invalid iff either side has an `unknown` SKU |
| DecisionProperties.SideContentsSnoc | src/classes/MyHandler.ts:311-320 | what a side contains grows by the kind of each item type added to it |
| DecisionProperties.ClassifySideContents | src/classes/MyHandler.ts:298-333 | one side's pass sets the overall and that side's items, metal and keys flags iff some group of the side has that kind of SKU, and leaves the other side's flags alone |
| DecisionProperties.ClassifyContents | src/classes/MyHandler.ts:286-333 | `exchange.contains` and each side's `contains` say exactly whether that side, or either side, has non-currency items, metal and keys |
| DecisionProperties.AdminBypass | src/classes/MyHandler.ts:337-340 | an admin's offer is accepted as `ADMIN` whatever it holds, `unknown` items included |
| DecisionProperties.CurrencyStageReason | src/classes/MyHandler.ts:537-734 | every decision after valuation carries one of `ONLY_METAL`, `NOT_TRADING_KEYS`, `OVERSTOCKED`, `INVALID_VALUE`, `OVERPAY`, `ESCROW`, `BANNED`, `DUPED_ITEMS`, `REVIEW` or `VALID` |
| DecisionProperties.NonTf2Declined | src/classes/MyHandler.ts:298-346 | outside admin offers, the decision is decline/`INVALID_ITEMS_CONTAINS_NON_TF2` iff some SKU is `unknown`, whatever the message and values |
| DecisionProperties.GiftRule | src/classes/MyHandler.ts:350-382 | after the admin and non-TF2 checks: nothing asked plus a gift word accepts as `GIFT`; otherwise an empty side declines as `GIFT` |
| DecisionProperties.GiftNeedsWordAndNothingAsked | src/classes/MyHandler.ts:352-379 | an accept as `GIFT` happens only when nothing is asked and the message holds a gift word |
| DecisionProperties.GiftAnywhere | src/classes/MyHandler.ts:350-375 | "gift" in any letter case at any position of the message makes it a gift message |
| DecisionProperties.GiftAccepted | src/classes/MyHandler.ts:352-378 | a non-admin offer with only TF2 items, asking for nothing, with "gift" in any case in the message, is accepted as `GIFT` |
| DecisionProperties.DecisionReasons | src/classes/MyHandler.ts:260-735 | every decision the handler reaches carries one of the handler's own reason codes |
| DecisionProperties.PastFirstChecksReachesCurrency | src/classes/MyHandler.ts:336-382 | an offer that is not an admin's, holds only TF2 items and has items on both sides reaches the currency checks with the full valuation |
| DecisionProperties.MetalValue | src/classes/MyHandler.ts:440-451 | scrap, reclaimed and refined add exactly 1, 3 and 9 scrap per item to their side's value and scrap and change nothing else |
| DecisionProperties.PricedValue | src/classes/MyHandler.ts:456-486 | a priced item adds its buy price on their side and its sell price on ours, leaves the other side alone, and records only its overstock reason |
| DecisionProperties.InvalidItemsExactlyUnpriced | src/classes/MyHandler.ts:455-510 | `INVALID_ITEMS` is appended for a group iff it is not metal, has no price entry, and is not a key beside other items; the entry's intent never matters |
| DecisionProperties.OverstockExactly | src/classes/MyHandler.ts:467-486 | `OVERSTOCKED` is recorded iff the item has a difference, it is non-zero, and `amountCanTrade` in its direction is below it; at most one entry per call |
| DecisionProperties.OverstockOnlyWhenReceiving | src/classes/MyHandler.ts:470-475 | with a non-negative allowance only a positive difference is overstocked |
| DecisionProperties.ValueSideRecordsUnpriced | src/classes/MyHandler.ts:432-511 | the loop does not stop at an unpriced item: every unpriced group of the side has its reason in the result |
| DecisionProperties.UnpricedRecorded | src/classes/MyHandler.ts:427-513 | every unpriced item type of either side has its `INVALID_ITEMS` reason, with SKU, side and amount, in the valuation's reasons |
| DecisionProperties.OnlyMetalDeclined | src/classes/MyHandler.ts:537-540 | past the first checks, the offer is declined as `ONLY_METAL` iff every item type on both sides is scrap, reclaimed or refined |
| DecisionProperties.KeysOnlyRefused | src/classes/MyHandler.ts:541-575 | past the first checks, an offer of keys (and perhaps metal) only is declined as `NOT_TRADING_KEYS` iff keys have no price entry or its intent excludes a side giving keys; otherwise the key stock check is added and the value checks follow |
| DecisionProperties.ValueStageReason | src/classes/MyHandler.ts:578-734 | no decision after the currency checks is `ONLY_METAL` or `NOT_TRADING_KEYS` |
| DecisionProperties.KeyOverstockRecordedTwice | src/classes/MyHandler.ts:456-574 | one refined for one priced key received beyond the allowance records the key's `OVERSTOCKED` twice, and without manual review both lead the decline's reasons |
| DecisionProperties.OverstockDeclinedFirst | src/classes/MyHandler.ts:578-604 | without manual review an overstock declines as `OVERSTOCKED` before the value check, with the invalid value among the reasons when there is one |
| DecisionProperties.InvalidValueDeclined | src/classes/MyHandler.ts:578-621 | without manual review and without overstock, asking more than offered declines as `INVALID_VALUE` with that reason last |
| DecisionProperties.OverpayDeclined | src/classes/MyHandler.ts:624-627 | overpay is declined when not allowed, unless a fail-fast decline came first |
| DecisionProperties.EscrowBeforeBan | src/classes/MyHandler.ts:631-657 | a failing escrow check gives no decision; an escrow hold declines whatever the ban check says; the ban check then declines or gives no decision |
| DecisionProperties.UndecidedOnlyOnRiskFailure | src/classes/MyHandler.ts:631-657 | the handler ends without a decision only when the escrow check, or the ban check after it, threw |
| DecisionProperties.InvalidAgainIgnored | src/classes/MyHandler.ts:500-503 | the second write of `hasInvalidItems` does not change any decision |
| DecisionProperties.SeriesStopsAtFirstError | src/classes/MyHandler.ts:660-676 | a thrown batch carries the error of one check after only successful ones |
| DecisionProperties.SeriesAnswers | src/classes/MyHandler.ts:660-676 | a completed batch's `i`-th result is the answer for the `i`-th asset id |
| DecisionProperties.ScanFindsDupe | src/classes/MyHandler.ts:684-693 | with dupes declined, the scan stops iff some result is `true` |
| DecisionProperties.ScanFlagsAll | src/classes/MyHandler.ts:684-707 | with dupes not declined, or with no result `true`, the scan never stops, and every `true` and every `null` result adds its reason for that asset id |
| DecisionProperties.UndeterminedReviewed | src/classes/MyHandler.ts:659-730 | with no item duped and one undetermined, the offer is held for review with the earlier reasons first and `DUPE_CHECK_FAILED` for that asset id, whether or not dupes are declined |
| DecisionProperties.DupeDeclined | src/classes/MyHandler.ts:684-693 | a duped item with dupes declined gives decline/`DUPED_ITEMS` with the asset ids and results |
| DecisionProperties.ThrownBatchReviewed | src/classes/MyHandler.ts:708-729 | a thrown batch adds exactly one `DUPE_CHECK_FAILED` reason with the error, and the offer is held for review |
| DecisionProperties.FilterKeepsIncluded | src/classes/MyHandler.ts:719 | filtering a list by membership in a list containing all of it removes nothing |
| DecisionProperties.UniqueReasonsIsIdentity | src/classes/MyHandler.ts:717-719 | `uniqueReasons` equals the mapped reason list, duplicates included |
| DecisionProperties.SynthesisRule | src/classes/MyHandler.ts:716-734 | recorded reasons give skip/`REVIEW` with all of them; none gives accept/`VALID`, and only then |
| DecisionProperties.DupeStageKeepsReasons | src/classes/MyHandler.ts:659-730 | reasons recorded before the dupe checks stay at the front of the final list |
| DecisionProperties.InvalidValueReported | src/classes/MyHandler.ts:578-730 | when we give more than we get, every reason list reported after valuation contains `INVALID_VALUE` |
| MetalSupply.CeilThird | src/classes/MyHandler.ts:1015-1031 | `Math.ceil(gap / 3)` is the least count of threes covering a positive gap |
| MetalSupply.Rebalance | src/classes/MyHandler.ts:1001-1031 | at most one of combine or smelt per denomination; combine iff above the band, smelt iff below; each step lands in its band; where the metal goes |
| MetalSupply.KeepMetalSupply | src/classes/MyHandler.ts:997-1051 | the counters equal `Rebalance`'s plan and the calls issued are exactly that many combines and smelts, in the source's order |
| MetalSupply.WithinBandsIsIdle | src/classes/MyHandler.ts:1014-1031 | counts inside both bands plan nothing and issue no call |
| MetalSupply.WorthIsConserved | src/classes/MyHandler.ts:1014-1031 | the planned operations keep the total worth in scrap |
| MetalSupply.ScrapLandsInBand | src/classes/MyHandler.ts:1024-1031 | with a threshold of at least 2, scrap always ends inside its band |
| MetalSupply.SecondPassNotIdle | src/classes/MyHandler.ts:1014-1031 | with the default settings, 18 reclaimed and 30 scrap need a second pass: the first pushes reclaimed to 22 |
| FriendsPruning.Candidates | src/classes/MyHandler.ts:1165-1191 | the candidates are exactly the friends outside the keep-list and the ignored id, each with its trade count |
| FriendsPruning.Insert | src/classes/MyHandler.ts:1194-1195 | inserting one candidate adds exactly it |
| FriendsPruning.SortByTrades | src/classes/MyHandler.ts:1194-1195 | the sort is a permutation of the candidates |
| FriendsPruning.InsertSorted | src/classes/MyHandler.ts:1194-1195 | insertion keeps the order by trade count |
| FriendsPruning.SortByTradesSorted | src/classes/MyHandler.ts:1194-1195 | the sort orders candidates by ascending trade count |
| FriendsPruning.PrefixTakesFewest | src/classes/MyHandler.ts:1194-1196 | a prefix of the sorted list has no more trades than any candidate outside it |
| FriendsPruning.RemovedAreCandidates | src/classes/MyHandler.ts:1174-1196 | removed ids are friends, never on the keep-list, never the ignored id |
| FriendsPruning.RemovedHaveFewestTrades | src/classes/MyHandler.ts:1193-1196 | every removed friend has at most the trades of every candidate kept |
| FriendsPruning.SelectFriendsToRemove | src/classes/MyHandler.ts:1161-1198 | nothing is removed unless the count is positive; otherwise the count or every candidate, whichever is fewer, all candidates, with the fewest trades |
| PendingQueue.WithoutId | app/queue.js:48-55 | removal by id never lengthens the queue |
| PendingQueue.WithoutIdMembers | app/queue.js:48-55 | what is left has other ids only, and every entry with another id is left |
| PendingQueue.WithoutIdIdempotent | app/queue.js:48-60 | removing an id a second time removes nothing |
| PendingQueue.WithoutIdUnchanged | app/queue.js:48-60 | the queue is unchanged iff no entry has the id |
| PendingQueue.Queue.constructor | app/queue.js:10 | the queue starts empty, with no write pending and nothing written |
| PendingQueue.Queue.Register | app/queue.js:12-21 | the queue is replaced only when the file exists and parses to non-null data |
| PendingQueue.Queue.GetNext | app/queue.js:34-40 | `null` iff the queue is empty, else its first entry |
| PendingQueue.Queue.SaveQueue | app/queue.js:122-135 | a write is scheduled |
| PendingQueue.Queue.Flush | app/queue.js:122-135 | a scheduled write persists the whole current queue, unless the write fails |
| PendingQueue.Queue.RemoveFirst | app/queue.js:42-45 | exactly the first entry goes, the rest keep their order, a write is scheduled |
| PendingQueue.Queue.RemoveID | app/queue.js:48-60 | every entry with the id goes, the rest keep their order; a write is scheduled iff something was removed |
| PendingQueue.Queue.OfferInQueue | app/queue.js:111-120 | true iff some entry's id equals the key; never for the `offer.id` accessor |
| PendingQueue.AccessorMatchesNothing | app/queue.js:65 | the `offer.id` accessor equals no stored id |
| PendingQueue.ReceivedKeepsIdsUnique | app/queue.js:62-80 | looking up the offer's own id, enqueueing a received offer keeps every offer id on at most one entry |
| PendingQueue.AccessorQueuesDuplicate | app/queue.js:62-80 | looking up the accessor, an offer already queued is appended again, so two entries carry its id |
| PendingQueue.Queue.IsInQueue | app/queue.js:100-109 | the 1-based position of the first `Queued` entry of the partner, else `false`; received entries never match |
| PendingQueue.Queue.EnqueueReceivedOffer | app/queue.js:62-80 | as intended: unchanged when the offer's id is queued; otherwise exactly one `Received` entry appended and a write scheduled |
| PendingQueue.Queue.EnqueueReceivedOfferAsWritten | app/queue.js:62-80 | as written: the offer is always appended as one `Received` entry and a write scheduled |
| PendingQueue.Queue.Length | app/queue.js:30-32 | zero iff `getNext` gives `null`; otherwise `getNext` gives the first entry |
| PendingQueue.Queue.EnqueueRequestedOffer | app/queue.js:82-98 | always exactly one `Queued` entry appended, holding only name, amount and intent, and a write scheduled |
| Summarize.AmountSuffix | src/lib/extend/offer/summarize.ts:59 | the amount is shown iff it is above one |
| Summarize.SummarizeItems | src/lib/extend/offer/summarize.ts:44-67 | `null` gives "unknown items", an empty dictionary "nothing", otherwise the entry texts joined by ", " |
| Summarize.ItemsTextSingle | src/lib/extend/offer/summarize.ts:56-66 | a single entry renders as its name plus the amount suffix |
| Summarize.ItemsTextConcat | src/lib/extend/offer/summarize.ts:51-66 | entries appear in dictionary order, separated by ", " |
| Summarize.DiffTail | src/lib/extend/offer/summarize.ts:35-39 | the profit or loss line is empty iff the values are equal |
| Summarize.Summary | src/lib/extend/offer/summarize.ts:9-42 | the summary fails iff there is no value; otherwise it opens with "Asked: ", our value and " (" |
| Summarize.SummaryWithoutValueFails | src/lib/extend/offer/summarize.ts:13-24 | with no value the summary fails, whatever the dictionary |
| Summarize.ReportShape | src/lib/extend/offer/summarize.ts:26-40 | the report opens with "Asked: " and ends in the profit line, the loss line, or directly after their items with no closing parenthesis |
| Summarize.SummaryWithoutDict | src/lib/extend/offer/summarize.ts:15-18 | with no dictionary both sides read "unknown items" |
| SummarizeWithLink.SummarizeItemsWithLink | src/lib/extend/offer/summarizeWithLink.ts:48-71 | `null` gives "unknown items", an empty dictionary "nothing", otherwise the linked entry texts joined by ", " |
| SummarizeWithLink.LinkEntryWrapsName | src/lib/extend/offer/summarizeWithLink.ts:60-63 | a linked entry is the item name in a markdown link to its prices.tf page, then the plain amount suffix |
| SummarizeWithLink.LinkItemsTextConcat | src/lib/extend/offer/summarizeWithLink.ts:55-70 | linked entries appear in dictionary order, separated by ", " |
| SummarizeWithLink.SummaryWithLink | src/lib/extend/offer/summarizeWithLink.ts:9-46 | the summary opens with "Asked: ", followed by our value and " (" when there is a value |
| SummarizeWithLink.WithLinkClosesParen | src/lib/extend/offer/summarizeWithLink.ts:27-44 | with a value, the linked summary is the plain report over the linked lists plus ")" exactly when the values are equal |
| SummarizeWithLink.WithoutValue | src/lib/extend/offer/summarizeWithLink.ts:15-26 | with no value, the two labelled lists follow each other with no separator; with no dictionary either, both read "unknown items" |
| SummarizeWithLink.WithValueCloses | src/lib/extend/offer/summarizeWithLink.ts:28-44 | with a value, the output ends in ")" when the values are equal and in " ref" otherwise |

## Findings

| source | as written | input that shows it | evidently intended | confidence | as-written member | corrected member |
|---|---|---|---|---|---|---|
| app/queue.js:65 | `offerInQueue(offer.id)` passes the accessor method, which loose equality makes equal to no stored id, so the duplicate check never fires | a received offer whose id is already in the queue is enqueued again: two entries carry its id | `offerInQueue(offer.id())`, so an offer already queued is not queued again | high; not executed | PendingQueue.Queue.EnqueueReceivedOfferAsWritten, PendingQueue.AccessorQueuesDuplicate | PendingQueue.Queue.EnqueueReceivedOffer, PendingQueue.ReceivedKeepsIdsUnique |

## Left out

- Steam, HTTP, webhooks and file I/O are not modelled. This includes the
  log lines, the messages sent to partners, `removeFriend`, and the
  game-coordinator calls themselves. The calls are modelled only as the
  list of calls issued.
- The `setTimeout` debounce in `saveQueue` is modelled as the
  `savePending` flag plus an explicit `Flush`. Timing is not modelled, and
  neither is cancelling a write that is already in progress.
- The `tf2-currencies` arithmetic is not modelled. Prices come in as whole
  scrap values: `toValue(keyPrice.metal)`, `keys`, `toScrap(metal)`.
  `valueDiffRef` and the currency `toString` are opaque functions of
  their arguments.
- The `ENABLE_SHOW_ONLY_METAL` display conversion and the `value` and
  `prices` records stored on the offer are left out. They feed notifications
  only.
- The offer's `getDiff()` is taken as given. Its `null` case is not
  modelled.
- OfferDecision.IsGiftMessage: lower-casing is ASCII only, while the
  source's `toLowerCase` also folds other letters.
- OfferDecision.ItemCount: counts the asset ids in the grouped
  dictionaries. This stands for `itemsToGive.length` and
  `itemsToReceive.length`, assuming every traded item is in the dictionary.
- FriendsPruning.SelectFriendsToRemove: assumes the friend list has no
  repeated ids, as the source's dictionary keyed by id does.
- Friend ids are kept in insertion order. That holds for Steam ids as
  dictionary keys, since they are too large to be array indices.
- `src/classes/Friends.ts` is not part of this model. The friend list and
  `maxFriends` are parameters.
- `src/types/TeamFortress2.d.ts` declares types only. Its `Currency` shape
  is `Items.Currency`.
- `offer.data('notify', true)` (MyHandler.ts line 270) is not modelled.
  It marks the offer for the partner notifications, which are left out.
- The other handlers of `MyHandler.ts` are not modelled: login, friends,
  messages, polling, price updates and notifications.
