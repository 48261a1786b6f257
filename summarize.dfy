/** The plain trade summary of src/lib/extend/offer/summarize.ts: what we
    asked, what was offered, and the profit or loss. */
module Summarize {
  import opened Wrappers
  import opened Text
  import opened Items

  /** The item-name lookup `schema.getName(SKU.fromString(sku), false)`. */
  datatype Schema = Schema(getName: Sku -> string)

  /** The parts of the currency library the summaries use: `toString()` of a
      currency, its `toValue()` in scrap, and the rendering of an absolute
      scrap difference in refined (`valueDiffRef`). */
  datatype Currencies = Currencies(show: Currency -> string, toValue: Currency -> int, refString: nat -> string)

  /** The `value` record the offer pipeline stores on the offer. */
  datatype OfferValue = OfferValue(our: Currency, their: Currency)

  /** The `dict` record; a side is `None` where the source holds `null`. */
  datatype OfferDict = OfferDict(our: Option<seq<DictEntry>>, their: Option<seq<DictEntry>>)

  /** `' x' + amount`, only for amounts above one. */
  function AmountSuffix(amount: int): (s: string)
    ensures amount <= 1 <==> s == ""
  {
    if amount > 1 then " x" + NatToString(amount) else ""
  }

  function EntryText(e: DictEntry, schema: Schema): string
  {
    schema.getName(e.sku) + AmountSuffix(e.amount)
  }

  function EntryTexts(dict: seq<DictEntry>, schema: Schema): (r: seq<string>)
    ensures |r| == |dict|
    ensures forall i :: 0 <= i < |dict| ==> r[i] == EntryText(dict[i], schema)
  {
    seq(|dict|, i requires 0 <= i < |dict| => EntryText(dict[i], schema))
  }

  /** What `summarizeItems` returns for a dictionary. */
  function ItemsText(dict: Option<seq<DictEntry>>, schema: Schema): string
  {
    match dict
    case None => "unknown items"
    case Some(d) => if |d| == 0 then "nothing" else Join(EntryTexts(d, schema), ", ")
  }

  /** `summarizeItems`: push one text per entry, in dictionary order, then
      join them with ", ". */
  method SummarizeItems(dict: Option<seq<DictEntry>>, schema: Schema) returns (s: string)
    ensures dict == None ==> s == "unknown items"
    ensures dict == Some([]) ==> s == "nothing"
    ensures dict.Some? && |dict.value| > 0 ==> s == Join(EntryTexts(dict.value, schema), ", ")
  {
    if dict.None? {
      return "unknown items";
    }
    var d := dict.value;
    var summary: seq<string> := [];
    for i := 0 to |d|
      invariant summary == EntryTexts(d[..i], schema)
    {
      summary := summary + [EntryText(d[i], schema)];
    }
    assert d[..|d|] == d;
    if |summary| == 0 {
      return "nothing";
    }
    s := Join(summary, ", ");
  }

  /** A single entry renders alone, without any separator. */
  lemma ItemsTextSingle(e: DictEntry, schema: Schema)
    ensures ItemsText(Some([e]), schema) == schema.getName(e.sku) + AmountSuffix(e.amount)
  {
  }

  /** Entries appear in dictionary order: the summary of two non-empty
      dictionaries laid end to end is their summaries joined by ", ". */
  lemma ItemsTextConcat(d1: seq<DictEntry>, d2: seq<DictEntry>, schema: Schema)
    requires |d1| > 0 && |d2| > 0
    ensures ItemsText(Some(d1 + d2), schema) == ItemsText(Some(d1), schema) + ", " + ItemsText(Some(d2), schema)
  {
    assert EntryTexts(d1 + d2, schema) == EntryTexts(d1, schema) + EntryTexts(d2, schema);
    JoinConcat(EntryTexts(d1, schema), EntryTexts(d2, schema), ", ");
  }

  /** `valueDiff`: their value minus ours, in scrap. */
  function ValueDiff(v: OfferValue, cur: Currencies): int
  {
    cur.toValue(v.their) - cur.toValue(v.our)
  }

  /** The profit / loss line; nothing at all (not even the closing
      parenthesis) when the values are equal. */
  function DiffTail(diff: int, cur: Currencies): (s: string)
    ensures diff == 0 <==> s == ""
  {
    var ref := cur.refString(if diff < 0 then -diff else diff);
    if diff > 0 then ")\nProfit from overpay: " + ref + " ref"
    else if diff < 0 then ")\nLoss from underpay: " + ref + " ref"
    else ""
  }

  /** The report for a present value, given the two rendered item lists. */
  function Report(v: OfferValue, ours: string, theirs: string, cur: Currencies): string
  {
    "Asked: " + cur.show(v.our) + " (" + ours + ")\nOffered: " + cur.show(v.their) + " (" + theirs
    + DiffTail(ValueDiff(v, cur), cur)
  }

  /** The default export. The value is dereferenced (for `valueDiff`) before
      the `!value` guard, so a missing value throws instead of producing the
      value-less format; a missing dictionary renders both sides as
      "unknown items". */
  function Summary(value: Option<OfferValue>, dict: Option<OfferDict>, schema: Schema, cur: Currencies): (r: Result<string, string>)
    ensures r.Failure? <==> value.None?
    ensures r.Success? ==> StartsWith(r.value, "Asked: " + cur.show(value.value.our) + " (")
  {
    var items := if dict.Some? then dict.value else OfferDict(None, None);
    match value
    case None => Failure("TypeError: Cannot read property 'their' of undefined")
    case Some(v) =>
      ReportShape(v, ItemsText(items.our, schema), ItemsText(items.their, schema), cur);
      Success(Report(v, ItemsText(items.our, schema), ItemsText(items.their, schema), cur))
  }

  /** A missing value always fails, whatever the dictionary. */
  lemma SummaryWithoutValueFails(dict: Option<OfferDict>, schema: Schema, cur: Currencies)
    ensures Summary(None, dict, schema, cur).Failure?
  {
  }

  /** The shape of a report: it opens with what we asked, and ends in the
      profit line, the loss line, or (equal values) directly after their
      items, with no closing parenthesis. */
  lemma ReportShape(v: OfferValue, ours: string, theirs: string, cur: Currencies)
    ensures var s := Report(v, ours, theirs, cur);
            var diff := ValueDiff(v, cur);
            var ref := cur.refString(if diff < 0 then -diff else diff);
            StartsWith(s, "Asked: " + cur.show(v.our) + " (") &&
            (diff > 0 ==> EndsWith(s, ")\nProfit from overpay: " + ref + " ref")) &&
            (diff < 0 ==> EndsWith(s, ")\nLoss from underpay: " + ref + " ref")) &&
            (diff == 0 ==> EndsWith(s, " (" + theirs))
  {
    var diff := ValueDiff(v, cur);
    var head := "Asked: " + cur.show(v.our) + " (";
    var front := head + ours + ")\nOffered: " + cur.show(v.their);
    var body := front + " (" + theirs;
    StartsWithConcat(head, ours);
    StartsWithExtend(head + ours, head, ")\nOffered: ");
    StartsWithExtend(head + ours + ")\nOffered: ", head, cur.show(v.their));
    StartsWithExtend(front, head, " (");
    StartsWithExtend(front + " (", head, theirs);
    StartsWithExtend(body, head, DiffTail(diff, cur));
    EndsWithConcat(body, DiffTail(diff, cur));
    if diff == 0 {
      assert body + DiffTail(diff, cur) == body;
      assert body == front + (" (" + theirs);
      EndsWithConcat(front, " (" + theirs);
    }
  }

  /** Without a dictionary both sides render as "unknown items". */
  lemma SummaryWithoutDict(v: OfferValue, schema: Schema, cur: Currencies)
    ensures Summary(Some(v), None, schema, cur) == Success(Report(v, "unknown items", "unknown items", cur))
  {
  }
}
