/** The linked trade summary of src/lib/extend/offer/summarizeWithLink.ts:
    like the plain summary, but every item links to its prices.tf page, a
    missing value has its own format, and the report always closes its
    parenthesis. */
module SummarizeWithLink {
  import opened Wrappers
  import opened Text
  import opened Items
  import Summarize

  const PricesBase: string := "https://www.prices.tf/items/"

  /** `'[' + name + '](https://www.prices.tf/items/' + sku + ')'` followed
      by the amount suffix. */
  function LinkEntryText(e: DictEntry, schema: Summarize.Schema): string
  {
    "[" + schema.getName(e.sku) + "](" + PricesBase + e.sku + ")" + Summarize.AmountSuffix(e.amount)
  }

  function LinkEntryTexts(dict: seq<DictEntry>, schema: Summarize.Schema): (r: seq<string>)
    ensures |r| == |dict|
    ensures forall i :: 0 <= i < |dict| ==> r[i] == LinkEntryText(dict[i], schema)
  {
    seq(|dict|, i requires 0 <= i < |dict| => LinkEntryText(dict[i], schema))
  }

  /** What `summarizeItemsWithLink` returns for a dictionary. */
  function LinkItemsText(dict: Option<seq<DictEntry>>, schema: Summarize.Schema): string
  {
    match dict
    case None => "unknown items"
    case Some(d) => if |d| == 0 then "nothing" else Join(LinkEntryTexts(d, schema), ", ")
  }

  /** `summarizeItemsWithLink`: push one linked text per entry, in dictionary
      order, then join them with ", ". */
  method SummarizeItemsWithLink(dict: Option<seq<DictEntry>>, schema: Summarize.Schema) returns (s: string)
    ensures dict == None ==> s == "unknown items"
    ensures dict == Some([]) ==> s == "nothing"
    ensures dict.Some? && |dict.value| > 0 ==> s == Join(LinkEntryTexts(dict.value, schema), ", ")
  {
    if dict.None? {
      return "unknown items";
    }
    var d := dict.value;
    var summary: seq<string> := [];
    for i := 0 to |d|
      invariant summary == LinkEntryTexts(d[..i], schema)
    {
      summary := summary + [LinkEntryText(d[i], schema)];
    }
    assert d[..|d|] == d;
    if |summary| == 0 {
      return "nothing";
    }
    s := Join(summary, ", ");
  }

  /** A linked entry is the plain entry's name wrapped in a markdown link to
      the item's page, with the same amount suffix after it. */
  lemma LinkEntryWrapsName(e: DictEntry, schema: Summarize.Schema)
    ensures LinkEntryText(e, schema)
         == "[" + schema.getName(e.sku) + "](" + PricesBase + e.sku + ")" + (Summarize.EntryText(e, schema)[|schema.getName(e.sku)|..])
  {
    var name := schema.getName(e.sku);
    assert Summarize.EntryText(e, schema)[|name|..] == Summarize.AmountSuffix(e.amount);
  }

  /** Linked entries keep dictionary order: the summary of two non-empty
      dictionaries laid end to end is their summaries joined by ", ". */
  lemma LinkItemsTextConcat(d1: seq<DictEntry>, d2: seq<DictEntry>, schema: Summarize.Schema)
    requires |d1| > 0 && |d2| > 0
    ensures LinkItemsText(Some(d1 + d2), schema) == LinkItemsText(Some(d1), schema) + ", " + LinkItemsText(Some(d2), schema)
  {
    assert LinkEntryTexts(d1 + d2, schema) == LinkEntryTexts(d1, schema) + LinkEntryTexts(d2, schema);
    JoinConcat(LinkEntryTexts(d1, schema), LinkEntryTexts(d2, schema), ", ");
  }

  /** The closing of a linked report: a lone ")" when the values are equal,
      otherwise the same profit / loss line as the plain summary. */
  function LinkDiffTail(diff: int, cur: Summarize.Currencies): string
  {
    var ref := cur.refString(if diff < 0 then -diff else diff);
    if diff > 0 then ")\nProfit from overpay: " + ref + " ref"
    else if diff < 0 then ")\nLoss from underpay: " + ref + " ref"
    else ")"
  }

  /** The default export. Without a value the two item lists follow their
      labels with no separator between them; with one, the report always
      closes its parenthesis. */
  function SummaryWithLink(value: Option<Summarize.OfferValue>, dict: Option<Summarize.OfferDict>,
                           schema: Summarize.Schema, cur: Summarize.Currencies): (r: string)
    ensures value.None? ==> StartsWith(r, "Asked: ")
    ensures value.Some? ==> StartsWith(r, "Asked: " + cur.show(value.value.our) + " (")
  {
    var items := if dict.Some? then dict.value else Summarize.OfferDict(None, None);
    var ours := LinkItemsText(items.our, schema);
    var theirs := LinkItemsText(items.their, schema);
    match value
    case None =>
      StartsWithConcat("Asked: ", ours);
      StartsWithExtend("Asked: " + ours, "Asked: ", "Offered: ");
      StartsWithExtend("Asked: " + ours + "Offered: ", "Asked: ", theirs);
      "Asked: " + ours + "Offered: " + theirs
    case Some(v) =>
      var head := "Asked: " + cur.show(v.our) + " (";
      StartsWithConcat(head, ours);
      StartsWithExtend(head + ours, head, ")\nOffered: ");
      StartsWithExtend(head + ours + ")\nOffered: ", head, cur.show(v.their));
      StartsWithExtend(head + ours + ")\nOffered: " + cur.show(v.their), head, " (");
      StartsWithExtend(head + ours + ")\nOffered: " + cur.show(v.their) + " (", head, theirs);
      StartsWithExtend(head + ours + ")\nOffered: " + cur.show(v.their) + " (" + theirs, head,
                       LinkDiffTail(Summarize.ValueDiff(v, cur), cur));
      "Asked: " + cur.show(v.our) + " (" + ours + ")\nOffered: " + cur.show(v.their) + " (" + theirs
      + LinkDiffTail(Summarize.ValueDiff(v, cur), cur)
  }

  /** Against the plain summary's report: with a value, the linked summary is
      the same report over the linked item lists, plus a closing ")" exactly
      when the values are equal. */
  lemma WithLinkClosesParen(v: Summarize.OfferValue, dict: Option<Summarize.OfferDict>,
                            schema: Summarize.Schema, cur: Summarize.Currencies)
    ensures var items := if dict.Some? then dict.value else Summarize.OfferDict(None, None);
            var plain := Summarize.Report(v, LinkItemsText(items.our, schema), LinkItemsText(items.their, schema), cur);
            SummaryWithLink(Some(v), dict, schema, cur)
              == plain + (if Summarize.ValueDiff(v, cur) == 0 then ")" else "")
  {
  }

  /** Without a value the output is the two labelled lists back to back;
      without a dictionary as well, both read "unknown items". */
  lemma WithoutValue(dict: Option<Summarize.OfferDict>, schema: Summarize.Schema, cur: Summarize.Currencies)
    ensures var items := if dict.Some? then dict.value else Summarize.OfferDict(None, None);
            SummaryWithLink(None, dict, schema, cur)
              == "Asked: " + LinkItemsText(items.our, schema) + "Offered: " + LinkItemsText(items.their, schema)
    ensures dict == None ==> SummaryWithLink(None, dict, schema, cur) == "Asked: unknown itemsOffered: unknown items"
  {
    if dict == None {
      assert LinkItemsText(None, schema) == "unknown items";
      calc {
        SummaryWithLink(None, dict, schema, cur);
        "Asked: " + "unknown items" + "Offered: " + "unknown items";
        "Asked: unknown itemsOffered: unknown items";
      }
    }
  }

  /** With a value the linked report always ends in ")" or in " ref". */
  lemma WithValueCloses(v: Summarize.OfferValue, dict: Option<Summarize.OfferDict>,
                        schema: Summarize.Schema, cur: Summarize.Currencies)
    ensures var s := SummaryWithLink(Some(v), dict, schema, cur);
            var diff := Summarize.ValueDiff(v, cur);
            (diff == 0 ==> EndsWith(s, ")")) && (diff != 0 ==> EndsWith(s, " ref"))
  {
    var items := if dict.Some? then dict.value else Summarize.OfferDict(None, None);
    var diff := Summarize.ValueDiff(v, cur);
    var ref := cur.refString(if diff < 0 then -diff else diff);
    var body := "Asked: " + cur.show(v.our) + " (" + LinkItemsText(items.our, schema) + ")\nOffered: "
      + cur.show(v.their) + " (" + LinkItemsText(items.their, schema);
    if diff == 0 {
      EndsWithConcat(body, ")");
    } else {
      var line := if diff > 0 then ")\nProfit from overpay: " else ")\nLoss from underpay: ";
      assert SummaryWithLink(Some(v), dict, schema, cur) == (body + line + ref) + " ref";
      EndsWithConcat(body + line + ref, " ref");
    }
  }
}
