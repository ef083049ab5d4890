/** What the results screen shows for one analysis (src/App.tsx:400-547):
    the four totals, a two-line summary and one card per detected item. The
    response's shape is the component's interfaces (src/App.tsx:5-41); the
    lookup tables are passed in as a `Dictionaries` value, and the component
    itself uses the tables of the `Translations` module. */
module Display {
  import opened Js
  import opened Translations

  /** A number of the response, shown as it arrives and never computed on. */
  type Quantity = real

  /** One detected food (src/App.tsx:5-16). The diet tags, note and tip may be
      missing from the JSON even though the interface declares them. */
  datatype FoodItem = FoodItem(
    name: string,
    portionG: Quantity,
    caloriesKcal: Quantity,
    proteinG: Quantity,
    carbsG: Quantity,
    fatG: Quantity,
    cookingMethod: string,
    dietFit: Option<seq<string>>,
    note: Option<string>,
    tip: Option<string>)

  /** Meal totals (src/App.tsx:18-24). */
  datatype Totals = Totals(
    portionG: Quantity,
    caloriesKcal: Quantity,
    proteinG: Quantity,
    carbsG: Quantity,
    fatG: Quantity)

  /** The four optional summary sentences (src/App.tsx:26-31). */
  datatype Summary = Summary(
    quality: Option<string>,
    overallTip: Option<string>,
    balance: Option<string>,
    generalTip: Option<string>)

  /** The payload of a response (src/App.tsx:33-37). */
  datatype Output = Output(items: seq<FoodItem>, totals: Totals, summary: Summary)

  /** One element of the response array (src/App.tsx:39-41). */
  datatype WebhookResponse = WebhookResponse(output: Output)

  /** The six read-only tables the screen looks words up in. */
  datatype Dictionaries = Dictionaries(
    colours: map<string, string>,
    labels: map<string, string>,
    foodNames: map<string, string>,
    notes: map<string, string>,
    tips: map<string, string>,
    summaries: map<string, string>)

  /** The text of the first summary line when the response has neither a
      quality nor a balance sentence (src/App.tsx:458). */
  const Placeholder := "Analiz tamamlandı"

  /** One diet badge: its translated label and its colour class. */
  datatype TagView = TagView(text: string, colourClass: string)

  /** One item card (src/App.tsx:484-542). `tags`, `note` and `tip` are `None`
      when the card leaves that block out; the cooking method is never shown. */
  datatype ItemView = ItemView(
    name: string,
    portionG: Quantity,
    caloriesKcal: Quantity,
    proteinG: Quantity,
    carbsG: Quantity,
    fatG: Quantity,
    tags: Option<seq<TagView>>,
    note: Option<string>,
    tip: Option<string>)

  /** The evaluation card (src/App.tsx:450-473): a first line that is always
      there and an optional second line. */
  datatype SummaryView = SummaryView(primary: string, secondary: Option<string>)

  /** The whole report (src/App.tsx:401-546). Of the totals, the portion is
      not shown. */
  datatype ReportView = ReportView(
    caloriesKcal: Quantity,
    proteinG: Quantity,
    carbsG: Quantity,
    fatG: Quantity,
    summary: SummaryView,
    items: seq<ItemView>)

  /** The first summary line (src/App.tsx:457-459): the translated quality
      sentence, else the balance sentence, else the placeholder. It is never
      empty. */
  function PrimaryLine(s: Summary, d: Dictionaries): (r: string)
    ensures r != ""
    ensures Truthy(s.quality) ==> r == Translate(d.summaries, s.quality.value)
    ensures !Truthy(s.quality) && Truthy(s.balance) ==> r == Translate(d.summaries, s.balance.value)
    ensures !Truthy(s.quality) && !Truthy(s.balance) ==> r == Translate(d.summaries, Placeholder)
  {
    Translate(d.summaries, OrDefault(s.quality, s.balance, Placeholder))
  }

  /** The second summary line (src/App.tsx:461-470): present exactly when the
      overall tip or the general tip is a non-empty string, and then the
      translation of the first of them that is. */
  function SecondaryLine(s: Summary, d: Dictionaries): (r: Option<string>)
    ensures r.Some? <==> Truthy(s.overallTip) || Truthy(s.generalTip)
    ensures Truthy(s.overallTip) ==> r == Some(Translate(d.summaries, s.overallTip.value))
    ensures !Truthy(s.overallTip) && Truthy(s.generalTip) ==> r == Some(Translate(d.summaries, s.generalTip.value))
    ensures r.Some? ==> r.value != ""
  {
    if Truthy(Or(s.overallTip, s.generalTip)) then
      Some(Translate(d.summaries, OrDefault(s.overallTip, s.generalTip, "")))
    else
      None
  }

  /** The badges of an item (src/App.tsx:514-521): one per tag, in the same
      order, each with the tag's label and colour. */
  function TagViews(tags: seq<string>, d: Dictionaries): (r: seq<TagView>)
    ensures |r| == |tags|
    ensures forall i :: 0 <= i < |tags| ==>
      r[i] == TagView(Translate(d.labels, tags[i]), ColourClass(d.colours, tags[i]))
  {
    if tags == [] then [] else [TagView(Translate(d.labels, tags[0]), ColourClass(d.colours, tags[0]))] + TagViews(tags[1..], d)
  }

  /** One item card (src/App.tsx:484-542). */
  function ViewItem(item: FoodItem, d: Dictionaries): (r: ItemView)
    ensures r.name == Translate(d.foodNames, item.name)
    ensures r.portionG == item.portionG && r.caloriesKcal == item.caloriesKcal
    ensures r.proteinG == item.proteinG && r.carbsG == item.carbsG && r.fatG == item.fatG
    ensures r.tags.Some? <==> item.dietFit.Some? && |item.dietFit.value| > 0
    ensures r.tags.Some? ==> r.tags.value == TagViews(item.dietFit.value, d)
    ensures r.note.Some? <==> Truthy(item.note)
    ensures r.note.Some? ==> r.note.value == Translate(d.notes, item.note.value) && r.note.value != ""
    ensures r.tip.Some? <==> Truthy(item.tip)
    ensures r.tip.Some? ==> r.tip.value == Translate(d.tips, item.tip.value) && r.tip.value != ""
  {
    ItemView(
      Translate(d.foodNames, item.name),
      item.portionG,
      item.caloriesKcal,
      item.proteinG,
      item.carbsG,
      item.fatG,
      if item.dietFit.Some? && |item.dietFit.value| > 0 then Some(TagViews(item.dietFit.value, d)) else None,
      if Truthy(item.note) then Some(Translate(d.notes, item.note.value)) else None,
      if Truthy(item.tip) then Some(Translate(d.tips, item.tip.value)) else None)
  }

  /** The item cards (src/App.tsx:483-543): one per item, in the same order. */
  function ViewItems(items: seq<FoodItem>, d: Dictionaries): (r: seq<ItemView>)
    ensures |r| == |items|
    ensures forall i :: 0 <= i < |items| ==> r[i] == ViewItem(items[i], d)
  {
    if items == [] then [] else [ViewItem(items[0], d)] + ViewItems(items[1..], d)
  }

  /** The report for one response (src/App.tsx:401-546). */
  function ViewReport(out: Output, d: Dictionaries): (r: ReportView)
    ensures r.caloriesKcal == out.totals.caloriesKcal && r.proteinG == out.totals.proteinG
    ensures r.carbsG == out.totals.carbsG && r.fatG == out.totals.fatG
    ensures r.summary == SummaryView(PrimaryLine(out.summary, d), SecondaryLine(out.summary, d))
    ensures r.items == ViewItems(out.items, d)
  {
    ReportView(
      out.totals.caloriesKcal,
      out.totals.proteinG,
      out.totals.carbsG,
      out.totals.fatG,
      SummaryView(PrimaryLine(out.summary, d), SecondaryLine(out.summary, d)),
      ViewItems(out.items, d))
  }

  /** Badges keep the order of the tags: the badges of two runs of tags are
      the badges of the first run followed by those of the second. */
  lemma {:induction false} TagViewsAppend(a: seq<string>, b: seq<string>, d: Dictionaries)
    ensures TagViews(a + b, d) == TagViews(a, d) + TagViews(b, d)
  {
    if a != [] {
      assert (a + b)[1..] == a[1..] + b;
      TagViewsAppend(a[1..], b, d);
    }
  }

  /** Item cards keep the order of the items, in the same sense. */
  lemma {:induction false} ViewItemsAppend(a: seq<FoodItem>, b: seq<FoodItem>, d: Dictionaries)
    ensures ViewItems(a + b, d) == ViewItems(a, d) + ViewItems(b, d)
  {
    if a != [] {
      assert (a + b)[1..] == a[1..] + b;
      ViewItemsAppend(a[1..], b, d);
    }
  }

  /** The two summary lines read disjoint fields: the first line ignores both
      tips and the second ignores the quality and balance sentences. */
  lemma SummaryLinesIndependent(s: Summary, t: Summary, d: Dictionaries)
    ensures s.quality == t.quality && s.balance == t.balance ==> PrimaryLine(s, d) == PrimaryLine(t, d)
    ensures s.overallTip == t.overallTip && s.generalTip == t.generalTip ==> SecondaryLine(s, d) == SecondaryLine(t, d)
  {
  }

  /** The two field pairs are interchangeable: a summary with only a balance
      sentence and a general tip reads like one with only a quality sentence
      and an overall tip carrying the same texts. */
  lemma FieldPairSymmetry(sentence: Option<string>, tip: Option<string>, d: Dictionaries)
    ensures PrimaryLine(Summary(None, None, sentence, tip), d) == PrimaryLine(Summary(sentence, tip, None, None), d)
    ensures SecondaryLine(Summary(None, None, sentence, tip), d) == SecondaryLine(Summary(sentence, tip, None, None), d)
  {
  }

  /** The placeholder is not a key of the component's summary table, so when
      neither sentence is there the first line reads "Analiz tamamlandı". */
  lemma PlaceholderShownVerbatim(s: Summary, d: Dictionaries)
    requires d.summaries == Summaries
    ensures !Truthy(s.quality) && !Truthy(s.balance) ==> PrimaryLine(s, d) == Placeholder
  {
  }

  /** With the component's tables, a pizza tagged 'high-fat' with an empty
      note and tip keeps the name "Pizza", gets one grey badge reading
      'Yüksek Yağ', and shows neither the note nor the tip block. */
  lemma PizzaCard(p: FoodItem, d: Dictionaries)
    requires d.foodNames == FoodNames && d.labels == DietFitLabels && d.colours == DietFitColors
    requires p.name == "Pizza" && p.dietFit == Some(["high-fat"])
    requires p.note == Some("") && p.tip == Some("")
    ensures ViewItem(p, d) == ItemView(
      "Pizza", p.portionG, p.caloriesKcal, p.proteinG, p.carbsG, p.fatG,
      Some([TagView("Yüksek Yağ", DefaultColour)]), None, None)
  {
    HighFatLabelledButGrey();
    FoodNameLookupIsExact();
    var badges := TagViews(["high-fat"], d);
    assert badges[0] == TagView(TranslateDietFit("high-fat"), DietFitColor("high-fat"));
    assert badges == [TagView("Yüksek Yağ", DefaultColour)];
  }
}
