/**
 * Floreboard/InventoryViews.swift: a row's margin colour and low-stock badge, the colour names of the
 * swatches, and the add/edit sheet: its form, the culture toggles, the stepper and what `save` does.
 */
module InventoryViews {
  import opened Prelude
  import opened Models
  import opened Inventory
  import opened ViewModels
  import opened Dashboard

  // ---------------------------------------------------------------------------
  // Rows
  // ---------------------------------------------------------------------------

  /** `Int(x)` on a finite `Double`: the fraction is dropped, rounding toward zero. */
  function Truncate(x: real): (n: int)
    ensures x >= 0.0 ==> n as real <= x < n as real + 1.0
    ensures x < 0.0 ==> n as real - 1.0 < x <= n as real
  {
    if x >= 0.0 then x.Floor else -((-x).Floor)
  }

  /** `FlowerRow.marginPercent`: 0 unless the retail price is positive. */
  function MarginPercent(f: FlowerType): (r: int)
    ensures f.retailPrice <= 0.0 ==> r == 0
    ensures f.unitCost >= f.retailPrice ==> r <= 0
  {
    if f.retailPrice > 0.0 then Truncate((f.retailPrice - f.unitCost) / f.retailPrice * 100.0) else 0
  }

  datatype MarginColor = MarginGreen | MarginOrange | MarginRed

  /** `FlowerRow.marginColor` */
  function MarginColorOf(percent: int): (c: MarginColor)
    ensures c == MarginGreen <==> percent >= 60
    ensures c == MarginOrange <==> 40 <= percent < 60
    ensures c == MarginRed <==> percent < 40
  {
    if percent >= 60 then MarginGreen else if percent >= 40 then MarginOrange else MarginRed
  }

  /** Truncation keeps a whole-number bound: `Int(x) >= b` exactly when `x >= b`, for `b > 0`. */
  lemma TruncateAtLeast(x: real, b: int)
    requires b > 0
    ensures Truncate(x) >= b <==> x >= b as real
  {
  }

  /**
   * For a positive retail price the colour is a band of the cost: green while the cost is at most 40% of
   * the price, orange up to 60%, red above.
   */
  lemma MarginBands(f: FlowerType)
    requires f.retailPrice > 0.0
    ensures MarginColorOf(MarginPercent(f)) == MarginGreen <==> f.unitCost * 10.0 <= 4.0 * f.retailPrice
    ensures MarginColorOf(MarginPercent(f)) == MarginRed <==> f.unitCost * 10.0 > 6.0 * f.retailPrice
  {
    var r, c := f.retailPrice, f.unitCost;
    var x := (r - c) / r * 100.0;
    TruncateAtLeast(x, 60);
    TruncateAtLeast(x, 40);
    RatioAtLeast(r, c, 60.0);
    RatioAtLeast(r, c, 40.0);
  }

  /** `(r - c) / r * 100 >= k` without the division, for `r > 0`. */
  lemma RatioAtLeast(r: real, c: real, k: real)
    requires r > 0.0
    ensures (r - c) / r * 100.0 >= k <==> (r - c) * 100.0 >= k * r
  {
    var m := (r - c) / r * 100.0;
    assert m * r == (r - c) * 100.0;
    ScaleKeepsOrder(m, k, r);
  }

  /** Multiplying by a positive number keeps `a >= b`. */
  lemma ScaleKeepsOrder(a: real, b: real, r: real)
    requires r > 0.0
    ensures a >= b <==> a * r >= b * r
  {
    if a >= b {
      assert a * r - b * r == (a - b) * r;
    } else {
      assert b * r - a * r == (b - a) * r;
    }
  }

  /** Without a positive retail price the margin is 0, which shows red. */
  lemma NoPriceShowsRed(f: FlowerType)
    requires f.retailPrice <= 0.0
    ensures MarginColorOf(MarginPercent(f)) == MarginRed
  {
  }

  /** The sheet's starting prices, cost 5 and retail 15, give a margin of 66%, which shows green. */
  lemma StartingPricesShowGreen(f: FlowerType)
    requires f.unitCost == 5.0 && f.retailPrice == 15.0
    ensures MarginPercent(f) == 66 && MarginColorOf(MarginPercent(f)) == MarginGreen
  {
    assert (15.0 - 5.0) / 15.0 * 100.0 == 200.0 / 3.0;
  }

  /** The warning badge and the red stock text of a row: quantity below 10. */
  predicate ShowsLowStockBadge(f: FlowerType) {
    f.quantity < LowStockBound
  }

  /** The rows that show the badge are the ones the home screen counts. */
  lemma BadgesAreCounted(fs: seq<FlowerType>)
    ensures |Filter(fs, ShowsLowStockBadge)| == LowStockCount(fs)
  {
    FilterSameRule(fs, ShowsLowStockBadge, (f: FlowerType) => f.quantity < LowStockBound);
  }

  // ---------------------------------------------------------------------------
  // Swatch colours
  // ---------------------------------------------------------------------------

  datatype Swatch = SwatchRed | SwatchWhite | SwatchPink | SwatchYellow | SwatchBlue | SwatchGreen
                  | SwatchPurple | SwatchOrange | SwatchGray

  /** `Color(string:)`: eight names, in any case; anything else is gray. */
  function ColorFromName(name: string): (c: Swatch) {
    var n := Fold(name);
    if n == "red" then SwatchRed
    else if n == "white" then SwatchWhite
    else if n == "pink" then SwatchPink
    else if n == "yellow" then SwatchYellow
    else if n == "blue" then SwatchBlue
    else if n == "green" then SwatchGreen
    else if n == "purple" then SwatchPurple
    else if n == "orange" then SwatchOrange
    else SwatchGray
  }

  /** The colours of the sheet's picker. */
  const PickerColors: seq<string> := ["White", "Red", "Pink", "Yellow", "Purple", "Green", "Blue", "Orange"]

  /** Every colour the sheet offers has its own swatch, none of them gray. */
  lemma PickerColorsDistinctSwatches()
    ensures forall i :: 0 <= i < |PickerColors| ==> ColorFromName(PickerColors[i]) != SwatchGray
    ensures forall i, j :: 0 <= i < j < |PickerColors| ==> ColorFromName(PickerColors[i]) != ColorFromName(PickerColors[j])
  {
    assert Fold("White") == "white" && Fold("Red") == "red" && Fold("Pink") == "pink";
    assert Fold("Yellow") == "yellow" && Fold("Purple") == "purple" && Fold("Green") == "green";
    assert Fold("Blue") == "blue" && Fold("Orange") == "orange";
  }

  /** The case of the name makes no difference. */
  lemma ColorIgnoresCase(name: string)
    ensures ColorFromName(Fold(name)) == ColorFromName(name)
  {
    FoldTwice(name);
  }

  /** A name outside the eight is gray. */
  lemma UnknownColorIsGray()
    ensures ColorFromName("Champagne") == SwatchGray
  {
    assert Fold("Champagne")[0] == 'c';
  }

  // ---------------------------------------------------------------------------
  // The add/edit sheet
  // ---------------------------------------------------------------------------

  /** The cultures the sheet offers as toggles. */
  const AvailableCultures: seq<string> := ["western", "chinese", "japanese", "universal"]

  /** A tap on a culture: it leaves the selection if it was in, joins it otherwise. */
  function ToggleCulture(selected: set<string>, culture: string): (r: set<string>)
    ensures culture in r <==> culture !in selected
    ensures forall c :: c != culture ==> (c in r <==> c in selected)
  {
    if culture in selected then selected - {culture} else selected + {culture}
  }

  /** Two taps on one culture restore the selection. */
  lemma ToggleTwice(selected: set<string>, culture: string)
    ensures ToggleCulture(ToggleCulture(selected, culture), culture) == selected
  {
  }

  /** Taps on two cultures give the same selection in either order. */
  lemma TogglesCommute(selected: set<string>, a: string, b: string)
    ensures ToggleCulture(ToggleCulture(selected, a), b) == ToggleCulture(ToggleCulture(selected, b), a)
  {
  }

  /** The sheet's `@State` fields. */
  datatype EditForm = EditForm(
    name: string,
    color: string,
    quantity: int,
    cost: real,
    price: real,
    category: FlowerCategory,
    meaning: string,
    selectedCultures: set<string>)

  /** The field values the sheet starts with. */
  const BlankForm := EditForm("", "White", 10, 5.0, 15.0, Main, "", {})

  /** `onAppear`: the record being edited fills the form; with none, the form keeps its starting values. */
  function FormFor(flowerToEdit: Option<FlowerType>): (form: EditForm)
    ensures flowerToEdit.None? ==> form == BlankForm
    ensures flowerToEdit.Some? ==>
      var f := flowerToEdit.value;
      && form.name == f.name && form.color == f.color && form.quantity == f.quantity
      && form.cost == f.unitCost && form.price == f.retailPrice && form.category == f.category
      && form.meaning == f.meaning.GetOr("")
      && form.selectedCultures == set t | t in f.cultureTags.GetOr([])
  {
    match flowerToEdit
    case None => BlankForm
    case Some(f) =>
      EditForm(f.name, f.color, f.quantity, f.unitCost, f.retailPrice, f.category, f.meaning.GetOr(""),
               set t | t in f.cultureTags.GetOr([]))
  }

  /** `tags` is one way `Array(set)` can list `s`: each element once, in some order. */
  ghost predicate Lists(tags: seq<string>, s: set<string>) {
    && (forall t :: t in tags <==> t in s)
    && (forall i, j :: 0 <= i < j < |tags| ==> tags[i] != tags[j])
  }

  /**
   * The edit branch of `save`: the form overwrites name, colour, quantity, prices, category, meaning and
   * culture tags, and every other field of the record (id, initial stock, usage, timestamps, sync data)
   * is kept.
   */
  function ApplyEdit(f: FlowerType, form: EditForm, tags: seq<string>): (r: FlowerType)
    requires Lists(tags, form.selectedCultures)
    ensures r.name == form.name && r.color == form.color && r.quantity == form.quantity
    ensures r.unitCost == form.cost && r.retailPrice == form.price && r.category == form.category
    ensures r.meaning == Some(form.meaning) && r.cultureTags == Some(tags)
    ensures r.(name := f.name, color := f.color, quantity := f.quantity, unitCost := f.unitCost,
               retailPrice := f.retailPrice, category := f.category, meaning := f.meaning,
               cultureTags := f.cultureTags) == f
  {
    f.(name := form.name, color := form.color, quantity := form.quantity, unitCost := form.cost,
       retailPrice := form.price, category := form.category, meaning := Some(form.meaning),
       cultureTags := Some(tags))
  }

  /** Opening a record and saving it untouched gives the record back, when it has a meaning and distinct tags. */
  lemma EditRoundTrip(f: FlowerType, tags: seq<string>)
    requires f.meaning.Some? && f.cultureTags == Some(tags)
    requires forall i, j :: 0 <= i < j < |tags| ==> tags[i] != tags[j]
    ensures Lists(tags, FormFor(Some(f)).selectedCultures)
    ensures ApplyEdit(f, FormFor(Some(f)), tags) == f
  {
  }

  /** A record without a meaning comes back from an untouched edit with an empty one. */
  lemma EditFillsMissingMeaning(f: FlowerType, tags: seq<string>)
    requires f.meaning.None? && Lists(tags, FormFor(Some(f)).selectedCultures)
    ensures ApplyEdit(f, FormFor(Some(f)), tags).meaning == Some("")
    ensures ApplyEdit(f, FormFor(Some(f)), tags) != f
  {
  }

  /**
   * Saving an edit of a record that is in the list replaces it in place: the list keeps its length, the
   * record its id and its usage, and the home screen's total stock moves by the change of quantity.
   */
  lemma EditInPlace(fs: seq<FlowerType>, k: nat, form: EditForm, tags: seq<string>)
    requires k < |fs| && FirstIndexOf(fs, FlowerId, fs[k].id) == Some(k)
    requires Lists(tags, form.selectedCultures)
    ensures var after := ReplaceFirstById(fs, ApplyEdit(fs[k], form, tags));
      && |after| == |fs|
      && after[k].id == fs[k].id && Used(after[k]) == Used(fs[k]) && after[k].initialStock == fs[k].initialStock
      && (forall j :: 0 <= j < |fs| && j != k ==> after[j] == fs[j])
      && TotalStock(after) == TotalStock(fs) - fs[k].quantity + form.quantity
  {
    var g := ApplyEdit(fs[k], form, tags);
    ReplaceFirstByIdSpec(fs, g);
    TotalStockReplace(fs, k, g);
  }

  /** The quantity stepper's range. */
  const StepperMin := 0
  const StepperMax := 1000

  /** One press of the stepper, `up` or down, held to 0...1000. */
  function Step(quantity: int, up: bool): (q: int)
    ensures StepperMin <= quantity <= StepperMax ==> StepperMin <= q <= StepperMax
    ensures StepperMin <= quantity <= StepperMax ==> q - quantity == (if up then (if quantity < StepperMax then 1 else 0) else (if quantity > StepperMin then -1 else 0))
  {
    if up then (if quantity < StepperMax then quantity + 1 else quantity)
    else (if quantity > StepperMin then quantity - 1 else quantity)
  }

  /** Any run of presses from a quantity in range stays in range. */
  function Steps(quantity: int, presses: seq<bool>): int
    decreases |presses|
  {
    if |presses| == 0 then quantity else Steps(Step(quantity, presses[0]), presses[1..])
  }

  lemma {:induction false} StepsStayInRange(quantity: int, presses: seq<bool>)
    requires StepperMin <= quantity <= StepperMax
    ensures StepperMin <= Steps(quantity, presses) <= StepperMax
    decreases |presses|
  {
    if |presses| > 0 {
      StepsStayInRange(Step(quantity, presses[0]), presses[1..]);
    }
  }

  /** The save button: disabled while the name is empty. */
  function SaveEnabled(form: EditForm): (r: bool)
    ensures r <==> |form.name| > 0
  {
    form.name != ""
  }

  /** The starting form cannot be saved: a name must be typed first. */
  lemma BlankFormNeedsName()
    ensures !SaveEnabled(BlankForm)
  {
  }

  /**
   * `EditFlowerSheet.save`: with a record to edit, the edited record goes to `updateFlower`; otherwise the
   * form goes to `addFlower`, under the fresh `newId`. `tags` is the order `Array(selectedCultures)` gives.
   */
  method Save(viewModel: InventoryViewModel, flowerToEdit: Option<FlowerType>, form: EditForm, tags: seq<string>,
              newId: string)
    requires Lists(tags, form.selectedCultures)
    modifies viewModel.service
    ensures flowerToEdit.Some? ==>
      viewModel.service.flowers == ReplaceFirstById(old(viewModel.service.flowers), ApplyEdit(flowerToEdit.value, form, tags))
    ensures flowerToEdit.None? ==>
      viewModel.service.flowers == old(viewModel.service.flowers) +
        [FormFlower(newId, form.name, form.color, form.quantity, form.cost, form.price, form.category, tags, form.meaning)]
    ensures flowerToEdit.Some? ==> (viewModel.service.persisted ==
      if FirstIndexOf(old(viewModel.service.flowers), FlowerId, flowerToEdit.value.id).Some? then Some(viewModel.service.flowers)
      else old(viewModel.service.persisted))
    ensures flowerToEdit.None? ==> viewModel.service.persisted == Some(viewModel.service.flowers)
  {
    if flowerToEdit.Some? {
      viewModel.UpdateFlower(ApplyEdit(flowerToEdit.value, form, tags));
    } else {
      viewModel.AddFlower(newId, form.name, form.color, form.quantity, form.cost, form.price, form.category, tags,
                          form.meaning);
    }
  }

  /** A new record saved from the sheet starts with its whole stock unused. */
  lemma AddedRecordStartsFull(newId: string, form: EditForm, tags: seq<string>)
    ensures var f := FormFlower(newId, form.name, form.color, form.quantity, form.cost, form.price, form.category, tags, form.meaning);
      f.initialStock == f.quantity && Used(f) == 0
  {
  }
}
