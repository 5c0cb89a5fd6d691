/**
 * The view models of Floreboard/ViewModels.swift: the inventory screen's filter, add and delete; the
 * design screen's culture tables, re-entry guard and data-URI split; the settings screen's provider
 * detection and auto-fill.
 */
module ViewModels {
  import opened Prelude
  import opened Models
  import opened Inventory
  import opened Config

  // ---------------------------------------------------------------------------
  // Inventory screen
  // ---------------------------------------------------------------------------

  /** `matchesSearch && matchesCategory` */
  predicate Visible(f: FlowerType, searchText: string, category: Option<FlowerCategory>) {
    && (searchText == "" || CIContains(f.name, searchText))
    && (category.None? || f.category == category.value)
  }

  /** The filter as a value, so that the deletion below can be stated for any filter. */
  function VisibleRule(searchText: string, category: Option<FlowerCategory>): FlowerType -> bool {
    (f: FlowerType) => Visible(f, searchText, category)
  }

  /** `filteredFlowers` */
  function FilteredFlowers(fs: seq<FlowerType>, searchText: string, category: Option<FlowerCategory>)
    : (r: seq<FlowerType>)
    ensures |r| <= |fs|
    ensures forall f :: f in r <==>
      && f in fs
      && (searchText == "" || CIContains(f.name, searchText))
      && (category.None? || f.category == category.value)
  {
    Filter(fs, VisibleRule(searchText, category))
  }

  /** The filter keeps the inventory's order. */
  lemma FilteredFlowersInOrder(fs: seq<FlowerType>, searchText: string, category: Option<FlowerCategory>)
    ensures IsSubsequence(FilteredFlowers(fs, searchText, category), fs)
  {
    FilterIsSubsequence(fs, VisibleRule(searchText, category));
  }

  /** With no search text and no category, every record is shown. */
  lemma NoFilterShowsAll(fs: seq<FlowerType>)
    ensures FilteredFlowers(fs, "", None) == fs
  {
    FilterAll(fs, VisibleRule("", None));
  }

  /** The record `addFlower` builds from the form: its stock starts full, with the given tags. */
  function FormFlower(
    id: string, name: string, color: string, quantity: int, cost: real, price: real,
    category: FlowerCategory, cultureTags: seq<string>, meaning: string): (f: FlowerType)
    ensures f.id == id && f.name == name && f.color == color && f.category == category
    ensures f.quantity == quantity && f.initialStock == quantity
    ensures f.unitCost == cost && f.retailPrice == price && f.meaning == Some(meaning)
    ensures f.cultureTags == Some(cultureTags) && f.totalUsed.None? && f.createdAt.None? && f.updatedAt.None?
  {
    NewFlower(id, name, color, quantity, quantity, category, cost, price, Some(meaning)).(cultureTags := Some(cultureTags))
  }

  /** What a run of `delete(at:)` leaves, how many deletions it made, and whether an index trapped. */
  datatype DeleteRun = DeleteRun(flowers: seq<FlowerType>, deletions: nat, trapped: bool)

  /**
   * `delete(at:)` as written: each offset, in order, indexes `filteredFlowers` as it is at that moment,
   * that is, after the deletions for the earlier offsets have already reached the view model. An offset
   * past the end of the shrunken list traps.
   */
  function DeleteAtAsWritten(fs: seq<FlowerType>, offsets: seq<nat>, keep: FlowerType -> bool): (r: DeleteRun)
    ensures |r.flowers| <= |fs| && r.deletions <= |offsets|
    decreases |offsets|
  {
    if |offsets| == 0 then DeleteRun(fs, 0, false)
    else
      var shown := Filter(fs, keep);
      if offsets[0] >= |shown| then DeleteRun(fs, 0, true)
      else
        var rest := DeleteAtAsWritten(RemoveId(fs, shown[offsets[0]].id), offsets[1..], keep);
        rest.(deletions := rest.deletions + 1)
  }

  /** The ids shown at `offsets` in a list. */
  function IdsAt(shown: seq<FlowerType>, offsets: seq<nat>): (ids: seq<string>)
    requires forall k :: 0 <= k < |offsets| ==> offsets[k] < |shown|
    ensures |ids| == |offsets|
    ensures forall k :: 0 <= k < |offsets| ==> ids[k] == shown[offsets[k]].id
  {
    seq(|offsets|, k requires 0 <= k < |offsets| => shown[offsets[k]].id)
  }

  /** Every record whose id is not among `ids`, in order. */
  function WithoutIds(fs: seq<FlowerType>, ids: seq<string>): (r: seq<FlowerType>)
    ensures forall f :: f in r <==> f in fs && f.id !in ids
  {
    Filter(fs, (f: FlowerType) => f.id !in ids)
  }

  lemma {:induction false} WithoutOneMore(fs: seq<FlowerType>, ids: seq<string>, id: string)
    ensures RemoveId(WithoutIds(fs, ids), id) == WithoutIds(fs, ids + [id])
    decreases |fs|
  {
    if |fs| > 0 {
      WithoutOneMore(fs[1..], ids, id);
      assert (fs[0].id !in ids + [id]) <==> (fs[0].id !in ids && fs[0].id != id);
      if fs[0].id !in ids {
        assert WithoutIds(fs, ids) == [fs[0]] + WithoutIds(fs[1..], ids);
        assert WithoutIds(fs, ids)[1..] == WithoutIds(fs[1..], ids);
      }
    }
  }

  lemma {:induction false} WithoutNoIds(fs: seq<FlowerType>)
    ensures WithoutIds(fs, []) == fs
    decreases |fs|
  {
    if |fs| > 0 {
      WithoutNoIds(fs[1..]);
      assert fs == [fs[0]] + fs[1..];
    }
  }

  /**
   * The deletion the screen evidently means: the rows the user picked, all resolved against the list as
   * it was displayed, are removed, and nothing else.
   */
  lemma DeleteResolvedSpec(fs: seq<FlowerType>, offsets: seq<nat>, keep: FlowerType -> bool)
    requires forall k :: 0 <= k < |offsets| ==> offsets[k] < |Filter(fs, keep)|
    ensures var shown := Filter(fs, keep);
      && (forall k :: 0 <= k < |offsets| ==> shown[offsets[k]] !in WithoutIds(fs, IdsAt(shown, offsets)))
      && (forall f :: f in fs && (forall k :: 0 <= k < |offsets| ==> f.id != shown[offsets[k]].id) ==>
                        f in WithoutIds(fs, IdsAt(shown, offsets)))
  {
    var shown := Filter(fs, keep);
    var ids := IdsAt(shown, offsets);
    forall k | 0 <= k < |offsets|
      ensures shown[offsets[k]].id in ids
    {
      assert ids[k] == shown[offsets[k]].id;
    }
  }

  /**
   * With three records all shown, deleting rows 0 and 1 as written removes the first and the third; the
   * second, which the user picked, survives.
   */
  lemma DeleteRowsZeroOne(a: FlowerType, b: FlowerType, c: FlowerType, keep: FlowerType -> bool)
    requires a.id != b.id && b.id != c.id && a.id != c.id && keep(a) && keep(b) && keep(c)
    ensures DeleteAtAsWritten([a, b, c], [0, 1], keep) == DeleteRun([b], 2, false)
  {
    assert [a, b, c] == [a] + [b, c] && [b, c] == [b] + [c] && [c] == [c] + [];
    FilterAll([b, c], keep);
    RemoveIdCons(c, [], c.id);
    RemoveIdCons(b, [c], c.id);
    assert RemoveId([b, c], c.id) == [b];
    assert [1][1..] == [];
    assert DeleteAtAsWritten([b, c], [1], keep) == DeleteRun([b], 1, false);
    FilterAll([a, b, c], keep);
    RemoveIdCons(c, [], a.id);
    RemoveIdCons(b, [c], a.id);
    RemoveIdCons(a, [b, c], a.id);
    assert RemoveId([a, b, c], a.id) == [b, c];
    assert [0, 1][1..] == [1];
  }

  /** Resolving both rows first removes exactly the two picked records. */
  lemma DeleteRowsZeroOneResolved(a: FlowerType, b: FlowerType, c: FlowerType, keep: FlowerType -> bool)
    requires a.id != b.id && b.id != c.id && a.id != c.id && keep(a) && keep(b) && keep(c)
    ensures WithoutIds([a, b, c], IdsAt(Filter([a, b, c], keep), [0, 1])) == [c]
  {
    assert [a, b, c] == [a] + [b, c] && [b, c] == [b] + [c] && [c] == [c] + [];
    FilterAll([a, b, c], keep);
    assert IdsAt([a, b, c], [0, 1]) == [a.id, b.id];
    WithoutIdsCons(c, [], [a.id, b.id]);
    WithoutIdsCons(b, [c], [a.id, b.id]);
    WithoutIdsCons(a, [b, c], [a.id, b.id]);
  }

  /** Picking rows 1 and 2 of three deletes the second record and then traps. */
  lemma DeleteRowsOneTwoTraps(a: FlowerType, b: FlowerType, c: FlowerType, keep: FlowerType -> bool)
    requires a.id != b.id && b.id != c.id && a.id != c.id && keep(a) && keep(b) && keep(c)
    ensures DeleteAtAsWritten([a, b, c], [1, 2], keep) == DeleteRun([a, c], 1, true)
  {
    assert [a, b, c] == [a] + [b, c] && [b, c] == [b] + [c] && [a, c] == [a] + [c] && [c] == [c] + [];
    FilterAll([a, b, c], keep);
    FilterAll([a, c], keep);
    RemoveIdCons(c, [], b.id);
    RemoveIdCons(b, [c], b.id);
    RemoveIdCons(a, [b, c], b.id);
    assert [1, 2][1..] == [2];
    assert DeleteAtAsWritten([a, c], [2], keep) == DeleteRun([a, c], 0, true);
  }

  /** One offset inside the shown list: its record goes, and the rest of the run follows. */
  lemma DeleteStep(fs: seq<FlowerType>, offsets: seq<nat>, keep: FlowerType -> bool)
    requires |offsets| > 0 && offsets[0] < |Filter(fs, keep)|
    ensures DeleteAtAsWritten(fs, offsets, keep).flowers
         == DeleteAtAsWritten(RemoveId(fs, Filter(fs, keep)[offsets[0]].id), offsets[1..], keep).flowers
    ensures DeleteAtAsWritten(fs, offsets, keep).trapped
         == DeleteAtAsWritten(RemoveId(fs, Filter(fs, keep)[offsets[0]].id), offsets[1..], keep).trapped
    ensures DeleteAtAsWritten(fs, offsets, keep).deletions
         == 1 + DeleteAtAsWritten(RemoveId(fs, Filter(fs, keep)[offsets[0]].id), offsets[1..], keep).deletions
  {
  }

  /** The loop's step, on values: the run from the next state accounts for the rest of the goal. */
  lemma DeleteAdvance(fs: seq<FlowerType>, rest: seq<nat>, keep: FlowerType -> bool, goal: DeleteRun, i: nat,
                      next: seq<FlowerType>)
    requires |rest| > 0 && rest[0] < |Filter(fs, keep)| && next == RemoveId(fs, Filter(fs, keep)[rest[0]].id)
    requires DeleteAtAsWritten(fs, rest, keep).flowers == goal.flowers
    requires DeleteAtAsWritten(fs, rest, keep).trapped == goal.trapped
    requires i + DeleteAtAsWritten(fs, rest, keep).deletions == goal.deletions
    ensures DeleteAtAsWritten(next, rest[1..], keep).flowers == goal.flowers
    ensures DeleteAtAsWritten(next, rest[1..], keep).trapped == goal.trapped
    ensures i + 1 + DeleteAtAsWritten(next, rest[1..], keep).deletions == goal.deletions
  {
    DeleteStep(fs, rest, keep);
  }

  /** One offset past the shown list: the run stops there, trapped, with nothing more deleted. */
  lemma DeleteTraps(fs: seq<FlowerType>, offsets: seq<nat>, keep: FlowerType -> bool)
    requires |offsets| > 0 && offsets[0] >= |Filter(fs, keep)|
    ensures DeleteAtAsWritten(fs, offsets, keep) == DeleteRun(fs, 0, true)
  {
  }

  lemma RemoveIdCons(f: FlowerType, rest: seq<FlowerType>, id: string)
    ensures RemoveId([f] + rest, id) == (if f.id != id then [f] else []) + RemoveId(rest, id)
  {
    assert ([f] + rest)[1..] == rest;
  }

  lemma WithoutIdsCons(f: FlowerType, rest: seq<FlowerType>, ids: seq<string>)
    ensures WithoutIds([f] + rest, ids) == (if f.id !in ids then [f] else []) + WithoutIds(rest, ids)
  {
    assert ([f] + rest)[1..] == rest;
  }

  /** `InventoryViewModel`: the search field and category picker over the shared inventory service. */
  class InventoryViewModel {
    var searchText: string
    var selectedCategory: Option<FlowerCategory>
    /** `flowers` is bound to the service's list, so the view model reads the service. */
    const service: InventoryService

    constructor(service: InventoryService)
      ensures this.service == service && searchText == "" && selectedCategory.None?
    {
      this.service := service;
      searchText := "";
      selectedCategory := None;
    }

    /** `filteredFlowers` over the list the service holds now. */
    function Shown(): seq<FlowerType>
      reads this, service
    {
      Filter(service.flowers, VisibleRule(searchText, selectedCategory))
    }

    /** `addFlower`: the form record, appended through the service. */
    method AddFlower(id: string, name: string, color: string, quantity: int, cost: real, price: real,
                     category: FlowerCategory, cultureTags: seq<string>, meaning: string)
      modifies service
      ensures service.flowers == old(service.flowers) + [FormFlower(id, name, color, quantity, cost, price, category, cultureTags, meaning)]
      ensures service.persisted == Some(service.flowers)
    {
      var flower := NewFlower(id, name, color, quantity, quantity, category, cost, price, Some(meaning));
      flower := flower.(cultureTags := Some(cultureTags));
      service.AddFlower(flower);
    }

    /** `updateFlower`: the edited record, handed to the service. */
    method UpdateFlower(f: FlowerType)
      modifies service
      ensures service.flowers == ReplaceFirstById(old(service.flowers), f)
      ensures service.persisted ==
        if FirstIndexOf(old(service.flowers), FlowerId, f.id).Some? then Some(service.flowers) else old(service.persisted)
    {
      service.UpdateFlower(f);
    }

    /** `delete(at:)` as written, the offsets in the ascending order an `IndexSet` yields them. */
    method DeleteAt(offsets: seq<nat>) returns (trapped: bool)
      modifies service
      ensures service.flowers == DeleteAtAsWritten(old(service.flowers), offsets, VisibleRule(searchText, selectedCategory)).flowers
      ensures trapped == DeleteAtAsWritten(old(service.flowers), offsets, VisibleRule(searchText, selectedCategory)).trapped
      ensures service.persisted ==
        if DeleteAtAsWritten(old(service.flowers), offsets, VisibleRule(searchText, selectedCategory)).deletions == 0
        then old(service.persisted) else Some(service.flowers)
    {
      var keep := VisibleRule(searchText, selectedCategory);
      ghost var goal := DeleteAtAsWritten(service.flowers, offsets, keep);
      trapped := false;
      var rest := offsets;
      while rest != []
        invariant |rest| <= |offsets|
        invariant DeleteAtAsWritten(service.flowers, rest, keep).flowers == goal.flowers
        invariant DeleteAtAsWritten(service.flowers, rest, keep).trapped == goal.trapped
        invariant |offsets| - |rest| + DeleteAtAsWritten(service.flowers, rest, keep).deletions == goal.deletions
        invariant service.persisted == if |rest| == |offsets| then old(service.persisted) else Some(service.flowers)
        decreases |rest|
      {
        var index := rest[0];
        var shown := Filter(service.flowers, keep);
        if index >= |shown| {
          DeleteTraps(service.flowers, rest, keep);
          trapped := true;
          return;
        }
        ghost var before := service.flowers;
        service.DeleteFlower(shown[index].id);
        DeleteAdvance(before, rest, keep, goal, |offsets| - |rest|, service.flowers);
        rest := rest[1..];
      }
    }

    /** `delete(_:)`, the row's delete button: every record with the row's id goes, and the list is stored. */
    method Delete(flower: FlowerType)
      modifies service
      ensures service.flowers == RemoveId(old(service.flowers), flower.id)
      ensures service.persisted == Some(service.flowers)
    {
      service.DeleteFlower(flower.id);
    }

    /** The corrected deletion: the picked rows' ids are read first, then deleted one by one. */
    method DeleteAtResolved(offsets: seq<nat>)
      requires forall k :: 0 <= k < |offsets| ==> offsets[k] < |Shown()|
      modifies service
      ensures service.flowers == WithoutIds(old(service.flowers), IdsAt(old(Shown()), offsets))
      ensures service.persisted == if offsets == [] then old(service.persisted) else Some(service.flowers)
    {
      var ids := IdsAt(Filter(service.flowers, VisibleRule(searchText, selectedCategory)), offsets);
      ghost var original := service.flowers;
      WithoutNoIds(original);
      assert ids[..0] == [];
      var i := 0;
      while i < |ids|
        invariant 0 <= i <= |ids|
        invariant service.flowers == WithoutIds(original, ids[..i])
        invariant service.persisted == if i == 0 then old(service.persisted) else Some(service.flowers)
      {
        WithoutOneMore(original, ids[..i], ids[i]);
        TakeSnoc(ids, i);
        service.DeleteFlower(ids[i]);
        i := i + 1;
      }
      assert ids[..i] == ids;
    }
  }

  // ---------------------------------------------------------------------------
  // Design screen
  // ---------------------------------------------------------------------------

  datatype CultureFilter = AllCultures | Japanese | Chinese | Western

  /** `allSchools` */
  const Schools: seq<(string, CultureFilter)> := [
    ("japanese_ikenobo", Japanese), ("japanese_ohara", Japanese), ("japanese_sogetsu", Japanese),
    ("chinese_literati", Chinese), ("chinese_zen", Chinese),
    ("western_biedermeier", Western), ("western_english", Western),
    ("fusion", Western)]

  /** `allTechniques` */
  const Techniques: seq<(string, seq<CultureFilter>)> := [
    ("kenzan", [Japanese]),
    ("spiral_hand_tied", [Western]),
    ("parallel", [Western, Japanese]),
    ("pave", [Western]),
    ("cascade", [Western, Chinese]),
    ("oasis", [Western, Chinese, Japanese]),
    ("wiring", [Western])]

  /** `filteredSchools` over a table. */
  function SchoolsFor(table: seq<(string, CultureFilter)>, filter: CultureFilter): (r: seq<string>)
    ensures |r| <= |table|
    ensures filter == AllCultures ==> |r| == |table|
    decreases |table|
  {
    if |table| == 0 then []
    else (if filter == AllCultures || table[0].1 == filter then [table[0].0] else []) + SchoolsFor(table[1..], filter)
  }

  /** `filteredTechniques` over a table. */
  function TechniquesFor(table: seq<(string, seq<CultureFilter>)>, filter: CultureFilter): (r: seq<string>)
    ensures |r| <= |table|
    ensures filter == AllCultures ==> |r| == |table|
    decreases |table|
  {
    if |table| == 0 then []
    else (if filter == AllCultures || filter in table[0].1 then [table[0].0] else []) + TechniquesFor(table[1..], filter)
  }

  /** For `.all`, every school id in table order; otherwise exactly the ids of the filter's culture. */
  lemma {:induction false} SchoolsForSpec(table: seq<(string, CultureFilter)>, filter: CultureFilter)
    ensures |SchoolsFor(table, filter)| <= |table|
    ensures filter == AllCultures ==>
      |SchoolsFor(table, filter)| == |table| && forall k :: 0 <= k < |table| ==> SchoolsFor(table, filter)[k] == table[k].0
    ensures forall id :: id in SchoolsFor(table, filter) <==>
      exists k :: 0 <= k < |table| && table[k].0 == id && (filter == AllCultures || table[k].1 == filter)
    decreases |table|
  {
    if |table| > 0 {
      SchoolsForSpec(table[1..], filter);
      assert forall k :: 0 <= k < |table| - 1 ==> table[1..][k] == table[k + 1];
      assert forall k :: 1 <= k < |table| ==> table[k] == table[1..][k - 1];
    }
  }

  /** For `.all`, every technique id in table order; otherwise exactly those whose cultures include it. */
  lemma {:induction false} TechniquesForSpec(table: seq<(string, seq<CultureFilter>)>, filter: CultureFilter)
    ensures |TechniquesFor(table, filter)| <= |table|
    ensures filter == AllCultures ==>
      |TechniquesFor(table, filter)| == |table| && forall k :: 0 <= k < |table| ==> TechniquesFor(table, filter)[k] == table[k].0
    ensures forall id :: id in TechniquesFor(table, filter) <==>
      exists k :: 0 <= k < |table| && table[k].0 == id && (filter == AllCultures || filter in table[k].1)
    decreases |table|
  {
    if |table| > 0 {
      TechniquesForSpec(table[1..], filter);
      assert forall k :: 0 <= k < |table| - 1 ==> table[1..][k] == table[k + 1];
      assert forall k :: 1 <= k < |table| ==> table[k] == table[1..][k - 1];
    }
  }

  /** The Japanese and Western schools as the design screen lists them. */
  lemma SchoolTable()
    ensures SchoolsFor(Schools, Japanese) == ["japanese_ikenobo", "japanese_ohara", "japanese_sogetsu"]
    ensures SchoolsFor(Schools, Western) == ["western_biedermeier", "western_english", "fusion"]
  {
  }

  /** The Chinese and Japanese techniques. */
  lemma TechniqueTable()
    ensures TechniquesFor(Techniques, Chinese) == ["cascade", "oasis"]
    ensures TechniquesFor(Techniques, Japanese) == ["kenzan", "parallel", "oasis"]
  {
  }

  /** The request `generateDesign` sends in standard mode: professional mode sets `designMode`. */
  function PlanRequest(request: DesignRequest, isProfessionalMode: bool): (r: DesignRequest)
    ensures isProfessionalMode ==> r.designMode == Some("professional")
    ensures r.(designMode := request.designMode) == request
    ensures !isProfessionalMode ==> r == request
  {
    if isProfessionalMode then request.(designMode := Some("professional")) else request
  }

  /** `components(separatedBy: ",").last ?? s`: the base64 payload of a data URI. */
  function DataUriPayload(s: string): (r: string)
    ensures |r| <= |s| && ',' !in r && r == s[|s| - |r|..]
    ensures ',' !in s ==> r == s
  {
    LastComponent(s, ',')
  }

  /** The payload after the header's comma comes back whole. */
  lemma {:induction false} DataUriRoundTrip(header: string, payload: string)
    requires ',' !in payload
    ensures DataUriPayload(header + "," + payload) == payload
    decreases |payload|
  {
    var s := header + "," + payload;
    if |payload| == 0 {
      assert s[|s| - 1] == ',';
    } else {
      var init := payload[..|payload| - 1];
      assert s[..|s| - 1] == header + "," + init;
      assert s[|s| - 1] == payload[|payload| - 1];
      assert payload[|payload| - 1] in payload;
      assert forall c :: c in init ==> c in payload;
      DataUriRoundTrip(header, init);
      assert init + [payload[|payload| - 1]] == payload;
    }
  }

  /** The state `generateDesign` touches before its task starts. */
  class DesignViewModel {
    var request: DesignRequest
    var isProfessionalMode: bool
    var isLoading: bool
    var loadingStep: int
    var errorMessage: Option<string>
    var cultureFilter: CultureFilter

    constructor(request: DesignRequest)
      ensures this.request == request && !isProfessionalMode && !isLoading && loadingStep == 0
      ensures errorMessage.None? && cultureFilter == AllCultures
    {
      this.request := request;
      isProfessionalMode := false;
      isLoading := false;
      loadingStep := 0;
      errorMessage := None;
      cultureFilter := AllCultures;
    }

    function FilteredSchools(): seq<string>
      reads this
    {
      SchoolsFor(Schools, cultureFilter)
    }

    function FilteredTechniques(): seq<string>
      reads this
    {
      TechniquesFor(Techniques, cultureFilter)
    }

    /** The synchronous start of `generateDesign`: a call while loading returns at once. */
    method BeginGenerate() returns (started: bool)
      modifies this
      ensures started == !old(isLoading)
      ensures old(isLoading) ==> isLoading && loadingStep == old(loadingStep) && errorMessage == old(errorMessage)
      ensures !old(isLoading) ==> isLoading && loadingStep == 0 && errorMessage.None?
      ensures request == old(request) && isProfessionalMode == old(isProfessionalMode) && cultureFilter == old(cultureFilter)
    {
      if isLoading {
        return false;
      }
      isLoading := true;
      loadingStep := 0;
      errorMessage := None;
      return true;
    }
  }

  // ---------------------------------------------------------------------------
  // Settings screen
  // ---------------------------------------------------------------------------

  /** `AIProvider.all.first(where:)` */
  function FirstProvider(ps: seq<AIProvider>, p: AIProvider -> bool): (r: Option<nat>)
    ensures r.Some? ==> r.value < |ps| && p(ps[r.value]) && forall j :: 0 <= j < r.value ==> !p(ps[j])
    ensures r.None? ==> forall j :: 0 <= j < |ps| ==> !p(ps[j])
    decreases |ps|
  {
    if |ps| == 0 then None
    else if p(ps[0]) then Some(0)
    else match FirstProvider(ps[1..], p)
      case None => None
      case Some(k) => Some(k + 1)
  }

  /** Settings `init`: the first preset with the config's endpoint, else "custom". */
  function DetectProvider(endpoint: string): (id: string)
    ensures FirstProvider(Providers(), (pr: AIProvider) => pr.endpoint == endpoint).None? ==> id == "custom"
    ensures FirstProvider(Providers(), (pr: AIProvider) => pr.endpoint == endpoint).Some? ==>
      id == Providers()[FirstProvider(Providers(), (pr: AIProvider) => pr.endpoint == endpoint).value].id
  {
    match FirstProvider(Providers(), (pr: AIProvider) => pr.endpoint == endpoint)
    case Some(k) => Providers()[k].id
    case None => "custom"
  }

  function FirstOr(s: seq<string>): string {
    if |s| > 0 then s[0] else ""
  }

  /**
   * `updateProvider`'s effect on the config: a known preset other than "custom" fills in the endpoint,
   * the three models (each the preset's first, or ""), and the image endpoint (nil when the preset has
   * none). No other field changes, and "custom" or an unknown id changes nothing.
   */
  function ApplyProvider(cfg: ApiConfig, providerId: string): (c: ApiConfig)
    ensures c.(endpoint := cfg.endpoint, textModel := cfg.textModel, visionModel := cfg.visionModel,
               imageEndpoint := cfg.imageEndpoint, imageModel := cfg.imageModel) == cfg
    ensures providerId == "custom" ==> c == cfg
    ensures FirstProvider(Providers(), (pr: AIProvider) => pr.id == providerId).None? ==> c == cfg
  {
    match FirstProvider(Providers(), (pr: AIProvider) => pr.id == providerId)
    case None => cfg
    case Some(k) =>
      if providerId == "custom" then cfg
      else
        var p := Providers()[k];
        cfg.(endpoint := p.endpoint, textModel := FirstOr(p.models), visionModel := FirstOr(p.visionModels),
             imageEndpoint := if p.imageEndpoint == "" then None else Some(p.imageEndpoint),
             imageModel := FirstOr(p.imageModels))
  }

  /** Picking a preset and reopening the screen detects the same preset. */
  lemma DetectAfterApply(cfg: ApiConfig, k: nat)
    requires k < 4
    ensures DetectProvider(ApplyProvider(cfg, Providers()[k].id).endpoint) == Providers()[k].id
  {
    var ps := Providers();
    var id := ps[k].id;
    var byId := (pr: AIProvider) => pr.id == id;
    assert FirstProvider(ps, byId) == Some(k) by {
      assert byId(ps[k]);
    }
    var e := ApplyProvider(cfg, id).endpoint;
    assert e == ps[k].endpoint;
    var byEndpoint := (pr: AIProvider) => pr.endpoint == e;
    assert FirstProvider(ps, byEndpoint) == Some(k) by {
      assert byEndpoint(ps[k]);
    }
  }

  /** Choosing the Aliyun preset gives the default image model, and so the Aliyun task path. */
  lemma AliyunPresetModels(cfg: ApiConfig)
    ensures var c := ApplyProvider(cfg, "aliyun");
      && c.endpoint == "https://dashscope.aliyuncs.com/compatible-mode/v1"
      && c.textModel == "qwen-plus" && c.visionModel == "qwen-vl-max"
      && c.imageEndpoint == Some("https://dashscope.aliyuncs.com") && c.imageModel == DefaultConfig().imageModel
      && c.apiKey == cfg.apiKey && c.budget == cfg.budget
  {
    assert FirstProvider(Providers(), (pr: AIProvider) => pr.id == "aliyun") == Some(0);
  }

  /** DeepSeek has no vision or image models and no image endpoint: those fields are cleared. */
  lemma DeepSeekPresetClears(cfg: ApiConfig)
    ensures var c := ApplyProvider(cfg, "deepseek");
      c.visionModel == "" && c.imageModel == "" && c.imageEndpoint.None?
  {
    var byId := (pr: AIProvider) => pr.id == "deepseek";
    assert FirstProvider(Providers(), byId) == Some(2) by {
      assert !byId(Providers()[0]) && !byId(Providers()[1]) && byId(Providers()[2]);
    }
  }

  /** `SettingsViewModel` */
  class SettingsViewModel {
    var config: ApiConfig
    var selectedProviderID: string

    /** `init()`, given `currentConfig`. */
    constructor(current: ApiConfig)
      ensures config == current && selectedProviderID == DetectProvider(current.endpoint)
    {
      config := current;
      var found := FirstProvider(Providers(), (pr: AIProvider) => pr.endpoint == current.endpoint);
      if found.Some? {
        selectedProviderID := Providers()[found.value].id;
      } else {
        selectedProviderID := "custom";
      }
    }

    method UpdateProvider(providerId: string)
      modifies this
      ensures selectedProviderID == providerId
      ensures config == ApplyProvider(old(config), providerId)
    {
      selectedProviderID := providerId;
      var provider := FirstProvider(Providers(), (pr: AIProvider) => pr.id == providerId);
      if provider.Some? && providerId != "custom" {
        var p := Providers()[provider.value];
        config := config.(endpoint := p.endpoint);
        config := config.(textModel := FirstOr(p.models));
        config := config.(visionModel := FirstOr(p.visionModels));
        config := config.(imageEndpoint := if p.imageEndpoint == "" then None else Some(p.imageEndpoint));
        config := config.(imageModel := FirstOr(p.imageModels));
      }
    }

    /** `save()`: hands the edited config to the configuration store; `keychainSaved` as in `Update`. */
    method Save(store: ConfigStore, keychainSaved: bool)
      modifies store
      ensures Stores(store.plain, store.secure) == Update(old(Stores(store.plain, store.secure)), config, keychainSaved)
    {
      store.UpdateConfig(config, keychainSaved);
    }
  }
}
