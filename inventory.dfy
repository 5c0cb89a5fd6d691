/**
 * `InventoryService` of Floreboard/Services.swift: the flower records, their persistence slot, and the
 * fuzzy-name deduction run when a design is executed.
 */
module Inventory {
  import opened Prelude
  import opened Models
  import opened Seed

  // ---------------------------------------------------------------------------
  // Matching a plan line item to a record
  // ---------------------------------------------------------------------------

  /**
   * The one test `deductInventory` applies to a record's name and an item's name: case-insensitive
   * equality, the record's name containing the item's, or the item's name containing the record's. The
   * three are or-ed, with no precedence.
   */
  predicate NameMatches(flowerName: string, itemName: string)
    ensures Fold(flowerName) == Fold(itemName) ==> NameMatches(flowerName, itemName)
  {
    CIEquals(flowerName, itemName) || CIContains(flowerName, itemName) || CIContains(itemName, flowerName)
  }

  /**
   * The equality clause matters only for two empty names: equal non-empty folded names contain each other,
   * but no string contains the empty one.
   */
  lemma NameMatchesIsContainment(flowerName: string, itemName: string)
    ensures NameMatches(flowerName, itemName) <==>
      (flowerName == "" && itemName == "") || CIContains(flowerName, itemName) || CIContains(itemName, flowerName)
  {
    if CIEquals(flowerName, itemName) {
      ContainsSelf(Fold(flowerName));
      if itemName == "" {
        assert |Fold(flowerName)| == 0;
      }
    }
  }

  /** An item with an empty name matches exactly the records with an empty name. */
  lemma EmptyItemNameMatchesOnlyEmptyName(flowerName: string)
    ensures NameMatches(flowerName, "") <==> flowerName == ""
  {
    CIContainsEmpty(flowerName);
    if CIEquals(flowerName, "") {
      assert |Fold(flowerName)| == 0;
    }
  }

  /** A record with an empty name matches only an item with an empty name. */
  lemma EmptyRecordNameMatchesOnlyEmptyItem(itemName: string)
    ensures NameMatches("", itemName) <==> itemName == ""
  {
    CIContainsEmpty(itemName);
    if CIEquals("", itemName) {
      assert |Fold(itemName)| == 0;
    }
  }

  /**
   * A test of a record's name against an item's name. The pass below is stated for any such test, since
   * none of its bookkeeping depends on what the test is; the service runs it with `NameMatches`.
   */
  type MatchRule = (string, string) -> bool

  /** `firstIndex(where:)` with the match test: the earliest matching record, if any. */
  function FirstMatch(fs: seq<FlowerType>, name: string, rule: MatchRule): (r: Option<nat>)
    ensures r.Some? ==> r.value < |fs| && rule(fs[r.value].name, name)
    ensures r.Some? ==> forall j {:trigger rule(fs[j].name, name)} :: 0 <= j < r.value ==> !rule(fs[j].name, name)
    ensures r.None? <==> forall j {:trigger rule(fs[j].name, name)} :: 0 <= j < |fs| ==> !rule(fs[j].name, name)
    decreases |fs|
  {
    if |fs| == 0 then None
    else if rule(fs[0].name, name) then Some(0)
    else match FirstMatch(fs[1..], name, rule)
      case None => None
      case Some(k) => Some(k + 1)
  }

  /** The characterization pins the first match down: a match with none before it is the one returned. */
  lemma {:induction false} FirstMatchIs(fs: seq<FlowerType>, name: string, j: nat, rule: MatchRule)
    requires j < |fs| && rule(fs[j].name, name)
    requires forall k :: 0 <= k < j ==> !rule(fs[k].name, name)
    ensures FirstMatch(fs, name, rule) == Some(j)
    decreases j
  {
    if j > 0 {
      assert forall k :: 0 <= k < j - 1 ==> fs[1..][k] == fs[k + 1];
      FirstMatchIs(fs[1..], name, j - 1, rule);
    }
  }

  /** An earlier matching record always wins, whatever kind of match a later record would make. */
  lemma EarlierMatchWins(fs: seq<FlowerType>, name: string, i: nat, j: nat, rule: MatchRule)
    requires i < j < |fs| && rule(fs[i].name, name)
    ensures FirstMatch(fs, name, rule).Some? && FirstMatch(fs, name, rule).value <= i
    ensures FirstMatch(fs, name, rule) != Some(j)
  {
  }

  /** Two record lists with the same ids and names in the same order. */
  predicate SameKeys(a: seq<FlowerType>, b: seq<FlowerType>) {
    |a| == |b| && forall i :: 0 <= i < |a| ==> a[i].name == b[i].name && a[i].id == b[i].id
  }

  /** Matching looks at names only, so lists with the same names route every item to the same index. */
  lemma FirstMatchSameNames(a: seq<FlowerType>, b: seq<FlowerType>, name: string, rule: MatchRule)
    requires SameKeys(a, b)
    ensures FirstMatch(a, name, rule) == FirstMatch(b, name, rule)
  {
    assert forall j :: 0 <= j < |a| ==> (rule(a[j].name, name) <==> rule(b[j].name, name));
    match FirstMatch(a, name, rule)
    case None =>
    case Some(v) =>
      FirstMatchIs(b, name, v, rule);
  }

  // ---------------------------------------------------------------------------
  // Deduction, as a function of the records and the line items
  // ---------------------------------------------------------------------------

  function Max(a: int, b: int): int {
    if a >= b then a else b
  }

  /** `totalUsed ?? 0` */
  function Used(f: FlowerType): int {
    f.totalUsed.GetOr(0)
  }

  /** `b` is `a` with at most the stock fields (quantity, totalUsed, updatedAt) changed. */
  predicate StockFieldsOnly(a: FlowerType, b: FlowerType) {
    b == a.(quantity := b.quantity, totalUsed := b.totalUsed, updatedAt := b.updatedAt)
  }

  /** One hit: stock clamped at zero, the count added to `totalUsed`, the timestamp set. */
  function Deducted(f: FlowerType, count: int, now: real): (r: FlowerType)
    ensures StockFieldsOnly(f, r) && r.updatedAt == Some(now)
    ensures r.quantity >= 0 && Used(r) == Used(f) + count
    ensures count >= 0 ==> r.quantity <= Max(f.quantity, 0)
  {
    f.(quantity := Max(0, f.quantity - count), totalUsed := Some(Used(f) + count), updatedAt := Some(now))
  }

  /** The records after a pass over the items, and the records changed, one per matched item. */
  datatype Deduction = Deduction(flowers: seq<FlowerType>, changed: seq<FlowerType>)

  /**
   * The pass `deductInventory` makes over a running copy of the records: each item hits the first
   * matching record of the copy as it stands; unmatched items are skipped.
   */
  function Deduct(fs: seq<FlowerType>, items: seq<DesignFlowerItem>, now: real, rule: MatchRule): (d: Deduction)
    ensures SameKeys(d.flowers, fs)
    ensures |d.changed| <= |items|
    decreases |items|
  {
    if |items| == 0 then Deduction(fs, [])
    else match FirstMatch(fs, items[0].flowerName, rule)
      case None => Deduct(fs, items[1..], now, rule)
      case Some(k) =>
        var f := Deducted(fs[k], items[0].count, now);
        var rest := Deduct(fs[k := f], items[1..], now, rule);
        Deduction(rest.flowers, [f] + rest.changed)
  }

  /** The items of a plan that hit some record of `fs`. */
  function MatchedItems(fs: seq<FlowerType>, items: seq<DesignFlowerItem>, rule: MatchRule): seq<DesignFlowerItem> {
    Filter(items, (it: DesignFlowerItem) => FirstMatch(fs, it.flowerName, rule).Some?)
  }

  /** The counts of the items whose first match in `fs` is record `i`, in item order. */
  function HitCounts(fs: seq<FlowerType>, items: seq<DesignFlowerItem>, i: nat, rule: MatchRule): seq<int>
    decreases |items|
  {
    if |items| == 0 then []
    else (if FirstMatch(fs, items[0].flowerName, rule) == Some(i) then [items[0].count] else [])
         + HitCounts(fs, items[1..], i, rule)
  }

  function Sum(xs: seq<int>): int
    decreases |xs|
  {
    if |xs| == 0 then 0 else xs[0] + Sum(xs[1..])
  }

  /** The number of items that hit record `i`, and the sum of their counts. */
  function HitCount(fs: seq<FlowerType>, items: seq<DesignFlowerItem>, i: nat, rule: MatchRule): nat {
    |HitCounts(fs, items, i, rule)|
  }

  function HitSum(fs: seq<FlowerType>, items: seq<DesignFlowerItem>, i: nat, rule: MatchRule): int {
    Sum(HitCounts(fs, items, i, rule))
  }

  predicate NonNegativeCounts(items: seq<DesignFlowerItem>) {
    forall k :: 0 <= k < |items| ==> items[k].count >= 0
  }

  predicate NonNegative(xs: seq<int>) {
    forall k :: 0 <= k < |xs| ==> xs[k] >= 0
  }

  lemma {:induction false} HitsSameNames(a: seq<FlowerType>, b: seq<FlowerType>, items: seq<DesignFlowerItem>, i: nat, rule: MatchRule)
    requires SameKeys(a, b)
    ensures HitCounts(a, items, i, rule) == HitCounts(b, items, i, rule)
    decreases |items|
  {
    if |items| > 0 {
      FirstMatchSameNames(a, b, items[0].flowerName, rule);
      HitsSameNames(a, b, items[1..], i, rule);
    }
  }

  lemma {:induction false} MatchedSameNames(a: seq<FlowerType>, b: seq<FlowerType>, items: seq<DesignFlowerItem>, rule: MatchRule)
    requires SameKeys(a, b)
    ensures MatchedItems(a, items, rule) == MatchedItems(b, items, rule)
    decreases |items|
  {
    if |items| > 0 {
      FirstMatchSameNames(a, b, items[0].flowerName, rule);
      MatchedSameNames(a, b, items[1..], rule);
    }
  }

  /** The hits of a record are some of the items' counts, so non-negative counts give non-negative hits. */
  lemma {:induction false} HitCountsNonNegative(fs: seq<FlowerType>, items: seq<DesignFlowerItem>, i: nat, rule: MatchRule)
    requires NonNegativeCounts(items)
    ensures NonNegative(HitCounts(fs, items, i, rule))
    decreases |items|
  {
    if |items| > 0 {
      assert NonNegativeCounts(items[1..]);
      HitCountsNonNegative(fs, items[1..], i, rule);
    }
  }

  lemma {:induction false} SumNonNegative(xs: seq<int>)
    requires NonNegative(xs)
    ensures Sum(xs) >= 0
    decreases |xs|
  {
    if |xs| > 0 {
      assert NonNegative(xs[1..]);
      SumNonNegative(xs[1..]);
    }
  }

  /** A record no item hits has a zero hit sum; with non-negative counts every hit sum is non-negative. */
  lemma HitSumBounds(fs: seq<FlowerType>, items: seq<DesignFlowerItem>, i: nat, rule: MatchRule)
    ensures HitCount(fs, items, i, rule) == 0 ==> HitSum(fs, items, i, rule) == 0
    ensures NonNegativeCounts(items) ==> HitSum(fs, items, i, rule) >= 0
  {
    if NonNegativeCounts(items) {
      HitCountsNonNegative(fs, items, i, rule);
      SumNonNegative(HitCounts(fs, items, i, rule));
    }
  }

  /** The hits of a record applied one after another, in item order. */
  function ApplyHits(f: FlowerType, counts: seq<int>, now: real): FlowerType
    decreases |counts|
  {
    if |counts| == 0 then f else ApplyHits(Deducted(f, counts[0], now), counts[1..], now)
  }

  /**
   * What being hit by items whose counts sum to `sum` does to record `a`: only the stock fields change,
   * `totalUsed` grows by `sum`, `updatedAt` is set, and the quantity is `a`'s minus `sum`, clamped at zero
   * (the last for non-negative counts only).
   */
  predicate HitOutcome(a: FlowerType, r: FlowerType, sum: int, now: real, nonNegative: bool) {
    && StockFieldsOnly(a, r)
    && r.totalUsed == Some(Used(a) + sum)
    && r.updatedAt == Some(now)
    && r.quantity >= 0
    && (nonNegative ==> r.quantity == Max(0, a.quantity - sum))
  }

  /** A single hit has that outcome, and an outcome after a hit composes with the hit. */
  lemma HitOutcomeCompose(a: FlowerType, c: int, r: FlowerType, sum: int, now: real, nonNegative: bool)
    requires nonNegative ==> c >= 0 && sum >= 0
    ensures HitOutcome(a, Deducted(a, c, now), c, now, nonNegative)
    ensures HitOutcome(Deducted(a, c, now), r, sum, now, nonNegative) ==> HitOutcome(a, r, c + sum, now, nonNegative)
  {
  }

  /** Applying one or more hits has the outcome of their sum. */
  lemma {:induction false} ApplyHitsOutcome(f: FlowerType, counts: seq<int>, now: real)
    requires |counts| > 0
    ensures HitOutcome(f, ApplyHits(f, counts, now), Sum(counts), now, NonNegative(counts))
    decreases |counts|
  {
    var rest := counts[1..];
    var g := Deducted(f, counts[0], now);
    assert NonNegative(counts) ==> NonNegative(rest) && counts[0] >= 0;
    if NonNegative(counts) {
      SumNonNegative(rest);
    }
    if |rest| == 0 {
      HitOutcomeCompose(f, counts[0], g, 0, now, NonNegative(counts));
    } else {
      ApplyHitsOutcome(g, rest, now);
      assert HitOutcome(g, ApplyHits(g, rest, now), Sum(rest), now, NonNegative(counts));
      HitOutcomeCompose(f, counts[0], ApplyHits(g, rest, now), Sum(rest), now, NonNegative(counts));
    }
  }

  /** Each record ends as its own hits, applied in item order, leave it. */
  lemma {:induction false} DeductApplies(fs: seq<FlowerType>, items: seq<DesignFlowerItem>, now: real, i: nat, rule: MatchRule)
    requires i < |fs|
    ensures Deduct(fs, items, now, rule).flowers[i] == ApplyHits(fs[i], HitCounts(fs, items, i, rule), now)
    decreases |items|
  {
    if |items| > 0 {
      var rest := items[1..];
      DeductUnfold(fs, items, now, rule);
      match FirstMatch(fs, items[0].flowerName, rule)
      case None =>
        assert HitCounts(fs, items, i, rule) == HitCounts(fs, rest, i, rule);
        DeductApplies(fs, rest, now, i, rule);
      case Some(k) =>
        var c := items[0].count;
        var fs' := fs[k := Deducted(fs[k], c, now)];
        assert SameKeys(fs', fs);
        HitsSameNames(fs', fs, rest, i, rule);
        DeductApplies(fs', rest, now, i, rule);
        if k == i {
          assert HitCounts(fs, items, i, rule) == [c] + HitCounts(fs, rest, i, rule);
          assert ([c] + HitCounts(fs, rest, i, rule))[1..] == HitCounts(fs, rest, i, rule);
        } else {
          assert HitCounts(fs, items, i, rule) == HitCounts(fs, rest, i, rule);
        }
    }
  }

  /**
   * What a pass does to each record: a record no item hits is unchanged; a record hit by one or more items
   * has the outcome of the sum of their counts.
   */
  lemma DeductRecord(fs: seq<FlowerType>, items: seq<DesignFlowerItem>, now: real, i: nat, rule: MatchRule)
    requires i < |fs|
    ensures HitCount(fs, items, i, rule) == 0 ==> Deduct(fs, items, now, rule).flowers[i] == fs[i]
    ensures HitCount(fs, items, i, rule) > 0 ==>
      HitOutcome(fs[i], Deduct(fs, items, now, rule).flowers[i], HitSum(fs, items, i, rule), now, NonNegativeCounts(items))
  {
    var counts := HitCounts(fs, items, i, rule);
    DeductApplies(fs, items, now, i, rule);
    if |counts| > 0 {
      ApplyHitsOutcome(fs[i], counts, now);
      if NonNegativeCounts(items) {
        HitCountsNonNegative(fs, items, i, rule);
      }
    }
  }

  /**
   * `ch` lists, for each matched item in order, a copy of the record it hit that differs from the record
   * only in its stock fields and carries the timestamp `now`.
   */
  predicate ChangedAgrees(fs: seq<FlowerType>, m: seq<DesignFlowerItem>, ch: seq<FlowerType>, now: real, rule: MatchRule) {
    && |ch| == |m|
    && forall k :: 0 <= k < |m| ==>
         FirstMatch(fs, m[k].flowerName, rule).Some? &&
         FirstMatch(fs, m[k].flowerName, rule).value < |fs| &&
         StockFieldsOnly(fs[FirstMatch(fs, m[k].flowerName, rule).value], ch[k]) &&
         ch[k].updatedAt == Some(now)
  }

  /** `b` is `a` record for record, with at most the stock fields of each record changed. */
  predicate StockOnlyChanges(a: seq<FlowerType>, b: seq<FlowerType>) {
    |a| == |b| && forall i :: 0 <= i < |a| ==> StockFieldsOnly(a[i], b[i])
  }

  lemma ChangedAgreesStockOnly(a: seq<FlowerType>, b: seq<FlowerType>, m: seq<DesignFlowerItem>, ch: seq<FlowerType>, now: real, rule: MatchRule)
    requires StockOnlyChanges(b, a) && ChangedAgrees(a, m, ch, now, rule)
    ensures ChangedAgrees(b, m, ch, now, rule)
  {
    assert SameKeys(a, b);
    forall k | 0 <= k < |m|
      ensures FirstMatch(a, m[k].flowerName, rule) == FirstMatch(b, m[k].flowerName, rule)
    {
      FirstMatchSameNames(a, b, m[k].flowerName, rule);
    }
  }

  /** A matched item and the copy of the record it hit extend an agreeing changed list at its front. */
  lemma ChangedAgreesCons(fs: seq<FlowerType>, it: DesignFlowerItem, f: FlowerType, m: seq<DesignFlowerItem>,
                          ch: seq<FlowerType>, now: real, rule: MatchRule)
    requires FirstMatch(fs, it.flowerName, rule).Some?
    requires StockFieldsOnly(fs[FirstMatch(fs, it.flowerName, rule).value], f) && f.updatedAt == Some(now)
    requires ChangedAgrees(fs, m, ch, now, rule)
    ensures ChangedAgrees(fs, [it] + m, [f] + ch, now, rule)
  {
    var m2, ch2 := [it] + m, [f] + ch;
    forall j | 0 <= j < |m2|
      ensures FirstMatch(fs, m2[j].flowerName, rule).Some? && FirstMatch(fs, m2[j].flowerName, rule).value < |fs|
      ensures StockFieldsOnly(fs[FirstMatch(fs, m2[j].flowerName, rule).value], ch2[j])
      ensures ch2[j].updatedAt == Some(now)
    {
      if j > 0 {
        assert m2[j] == m[j - 1] && ch2[j] == ch[j - 1];
      }
    }
  }

  /**
   * The changed list has one entry per matched item, in item order, and that entry is the record the item
   * hit with only its stock fields changed and its timestamp set to `now`.
   */
  lemma {:induction false} DeductChanged(fs: seq<FlowerType>, items: seq<DesignFlowerItem>, now: real, rule: MatchRule)
    ensures ChangedAgrees(fs, MatchedItems(fs, items, rule), Deduct(fs, items, now, rule).changed, now, rule)
    ensures |MatchedItems(fs, items, rule)| <= |items|
    decreases |items|
  {
    if |items| > 0 {
      var rest := items[1..];
      match FirstMatch(fs, items[0].flowerName, rule)
      case None =>
        assert MatchedItems(fs, items, rule) == MatchedItems(fs, rest, rule);
        DeductChanged(fs, rest, now, rule);
      case Some(k) =>
        var f := Deducted(fs[k], items[0].count, now);
        var fs' := fs[k := f];
        assert SameKeys(fs', fs);
        var m' := MatchedItems(fs, rest, rule);
        MatchedSameNames(fs', fs, rest, rule);
        DeductChanged(fs', rest, now, rule);
        var ch' := Deduct(fs', rest, now, rule).changed;
        assert StockOnlyChanges(fs, fs');
        ChangedAgreesStockOnly(fs', fs, m', ch', now, rule);
        var m := MatchedItems(fs, items, rule);
        var ch := Deduct(fs, items, now, rule).changed;
        assert m == [items[0]] + m';
        assert ch == [f] + ch';
        ChangedAgreesCons(fs, items[0], f, m', ch', now, rule);
    }
  }

  /** When no item matches, the pass changes nothing. */
  lemma {:induction false} DeductNoMatch(fs: seq<FlowerType>, items: seq<DesignFlowerItem>, now: real, rule: MatchRule)
    requires MatchedItems(fs, items, rule) == []
    ensures Deduct(fs, items, now, rule) == Deduction(fs, [])
    decreases |items|
  {
    if |items| > 0 {
      DeductNoMatch(fs, items[1..], now, rule);
    }
  }

  /** An empty changed list means no item matched, so the records are as they were. */
  lemma NothingChangedNothingMoved(fs: seq<FlowerType>, items: seq<DesignFlowerItem>, now: real, rule: MatchRule)
    requires Deduct(fs, items, now, rule).changed == []
    ensures Deduct(fs, items, now, rule).flowers == fs
  {
    DeductChanged(fs, items, now, rule);
    DeductNoMatch(fs, items, now, rule);
  }

  /**
   * Running the same items over the result of a pass hits the same records again: a record hit by items of
   * total count `sum` (non-negative counts) has had `2 * sum` added to `totalUsed`.
   */
  lemma DeductTwice(fs: seq<FlowerType>, items: seq<DesignFlowerItem>, now: real, later: real, i: nat, rule: MatchRule)
    requires i < |fs| && NonNegativeCounts(items) && HitCount(fs, items, i, rule) > 0
    ensures var f2 := Deduct(Deduct(fs, items, now, rule).flowers, items, later, rule).flowers;
      |f2| == |fs| && Used(f2[i]) == Used(fs[i]) + 2 * HitSum(fs, items, i, rule)
  {
    var f1 := Deduct(fs, items, now, rule).flowers;
    DeductRecord(fs, items, now, i, rule);
    HitsSameNames(f1, fs, items, i, rule);
    DeductRecord(f1, items, later, i, rule);
  }

  /** Stock never goes negative: clamping keeps a non-negative inventory non-negative, whatever the counts. */
  lemma DeductKeepsStockNonNegative(fs: seq<FlowerType>, items: seq<DesignFlowerItem>, now: real, rule: MatchRule)
    requires forall i :: 0 <= i < |fs| ==> fs[i].quantity >= 0
    ensures forall i :: 0 <= i < |fs| ==> Deduct(fs, items, now, rule).flowers[i].quantity >= 0
  {
    forall i | 0 <= i < |fs|
      ensures Deduct(fs, items, now, rule).flowers[i].quantity >= 0
    {
      DeductRecord(fs, items, now, i, rule);
    }
  }

  /** With non-negative counts, quantities only go down and `totalUsed` only goes up. */
  lemma DeductMonotone(fs: seq<FlowerType>, items: seq<DesignFlowerItem>, now: real, i: nat, rule: MatchRule)
    requires i < |fs| && NonNegativeCounts(items) && fs[i].quantity >= 0
    ensures Deduct(fs, items, now, rule).flowers[i].quantity <= fs[i].quantity
    ensures Used(Deduct(fs, items, now, rule).flowers[i]) >= Used(fs[i])
  {
    DeductRecord(fs, items, now, i, rule);
    HitSumBounds(fs, items, i, rule);
  }

  /** The end-to-end case: a single "Red Rose" record of 50 and a plan asking for 5 "red rose". */
  lemma RedRoseScenario(ids: seq<string>, now: real)
    requires |ids| == 4
    ensures var d := Deduct(Mocks(ids)[..1], [DesignFlowerItem("red rose", 5, None, None)], now, NameMatches);
      d.flowers[0].quantity == 45 && d.flowers[0].totalUsed == Some(5) && |d.changed| == 1
  {
    var fs := Mocks(ids)[..1];
    assert Fold("Red Rose") == Fold("red rose");
    assert NameMatches(fs[0].name, "red rose");
    assert FirstMatch(fs, "red rose", NameMatches) == Some(0);
  }

  /** A plan line with an empty name deducts nothing from records whose names are all non-empty. */
  lemma EmptyItemNameHitsNothing(fs: seq<FlowerType>, count: int, now: real)
    requires forall i :: 0 <= i < |fs| ==> fs[i].name != ""
    ensures Deduct(fs, [DesignFlowerItem("", count, None, None)], now, NameMatches) == Deduction(fs, [])
  {
    forall j | 0 <= j < |fs|
      ensures !NameMatches(fs[j].name, "")
    {
      EmptyItemNameMatchesOnlyEmptyName(fs[j].name);
    }
    assert FirstMatch(fs, "", NameMatches).None?;
  }

  /** A two-record example: a request hits an earlier containment match rather than a later exact one. */
  lemma NoExactMatchPrecedence(peony: FlowerType, ranunculus: FlowerType)
    requires peony.name == "牡丹" && ranunculus.name == "洋牡丹"
    ensures NameMatches(ranunculus.name, "洋牡丹") && CIEquals(ranunculus.name, "洋牡丹")
    ensures FirstMatch([peony, ranunculus], "洋牡丹", NameMatches) == Some(0)
  {
    assert Fold("洋牡丹") == "洋牡丹" && Fold("牡丹") == "牡丹";
    ContainsAffix("洋", "牡丹", "");
    assert "洋" + "牡丹" + "" == "洋牡丹";
    assert NameMatches(peony.name, "洋牡丹");
  }

  /** In the seed inventory the request "洋牡丹" never reaches the exact "洋牡丹" record (index 31). */
  lemma SeedCrossHit(ids: seq<string>)
    requires |ids| == SeedCount
    ensures FirstMatch(InitialData(ids), "洋牡丹", NameMatches).Some?
    ensures FirstMatch(InitialData(ids), "洋牡丹", NameMatches).value <= 25
    ensures FirstMatch(InitialData(ids), "洋牡丹", NameMatches) != Some(31)
    ensures FirstMatch(InitialData(ids), "洋牡丹", NameMatches) == Some(25)
  {
    var fs := InitialData(ids);
    SeedNamesOverlap(ids);
    assert fs[31].name == "洋牡丹";
    assert NameMatches(fs[25].name, "洋牡丹");
    EarlierMatchWins(fs, "洋牡丹", 25, 31, NameMatches);
    SeedHeadMissesRanunculus();
    forall k | 0 <= k < 25
      ensures !NameMatches(fs[k].name, "洋牡丹")
    {
      assert fs[k].name == SeedRows[k].name;
    }
    FirstMatchIs(fs, "洋牡丹", 25, NameMatches);
  }

  /**
   * A name free of upper-case letters that lacks '牡' and has a character outside "洋牡丹"
   * neither equals, contains, nor lies inside "洋牡丹".
   */
  lemma MissesRanunculus(n: string, j: nat)
    requires forall i :: 0 <= i < |n| ==> !('A' <= n[i] <= 'Z')
    requires '牡' !in n && j < |n| && n[j] !in "洋牡丹"
    ensures !NameMatches(n, "洋牡丹")
  {
    FoldUnchanged(n);
    var r := "洋牡丹";
    FoldUnchanged(r);
    if Contains(n, r) {
      ContainsHasChar(n, r, 1);
    }
    if Contains(r, n) {
      ContainsHasChar(r, n, j);
    }
  }

  /** None of the 25 seed names before "牡丹" matches the request "洋牡丹". */
  lemma SeedHeadMissesRanunculus()
    ensures forall k :: 0 <= k < 25 ==> !NameMatches(SeedRows[k].name, "洋牡丹")
  {
    SeedHeadMisses0To4();
    SeedHeadMisses5To9();
    SeedHeadMisses10To14();
    SeedHeadMisses15To19();
    SeedHeadMisses20To24();
  }

  lemma SeedHeadMisses0To4()
    ensures forall k :: 0 <= k < 5 ==> !NameMatches(SeedRows[k].name, "洋牡丹")
  {
    forall k | 0 <= k < 5
      ensures !NameMatches(SeedRows[k].name, "洋牡丹")
    {
      if k == 0 {
        MissesRanunculus(SeedRows[0].name, 0);
      } else if k == 1 {
        MissesRanunculus(SeedRows[1].name, 0);
      } else if k == 2 {
        MissesRanunculus(SeedRows[2].name, 0);
      } else if k == 3 {
        MissesRanunculus(SeedRows[3].name, 0);
      } else {
        assert k == 4;
        MissesRanunculus(SeedRows[4].name, 1);
      }
    }
  }

  lemma SeedHeadMisses5To9()
    ensures forall k :: 5 <= k < 10 ==> !NameMatches(SeedRows[k].name, "洋牡丹")
  {
    forall k | 5 <= k < 10
      ensures !NameMatches(SeedRows[k].name, "洋牡丹")
    {
      if k == 5 {
        MissesRanunculus(SeedRows[5].name, 0);
      } else if k == 6 {
        MissesRanunculus(SeedRows[6].name, 0);
      } else if k == 7 {
        MissesRanunculus(SeedRows[7].name, 0);
      } else if k == 8 {
        MissesRanunculus(SeedRows[8].name, 0);
      } else {
        assert k == 9;
        MissesRanunculus(SeedRows[9].name, 0);
      }
    }
  }

  lemma SeedHeadMisses10To14()
    ensures forall k :: 10 <= k < 15 ==> !NameMatches(SeedRows[k].name, "洋牡丹")
  {
    forall k | 10 <= k < 15
      ensures !NameMatches(SeedRows[k].name, "洋牡丹")
    {
      if k == 10 {
        MissesRanunculus(SeedRows[10].name, 0);
      } else if k == 11 {
        MissesRanunculus(SeedRows[11].name, 1);
      } else if k == 12 {
        MissesRanunculus(SeedRows[12].name, 0);
      } else if k == 13 {
        MissesRanunculus(SeedRows[13].name, 0);
      } else {
        assert k == 14;
        MissesRanunculus(SeedRows[14].name, 0);
      }
    }
  }

  lemma SeedHeadMisses15To19()
    ensures forall k :: 15 <= k < 20 ==> !NameMatches(SeedRows[k].name, "洋牡丹")
  {
    forall k | 15 <= k < 20
      ensures !NameMatches(SeedRows[k].name, "洋牡丹")
    {
      if k == 15 {
        MissesRanunculus(SeedRows[15].name, 0);
      } else if k == 16 {
        MissesRanunculus(SeedRows[16].name, 0);
      } else if k == 17 {
        MissesRanunculus(SeedRows[17].name, 0);
      } else if k == 18 {
        MissesRanunculus(SeedRows[18].name, 0);
      } else {
        assert k == 19;
        MissesRanunculus(SeedRows[19].name, 0);
      }
    }
  }

  lemma SeedHeadMisses20To24()
    ensures forall k :: 20 <= k < 25 ==> !NameMatches(SeedRows[k].name, "洋牡丹")
  {
    forall k | 20 <= k < 25
      ensures !NameMatches(SeedRows[k].name, "洋牡丹")
    {
      if k == 20 {
        MissesRanunculus(SeedRows[20].name, 0);
      } else if k == 21 {
        MissesRanunculus(SeedRows[21].name, 0);
      } else if k == 22 {
        MissesRanunculus(SeedRows[22].name, 0);
      } else if k == 23 {
        MissesRanunculus(SeedRows[23].name, 0);
      } else {
        assert k == 24;
        MissesRanunculus(SeedRows[24].name, 0);
      }
    }
  }

  // ---------------------------------------------------------------------------
  // Add, update, delete, as functions of the record list
  // ---------------------------------------------------------------------------

  /** The key `firstIndex(where: { $0.id == id })` compares. */
  function FlowerId(f: FlowerType): string {
    f.id
  }

  /** `updateFlower`'s effect: the first record with the same id is replaced; no such record, no change. */
  function ReplaceFirstById(fs: seq<FlowerType>, f: FlowerType): seq<FlowerType> {
    match FirstIndexOf(fs, FlowerId, f.id)
    case None => fs
    case Some(k) => fs[k := f]
  }

  /** `removeAll { $0.id == id }` */
  function RemoveId(fs: seq<FlowerType>, id: string): (r: seq<FlowerType>)
    ensures forall f :: f in r <==> f in fs && f.id != id
  {
    Filter(fs, (f: FlowerType) => f.id != id)
  }

  lemma ReplaceFirstByIdSpec(fs: seq<FlowerType>, f: FlowerType)
    ensures |ReplaceFirstById(fs, f)| == |fs|
    ensures FirstIndexOf(fs, FlowerId, f.id).None? ==> ReplaceFirstById(fs, f) == fs
    ensures FirstIndexOf(fs, FlowerId, f.id).Some? ==>
      var k := FirstIndexOf(fs, FlowerId, f.id).value;
      ReplaceFirstById(fs, f)[k] == f &&
      forall j :: 0 <= j < |fs| && j != k ==> ReplaceFirstById(fs, f)[j] == fs[j]
  {
  }

  /** Updating twice with the same record is the same as updating once. */
  lemma {:induction false} ReplaceFirstByIdIdempotent(fs: seq<FlowerType>, f: FlowerType)
    ensures ReplaceFirstById(ReplaceFirstById(fs, f), f) == ReplaceFirstById(fs, f)
  {
    var r := ReplaceFirstById(fs, f);
    match FirstIndexOf(fs, FlowerId, f.id)
    case None =>
    case Some(k) =>
      assert forall j :: 0 <= j < k ==> r[j].id != f.id;
      assert r[k].id == f.id;
      var k' := FirstIndexOf(r, FlowerId, f.id);
      assert k'.Some?;
      assert k'.value == k;
  }

  /** Deleting a fresh record's id right after adding it restores the list. */
  lemma {:induction false} RemoveAfterAppend(fs: seq<FlowerType>, f: FlowerType)
    requires forall j :: 0 <= j < |fs| ==> fs[j].id != f.id
    ensures RemoveId(fs + [f], f.id) == fs
    decreases |fs|
  {
    if |fs| == 0 {
      assert fs + [f] == [f];
    } else {
      assert (fs + [f])[1..] == fs[1..] + [f];
      RemoveAfterAppend(fs[1..], f);
      assert fs == [fs[0]] + fs[1..];
    }
  }

  /** Deleting removes every record with the id and keeps the others in order. */
  lemma RemoveIdSpec(fs: seq<FlowerType>, id: string)
    ensures FirstIndexOf(RemoveId(fs, id), FlowerId, id).None?
    ensures IsSubsequence(RemoveId(fs, id), fs)
  {
    FilterIsSubsequence(fs, (f: FlowerType) => f.id != id);
    var r := RemoveId(fs, id);
    assert forall j :: 0 <= j < |r| ==> r[j] in r;
  }

  // ---------------------------------------------------------------------------
  // The prompt listing
  // ---------------------------------------------------------------------------

  const LowStockMarker := " (LOW STOCK!)"

  /** The marker a record gets in the prompt listing: present exactly when quantity <= threshold. */
  function StockMarker(quantity: int, threshold: int): (r: string)
    ensures r == LowStockMarker <==> quantity <= threshold
    ensures r == "" <==> quantity > threshold
  {
    if quantity <= threshold then LowStockMarker else ""
  }

  /** The part of a listing line before the stock marker. */
  function LineHead(f: FlowerType): string {
    "- " + f.name + " (Color: " + f.color + ", Qty: " + IntToString(f.quantity)
  }

  /**
   * The part after the marker. `formatCost` stands for Swift's rendering of a `Double`, which the model
   * leaves abstract.
   */
  function LineTail(f: FlowerType, formatCost: real -> string): string {
    ", Cost: ¥" + formatCost(f.unitCost) + "/stem, Category: " + f.category.RawValue() + ")"
  }

  /** One line of `getInventoryListString`. */
  function ListingLine(f: FlowerType, threshold: int, formatCost: real -> string): string {
    LineHead(f) + StockMarker(f.quantity, threshold) + LineTail(f, formatCost)
  }

  function ListingLines(fs: seq<FlowerType>, threshold: int, formatCost: real -> string): (lines: seq<string>)
    ensures |lines| == |fs|
    ensures forall i :: 0 <= i < |fs| ==> lines[i] == ListingLine(fs[i], threshold, formatCost)
  {
    seq(|fs|, i requires 0 <= i < |fs| => ListingLine(fs[i], threshold, formatCost))
  }

  /** `getInventoryListString`: the lines joined by newlines, in record order. */
  function InventoryListString(fs: seq<FlowerType>, threshold: int, formatCost: real -> string): string {
    Join(ListingLines(fs, threshold, formatCost), "\n")
  }

  /**
   * The listing of no records is empty; otherwise it opens with the first record's line and contains the
   * line of every record.
   */
  lemma ListingHasEveryLine(fs: seq<FlowerType>, threshold: int, formatCost: real -> string)
    ensures |fs| == 0 ==> InventoryListString(fs, threshold, formatCost) == ""
    ensures |fs| > 0 ==> IsPrefix(ListingLine(fs[0], threshold, formatCost), InventoryListString(fs, threshold, formatCost))
    ensures forall i :: 0 <= i < |fs| ==>
      Contains(InventoryListString(fs, threshold, formatCost), ListingLine(fs[i], threshold, formatCost))
  {
    JoinContainsLines(ListingLines(fs, threshold, formatCost), "\n");
  }

  /**
   * A line opens with "- " and the record's name, and right after its quantity comes the LOW STOCK
   * marker exactly when the quantity is at or below the threshold.
   */
  lemma ListingLineMarker(f: FlowerType, threshold: int, formatCost: real -> string)
    ensures var line := ListingLine(f, threshold, formatCost); var h := |LineHead(f)|;
      && 2 + |f.name| <= |line| && line[..2] == "- " && line[2..2 + |f.name|] == f.name
      && (h + |LowStockMarker| <= |line| && line[h..h + |LowStockMarker|] == LowStockMarker
          <==> f.quantity <= threshold)
  {
    var head, tail := LineHead(f), LineTail(f, formatCost);
    var marker := StockMarker(f.quantity, threshold);
    var line := head + marker + tail;
    var h := |head|;
    var start := "- " + f.name;
    var q := IntToString(f.quantity);
    assert start[..|start|] == start;
    PrefixGrows(start, start, " (Color: ");
    PrefixGrows(start, start + " (Color: ", f.color);
    PrefixGrows(start, start + " (Color: " + f.color, ", Qty: ");
    PrefixGrows(start, start + " (Color: " + f.color + ", Qty: ", q);
    PrefixGrows(start, head, marker);
    PrefixGrows(start, head + marker, tail);
    assert line[..|start|] == start;
    assert line[..2] == start[..2] == "- ";
    assert line[2..2 + |f.name|] == start[2..];
    if f.quantity > threshold {
      var cost := ", Cost: ¥";
      assert cost[..|cost|] == cost;
      PrefixGrows(cost, cost, formatCost(f.unitCost));
      PrefixGrows(cost, cost + formatCost(f.unitCost), "/stem, Category: ");
      PrefixGrows(cost, cost + formatCost(f.unitCost) + "/stem, Category: ", f.category.RawValue());
      PrefixGrows(cost, cost + formatCost(f.unitCost) + "/stem, Category: " + f.category.RawValue(), ")");
      assert tail[1] == cost[1] == ' ';
      assert line == head + tail;
      assert line[h + 1] == ' ';
      if h + |LowStockMarker| <= |line| {
        assert line[h..h + |LowStockMarker|][1] == line[h + 1];
      }
    } else {
      assert line[h..h + |LowStockMarker|] == marker;
    }
  }

  // ---------------------------------------------------------------------------
  // The service
  // ---------------------------------------------------------------------------

  class InventoryService {
    /** `@Published var flowers` */
    var flowers: seq<FlowerType>
    /** The "inventory" slot of the key-value store; None when absent or not decodable. */
    var persisted: Option<seq<FlowerType>>

    /** `init()` runs `loadInventory()` against whatever the store holds. */
    constructor(stored: Option<seq<FlowerType>>, seedIds: seq<string>)
      requires |seedIds| == SeedCount
      ensures persisted == stored
      ensures flowers == if stored.Some? then stored.value else InitialData(seedIds)
    {
      persisted := stored;
      flowers := if stored.Some? then stored.value else InitialData(seedIds);
    }

    /** `loadInventory`: the stored list if it decodes, else the seed table. */
    method LoadInventory(seedIds: seq<string>)
      requires |seedIds| == SeedCount
      modifies this`flowers
      ensures flowers == if persisted.Some? then persisted.value else InitialData(seedIds)
    {
      if persisted.Some? {
        flowers := persisted.value;
      } else {
        flowers := InitialData(seedIds);
      }
    }

    /** `saveInventory`: encode the whole list into the store. */
    method SaveInventory()
      modifies this`persisted
      ensures persisted == Some(flowers)
    {
      persisted := Some(flowers);
    }

    method AddFlower(f: FlowerType)
      modifies this
      ensures flowers == old(flowers) + [f]
      ensures persisted == Some(flowers)
    {
      flowers := flowers + [f];
      SaveInventory();
    }

    method UpdateFlower(f: FlowerType)
      modifies this
      ensures flowers == ReplaceFirstById(old(flowers), f)
      ensures persisted == if FirstIndexOf(old(flowers), FlowerId, f.id).Some? then Some(flowers) else old(persisted)
    {
      var index := FirstIndexOf(flowers, FlowerId, f.id);
      if index.Some? {
        flowers := flowers[index.value := f];
        SaveInventory();
      }
    }

    method DeleteFlower(id: string)
      modifies this
      ensures flowers == RemoveId(old(flowers), id)
      ensures persisted == Some(flowers)
    {
      flowers := RemoveId(flowers, id);
      SaveInventory();
    }

    function GetInventoryListString(lowStockThreshold: int, formatCost: real -> string): (r: string)
      reads this
      ensures |flowers| == 0 ==> r == ""
      ensures forall i :: 0 <= i < |flowers| ==> Contains(r, ListingLine(flowers[i], lowStockThreshold, formatCost))
    {
      ListingHasEveryLine(flowers, lowStockThreshold, formatCost);
      InventoryListString(flowers, lowStockThreshold, formatCost)
    }

    /**
     * `deductInventory(for:)`: one pass over the items on a running copy; the copy is committed and
     * persisted only when something matched. Returns the changed records, one per matched item.
     */
    method DeductInventory(items: seq<DesignFlowerItem>, now: real) returns (changed: seq<FlowerType>)
      modifies this
      ensures changed == Deduct(old(flowers), items, now, NameMatches).changed
      ensures flowers == if changed == [] then old(flowers) else Deduct(old(flowers), items, now, NameMatches).flowers
      ensures persisted == if changed == [] then old(persisted) else Some(flowers)
    {
      var currentFlowers;
      currentFlowers, changed := DeductPass(flowers, items, now, NameMatches);
      if changed != [] {
        flowers := currentFlowers;
        SaveInventory();
      }
    }
  }

  /**
   * The loop of `deductInventory`: each item is looked up in the running copy, and a hit clamps the
   * stock, adds to `totalUsed`, stamps `updatedAt` and appends the record to the changed list.
   */
  method DeductPass(flowers: seq<FlowerType>, items: seq<DesignFlowerItem>, now: real, rule: MatchRule)
    returns (currentFlowers: seq<FlowerType>, changed: seq<FlowerType>)
    ensures currentFlowers == Deduct(flowers, items, now, rule).flowers
    ensures changed == Deduct(flowers, items, now, rule).changed
  {
    changed := [];
    currentFlowers := flowers;
    ghost var goal := Deduct(flowers, items, now, rule);
    var i := 0;
    while i < |items|
      invariant 0 <= i <= |items|
      invariant Deduct(currentFlowers, items[i..], now, rule).flowers == goal.flowers
      invariant changed + Deduct(currentFlowers, items[i..], now, rule).changed == goal.changed
    {
      assert items[i..][0] == items[i];
      assert items[i..][1..] == items[i + 1..];
      DeductUnfold(currentFlowers, items[i..], now, rule);
      var index := FindFirstMatch(currentFlowers, items[i].flowerName, rule);
      if index.Some? {
        var flower := Deducted(currentFlowers[index.value], items[i].count, now);
        currentFlowers := currentFlowers[index.value := flower];
        assert changed + [flower] + Deduct(currentFlowers, items[i + 1..], now, rule).changed
            == changed + ([flower] + Deduct(currentFlowers, items[i + 1..], now, rule).changed);
        changed := changed + [flower];
      }
      i := i + 1;
    }
    assert items[i..] == [];
  }

  /** One item of the pass: a miss leaves the records alone, a hit deducts from the first match. */
  lemma DeductUnfold(fs: seq<FlowerType>, items: seq<DesignFlowerItem>, now: real, rule: MatchRule)
    requires |items| > 0
    ensures FirstMatch(fs, items[0].flowerName, rule).None? ==>
      Deduct(fs, items, now, rule) == Deduct(fs, items[1..], now, rule)
    ensures FirstMatch(fs, items[0].flowerName, rule).Some? ==>
      var k := FirstMatch(fs, items[0].flowerName, rule).value;
      var f := Deducted(fs[k], items[0].count, now);
      Deduct(fs, items, now, rule) ==
        Deduction(Deduct(fs[k := f], items[1..], now, rule).flowers, [f] + Deduct(fs[k := f], items[1..], now, rule).changed)
  {
  }

  /** The `firstIndex(where:)` scan of `deductInventory`. */
  method FindFirstMatch(fs: seq<FlowerType>, name: string, rule: MatchRule) returns (index: Option<nat>)
    ensures index.Some? ==> index.value < |fs| && rule(fs[index.value].name, name)
    ensures index.Some? ==> forall j :: 0 <= j < index.value ==> !rule(fs[j].name, name)
    ensures index.None? ==> forall j :: 0 <= j < |fs| ==> !rule(fs[j].name, name)
    ensures index == FirstMatch(fs, name, rule)
  {
    var j := 0;
    while j < |fs|
      invariant 0 <= j <= |fs|
      invariant forall k :: 0 <= k < j ==> !rule(fs[k].name, name)
    {
      if rule(fs[j].name, name) {
        FirstMatchIs(fs, name, j, rule);
        return Some(j);
      }
      j := j + 1;
    }
    return None;
  }
}
