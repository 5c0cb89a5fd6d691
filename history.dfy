/**
 * `HistoryService` of Floreboard/Services.swift: the saved designs, newest first, their persistence slot,
 * and `executeDesign`, which hands a plan's flower list to the inventory and marks the design completed.
 */
module History {
  import opened Prelude
  import opened Models
  import opened Inventory

  /** The key the history looks designs up by. */
  function DesignId(d: DesignResult): string {
    d.id
  }

  /** `saveDesign`'s effect: the first design with the same id is replaced, else the design goes in front. */
  function Upsert(ds: seq<DesignResult>, d: DesignResult): (r: seq<DesignResult>)
    ensures d in r
    ensures |r| == |ds| || |r| == |ds| + 1
  {
    match FirstIndexOf(ds, DesignId, d.id)
    case Some(k) => assert ds[k := d][k] == d; ds[k := d]
    case None => [d] + ds
  }

  /** `removeAll { $0.id == id }` */
  function RemoveDesign(ds: seq<DesignResult>, id: string): (r: seq<DesignResult>)
    ensures forall d :: d in r <==> d in ds && d.id != id
  {
    Filter(ds, (d: DesignResult) => d.id != id)
  }

  /**
   * An existing id is replaced in place and the length is kept; a new id goes to index 0 and the
   * length grows by one. Either way, looking the id up afterwards finds the saved design.
   */
  lemma UpsertSpec(ds: seq<DesignResult>, d: DesignResult)
    ensures FirstIndexOf(ds, DesignId, d.id).Some? ==>
      var k := FirstIndexOf(ds, DesignId, d.id).value;
      && |Upsert(ds, d)| == |ds|
      && Upsert(ds, d)[k] == d
      && forall j :: 0 <= j < |ds| && j != k ==> Upsert(ds, d)[j] == ds[j]
    ensures FirstIndexOf(ds, DesignId, d.id).None? ==>
      |Upsert(ds, d)| == |ds| + 1 && Upsert(ds, d)[0] == d && Upsert(ds, d)[1..] == ds
    ensures FirstIndexOf(Upsert(ds, d), DesignId, d.id).Some?
    ensures Upsert(ds, d)[FirstIndexOf(Upsert(ds, d), DesignId, d.id).value] == d
  {
    var r := Upsert(ds, d);
    match FirstIndexOf(ds, DesignId, d.id)
    case Some(k) =>
      assert forall j :: 0 <= j < k ==> r[j].id != d.id;
      assert FirstIndexOf(r, DesignId, d.id).Some? by {
        assert r[k].id == d.id;
      }
    case None =>
      assert r[0] == d;
  }

  /** Saving the same design twice is the same as saving it once. */
  lemma UpsertIdempotent(ds: seq<DesignResult>, d: DesignResult)
    ensures Upsert(Upsert(ds, d), d) == Upsert(ds, d)
  {
    var r := Upsert(ds, d);
    UpsertSpec(ds, d);
    var k := FirstIndexOf(r, DesignId, d.id).value;
    assert r[k] == d;
    assert r[k := d] == r;
  }

  /** Saving a design with a new id and then deleting that id gives back the list. */
  lemma RemoveAfterInsert(ds: seq<DesignResult>, d: DesignResult)
    requires forall j :: 0 <= j < |ds| ==> ds[j].id != d.id
    ensures RemoveDesign(Upsert(ds, d), d.id) == ds
  {
    assert Upsert(ds, d) == [d] + ds;
    assert ([d] + ds)[1..] == ds;
    assert forall x :: x in ds ==> x.id != d.id;
    FilterAll(ds, (x: DesignResult) => x.id != d.id);
  }

  /** Deleting leaves no design with the id, and the rest in their order. */
  lemma RemoveDesignSpec(ds: seq<DesignResult>, id: string)
    ensures FirstIndexOf(RemoveDesign(ds, id), DesignId, id).None?
    ensures IsSubsequence(RemoveDesign(ds, id), ds)
  {
    FilterIsSubsequence(ds, (d: DesignResult) => d.id != id);
    var r := RemoveDesign(ds, id);
    assert forall j :: 0 <= j < |r| ==> r[j] in r;
  }

  /** The copy `executeDesign` saves: status completed and `executedAt` set, nothing else changed. */
  function Executed(d: DesignResult, now: real): (r: DesignResult)
    ensures r.status == Completed && r.executedAt == Some(now)
    ensures r.(status := d.status, executedAt := d.executedAt) == d
  {
    d.(status := Completed, executedAt := Some(now))
  }

  // ---------------------------------------------------------------------------
  // Executing a design, on the two ledgers as values
  // ---------------------------------------------------------------------------

  /** The inventory records and the saved designs. */
  datatype Ledgers = Ledgers(flowers: seq<FlowerType>, designs: seq<DesignResult>)

  /**
   * `executeDesign` on values: a design passed in already completed changes nothing; otherwise its flower
   * list is deducted (committed only when something matched) and the completed copy is saved.
   */
  function Execute(s: Ledgers, design: DesignResult, now: real): (r: Ledgers)
    ensures SameKeys(r.flowers, s.flowers)
    ensures design.status == Draft ==> Executed(design, now) in r.designs
  {
    if design.status == Completed then s
    else
      var d := Deduct(s.flowers, design.flowerList, now, NameMatches);
      Ledgers(if d.changed == [] then s.flowers else d.flowers, Upsert(s.designs, Executed(design, now)))
  }

  /** The commit test makes no difference to the records: an empty changed list means nothing moved. */
  lemma ExecuteFlowers(s: Ledgers, design: DesignResult, now: real)
    requires design.status == Draft
    ensures Execute(s, design, now).flowers == Deduct(s.flowers, design.flowerList, now, NameMatches).flowers
  {
    var d := Deduct(s.flowers, design.flowerList, now, NameMatches);
    if d.changed == [] {
      NothingChangedNothingMoved(s.flowers, design.flowerList, now, NameMatches);
    }
  }

  /** A completed argument is a no-op. */
  lemma ExecuteCompletedIsNoOp(s: Ledgers, design: DesignResult, now: real)
    requires design.status == Completed
    ensures Execute(s, design, now) == s
  {
  }

  /**
   * After executing a draft, the stored copy of it is completed, so executing the stored copy again does
   * nothing.
   */
  lemma ExecuteStoredCopyIsNoOp(s: Ledgers, design: DesignResult, now: real, later: real)
    requires design.status == Draft
    ensures var s' := Execute(s, design, now);
      && FirstIndexOf(s'.designs, DesignId, design.id).Some?
      && s'.designs[FirstIndexOf(s'.designs, DesignId, design.id).value] == Executed(design, now)
      && Execute(s', s'.designs[FirstIndexOf(s'.designs, DesignId, design.id).value], later) == s'
  {
    UpsertSpec(s.designs, Executed(design, now));
  }

  /**
   * The guard reads the argument, not the stored record: executing the same captured draft twice deducts
   * its flower list twice. A record hit by items of total count `sum` (non-negative counts) has had
   * `2 * sum` added to `totalUsed`, and the design list is as after one execution, up to `executedAt`.
   */
  lemma ExecuteCapturedDraftTwice(s: Ledgers, design: DesignResult, now: real, later: real, i: nat)
    requires design.status == Draft && i < |s.flowers|
    requires NonNegativeCounts(design.flowerList)
    requires HitCount(s.flowers, design.flowerList, i, NameMatches) > 0
    ensures var s2 := Execute(Execute(s, design, now), design, later);
      && |s2.flowers| == |s.flowers|
      && Used(s2.flowers[i]) == Used(s.flowers[i]) + 2 * HitSum(s.flowers, design.flowerList, i, NameMatches)
      && s2.designs == Upsert(s.designs, Executed(design, later))
  {
    var s1 := Execute(s, design, now);
    ExecuteFlowers(s, design, now);
    ExecuteFlowers(s1, design, later);
    DeductTwice(s.flowers, design.flowerList, now, later, i, NameMatches);
    UpsertTwice(s.designs, design, now, later);
  }

  /** Saving two completed copies of one design leaves the list as if only the second had been saved. */
  lemma UpsertTwice(ds: seq<DesignResult>, design: DesignResult, now: real, later: real)
    ensures Upsert(Upsert(ds, Executed(design, now)), Executed(design, later)) == Upsert(ds, Executed(design, later))
  {
    var e1, e2 := Executed(design, now), Executed(design, later);
    var s1 := Upsert(ds, e1);
    assert e1.id == design.id && e2.id == design.id;
    if FirstIndexOf(ds, DesignId, design.id).Some? {
      var k := FirstIndexOf(ds, DesignId, design.id).value;
      assert s1 == ds[k := e1];
      assert FirstIndexOf(s1, DesignId, design.id) == Some(k) by {
        assert forall j :: 0 <= j < k ==> s1[j].id != design.id;
        assert s1[k].id == design.id;
      }
    } else {
      assert s1 == [e1] + ds;
      assert FirstIndexOf(s1, DesignId, design.id) == Some(0);
      assert s1[0 := e2] == [e2] + ds;
    }
  }

  // ---------------------------------------------------------------------------
  // The service
  // ---------------------------------------------------------------------------

  class HistoryService {
    /** `@Published var savedDesigns`, newest first. */
    var savedDesigns: seq<DesignResult>
    /** The "saved_designs" slot of the key-value store; None when absent or not decodable. */
    var persisted: Option<seq<DesignResult>>

    /** `init()`: an empty list, replaced by the stored one when it decodes. */
    constructor(stored: Option<seq<DesignResult>>)
      ensures persisted == stored
      ensures savedDesigns == if stored.Some? then stored.value else []
    {
      persisted := stored;
      savedDesigns := [];
      if stored.Some? {
        savedDesigns := stored.value;
      }
    }

    method Persist()
      modifies this`persisted
      ensures persisted == Some(savedDesigns)
    {
      persisted := Some(savedDesigns);
    }

    method SaveDesign(design: DesignResult)
      modifies this
      ensures savedDesigns == Upsert(old(savedDesigns), design)
      ensures persisted == Some(savedDesigns)
    {
      var index := FirstIndexOf(savedDesigns, DesignId, design.id);
      if index.Some? {
        savedDesigns := savedDesigns[index.value := design];
      } else {
        savedDesigns := [design] + savedDesigns;
      }
      Persist();
    }

    method DeleteDesign(id: string)
      modifies this
      ensures savedDesigns == RemoveDesign(old(savedDesigns), id)
      ensures persisted == Some(savedDesigns)
    {
      savedDesigns := RemoveDesign(savedDesigns, id);
      Persist();
    }

    /**
     * `executeDesign`: the guard tests the status of the design passed in; the deduction's result is
     * discarded; both clock reads are `now`.
     */
    method ExecuteDesign(design: DesignResult, inventory: InventoryService, now: real)
      modifies this, inventory
      ensures design.status == Completed ==>
        && savedDesigns == old(savedDesigns) && persisted == old(persisted)
        && inventory.flowers == old(inventory.flowers) && inventory.persisted == old(inventory.persisted)
      ensures design.status == Draft ==>
        && var d := Deduct(old(inventory.flowers), design.flowerList, now, NameMatches);
        && inventory.flowers == (if d.changed == [] then old(inventory.flowers) else d.flowers)
        && inventory.persisted == (if d.changed == [] then old(inventory.persisted) else Some(inventory.flowers))
        && savedDesigns == Upsert(old(savedDesigns), Executed(design, now))
        && persisted == Some(savedDesigns)
      ensures Ledgers(inventory.flowers, savedDesigns) ==
              Execute(Ledgers(old(inventory.flowers), old(savedDesigns)), design, now)
    {
      if design.status == Completed {
        return;
      }
      var _ := inventory.DeductInventory(design.flowerList, now);
      var updatedDesign := design;
      updatedDesign := updatedDesign.(status := Completed);
      updatedDesign := updatedDesign.(executedAt := Some(now));
      SaveDesign(updatedDesign);
    }
  }
}
