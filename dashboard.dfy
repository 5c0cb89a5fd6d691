/**
 * Floreboard/ContentView.swift: the statistics of the home screen and when the login button is enabled. The
 * thumbnails of recent designs follow `HistoryViews.ImageLoadFor`.
 */
module Dashboard {
  import opened Prelude
  import opened Models
  import opened Inventory
  import opened History

  // ---------------------------------------------------------------------------
  // Total stock
  // ---------------------------------------------------------------------------

  /** `HomeView.totalStock`: `reduce(0) { $0 + $1.quantity }`, folding from the left. */
  function TotalStock(fs: seq<FlowerType>): int
    decreases |fs|
  {
    if |fs| == 0 then 0 else TotalStock(fs[..|fs| - 1]) + fs[|fs| - 1].quantity
  }

  /** The total of two lists one after the other is the sum of their totals. */
  lemma {:induction false} TotalStockAppend(a: seq<FlowerType>, b: seq<FlowerType>)
    ensures TotalStock(a + b) == TotalStock(a) + TotalStock(b)
    decreases |b|
  {
    if |b| > 0 {
      var b' := b[..|b| - 1];
      assert (a + b)[..|a + b| - 1] == a + b';
      TotalStockAppend(a, b');
    } else {
      assert a + b == a;
    }
  }

  /** Adding a record adds its quantity to the total. */
  lemma AddFlowerAddsQuantity(fs: seq<FlowerType>, f: FlowerType)
    ensures TotalStock(fs + [f]) == TotalStock(fs) + f.quantity
  {
    TotalStockAppend(fs, [f]);
    assert [f][..0] == [];
  }

  /** A total over records with no negative quantity is not negative. */
  lemma {:induction false} TotalStockNonNegative(fs: seq<FlowerType>)
    requires forall i :: 0 <= i < |fs| ==> fs[i].quantity >= 0
    ensures TotalStock(fs) >= 0
    decreases |fs|
  {
    if |fs| > 0 {
      TotalStockNonNegative(fs[..|fs| - 1]);
    }
  }

  /** Lowering quantities record by record lowers the total. */
  lemma {:induction false} TotalStockPointwise(a: seq<FlowerType>, b: seq<FlowerType>)
    requires |a| == |b| && forall i :: 0 <= i < |a| ==> a[i].quantity <= b[i].quantity
    ensures TotalStock(a) <= TotalStock(b)
    decreases |a|
  {
    if |a| > 0 {
      TotalStockPointwise(a[..|a| - 1], b[..|b| - 1]);
    }
  }

  /** Replacing one record changes the total by the difference of the two quantities. */
  lemma TotalStockReplace(fs: seq<FlowerType>, k: nat, g: FlowerType)
    requires k < |fs|
    ensures TotalStock(fs[k := g]) == TotalStock(fs) - fs[k].quantity + g.quantity
  {
    var a, b := fs[..k], fs[k + 1..];
    assert fs == a + [fs[k]] + b;
    assert fs[k := g] == a + [g] + b;
    TotalStockAppend(a + [fs[k]], b);
    TotalStockAppend(a + [g], b);
    AddFlowerAddsQuantity(a, fs[k]);
    AddFlowerAddsQuantity(a, g);
  }

  /** Executing a design (counts not negative, stock not negative) never raises the total stock. */
  lemma DeductLowersTotalStock(fs: seq<FlowerType>, items: seq<DesignFlowerItem>, now: real, rule: MatchRule)
    requires NonNegativeCounts(items)
    requires forall i :: 0 <= i < |fs| ==> fs[i].quantity >= 0
    ensures TotalStock(Deduct(fs, items, now, rule).flowers) <= TotalStock(fs)
  {
    var after := Deduct(fs, items, now, rule).flowers;
    forall i | 0 <= i < |fs|
      ensures after[i].quantity <= fs[i].quantity
    {
      DeductMonotone(fs, items, now, i, rule);
    }
    TotalStockPointwise(after, fs);
  }

  // ---------------------------------------------------------------------------
  // Low stock
  // ---------------------------------------------------------------------------

  /** The fixed bound of the home screen's low-stock count. */
  const LowStockBound := 10

  /** `HomeView.lowStockCount`: records whose quantity is below 10. */
  function LowStockCount(fs: seq<FlowerType>): (r: nat)
    ensures r <= |fs|
  {
    |Filter(fs, (f: FlowerType) => f.quantity < LowStockBound)|
  }

  /** The count is zero exactly when every record holds at least 10. */
  lemma NoLowStock(fs: seq<FlowerType>)
    ensures LowStockCount(fs) == 0 <==> forall f :: f in fs ==> f.quantity >= LowStockBound
  {
    var low := Filter(fs, (f: FlowerType) => f.quantity < LowStockBound);
    if |low| > 0 {
      assert low[0] in low;
    }
  }

  /**
   * The count is strict and fixed, the prompt listing compares with `<=` against the configured
   * threshold: with the default threshold of 10, a record holding exactly 10 is flagged in the listing
   * but not counted on the home screen.
   */
  lemma CountAndListingDisagreeAtThreshold(f: FlowerType)
    requires f.quantity == DefaultConfig().lowStockThreshold
    ensures StockMarker(f.quantity, DefaultConfig().lowStockThreshold) == LowStockMarker
    ensures LowStockCount([f]) == 0
  {
    NoLowStock([f]);
  }

  // ---------------------------------------------------------------------------
  // Revenue
  // ---------------------------------------------------------------------------

  /** `HomeView.totalRevenue`: the sum of the designs' `totalCost`. */
  function TotalRevenue(ds: seq<DesignResult>): real
    decreases |ds|
  {
    if |ds| == 0 then 0.0 else TotalRevenue(ds[..|ds| - 1]) + ds[|ds| - 1].totalCost
  }

  /** Deleting a design takes its cost off the revenue figure. */
  lemma {:induction false} RevenueSplits(a: seq<DesignResult>, d: DesignResult, b: seq<DesignResult>)
    ensures TotalRevenue(a + [d] + b) == TotalRevenue(a + b) + d.totalCost
    decreases |b|
  {
    if |b| > 0 {
      var b' := b[..|b| - 1];
      assert (a + [d] + b)[..|a + [d] + b| - 1] == a + [d] + b';
      assert (a + b)[..|a + b| - 1] == a + b';
      RevenueSplits(a, d, b');
    } else {
      assert a + [d] + b == a + [d];
      assert (a + [d])[..|a|] == a;
      assert a + b == a;
    }
  }

  // ---------------------------------------------------------------------------
  // Recent designs
  // ---------------------------------------------------------------------------

  /** `HomeView.recentDesigns`: `prefix(5)` of the saved designs. */
  function RecentDesigns(ds: seq<DesignResult>): (r: seq<DesignResult>)
    ensures |r| == if |ds| < 5 then |ds| else 5
    ensures forall i :: 0 <= i < |r| ==> r[i] == ds[i]
  {
    if |ds| < 5 then ds else ds[..5]
  }

  /** A design saved for the first time is the first of the recent designs. */
  lemma NewDesignShownFirst(ds: seq<DesignResult>, d: DesignResult)
    requires FirstIndexOf(ds, DesignId, d.id).None?
    ensures RecentDesigns(Upsert(ds, d))[0] == d
  {
    UpsertSpec(ds, d);
  }

  /** A design saved again keeps its place; if that place is among the first five, the update shows there. */
  lemma UpdatedDesignShownInPlace(ds: seq<DesignResult>, d: DesignResult, k: nat)
    requires FirstIndexOf(ds, DesignId, d.id) == Some(k) && k < 5
    ensures |RecentDesigns(Upsert(ds, d))| == |RecentDesigns(ds)|
    ensures RecentDesigns(Upsert(ds, d))[k] == d
  {
    UpsertSpec(ds, d);
  }

  // ---------------------------------------------------------------------------
  // Login
  // ---------------------------------------------------------------------------

  /** The login button: enabled exactly when a store name is typed and no login is in progress. */
  function LoginEnabled(storeName: string, isLoading: bool): (r: bool)
    ensures r <==> |storeName| > 0 && !isLoading
  {
    !(storeName == "" || isLoading)
  }

  /** The name is not trimmed: a name of spaces enables the button. */
  lemma BlankNameEnablesLogin()
    ensures LoginEnabled(" ", false)
  {
  }
}
