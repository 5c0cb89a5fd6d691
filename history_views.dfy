/**
 * Floreboard/HistoryViews.swift: the search over saved designs, the choice between a stored image file and
 * a web address, and the gate on the "Execute Plan" button of the detail screen.
 */
module HistoryViews {
  import opened Prelude
  import opened Models
  import opened Inventory
  import opened History

  // ---------------------------------------------------------------------------
  // Search
  // ---------------------------------------------------------------------------

  /** The search text occurs, case-insensitively, in the title, the description or the meaning text. */
  predicate DesignMatches(d: DesignResult, searchText: string)
    ensures searchText == "" ==> !DesignMatches(d, searchText)
  {
    CIContains(d.title, searchText) || CIContains(d.description, searchText) || CIContains(d.meaningText, searchText)
  }

  /** `HistoryView.filteredDesigns` */
  function FilteredDesigns(ds: seq<DesignResult>, searchText: string): (r: seq<DesignResult>)
    ensures searchText == "" ==> r == ds
    ensures searchText != "" ==> forall d :: d in r <==> d in ds && DesignMatches(d, searchText)
    ensures |r| <= |ds|
  {
    if searchText == "" then ds else Filter(ds, d => DesignMatches(d, searchText))
  }

  /**
   * No design matches the empty search text (no string contains the empty one), so the filter alone would
   * show nothing: it is the `isEmpty` branch that shows the whole list.
   */
  lemma EmptySearchRedundant(ds: seq<DesignResult>)
    ensures Filter(ds, d => DesignMatches(d, "")) == []
    ensures FilteredDesigns(ds, "") == ds
  {
    forall d | d in ds
      ensures !DesignMatches(d, "")
    {
      CIContainsEmpty(d.title);
      CIContainsEmpty(d.description);
      CIContainsEmpty(d.meaningText);
    }
    FilterNone(ds, d => DesignMatches(d, ""));
  }

  /** The result keeps the stored order: it is the stored list with some designs dropped. */
  lemma FilteredDesignsInOrder(ds: seq<DesignResult>, searchText: string)
    ensures IsSubsequence(FilteredDesigns(ds, searchText), ds)
  {
    if searchText == "" {
      FilterAll(ds, d => true);
      FilterIsSubsequence(ds, d => true);
    } else {
      FilterIsSubsequence(ds, d => DesignMatches(d, searchText));
    }
  }

  /** The case of the search text makes no difference: "ROSE" finds what "rose" finds. */
  lemma SearchIgnoresCase(ds: seq<DesignResult>, searchText: string)
    requires searchText != ""
    ensures FilteredDesigns(ds, Fold(searchText)) == FilteredDesigns(ds, searchText)
  {
    FoldTwice(searchText);
    assert Fold(searchText) != "" by { assert |Fold(searchText)| == |searchText|; }
    FilterSameRule(ds, d => DesignMatches(d, Fold(searchText)), d => DesignMatches(d, searchText));
  }

  // ---------------------------------------------------------------------------
  // Images
  // ---------------------------------------------------------------------------

  /** What the image helpers do with `design.imageUrl`. */
  datatype ImageLoad = NoLoad | LoadStored(fileName: string)

  /**
   * `DesignCard.loadImage` and `DesignDetailView.loadDetailImage`: a path is read from local storage only
   * when it does not start with "http".
   */
  function ImageLoadFor(imageUrl: Option<string>): (r: ImageLoad)
    ensures r.LoadStored? <==> imageUrl.Some? && !IsPrefix("http", imageUrl.value)
    ensures r.LoadStored? ==> r.fileName == imageUrl.value
  {
    match imageUrl
    case None => NoLoad
    case Some(path) => if IsPrefix("http", path) then NoLoad else LoadStored(path)
  }

  /** Web addresses, "https://…" among them, are never read from local storage. */
  lemma RemoteUrlsSkipped(rest: string)
    ensures ImageLoadFor(Some("http" + rest)) == NoLoad
  {
    assert ("http" + rest)[..4] == "http";
  }

  /** The name the view model stores a generated image under, `<id>.jpg`, is read back from storage. */
  lemma StoredImageLoaded(id: string)
    requires id == "" || id[0] != 'h'
    ensures ImageLoadFor(Some(id + ".jpg")) == LoadStored(id + ".jpg")
  {
    FirstCharDiffers("http", id + ".jpg");
  }

  // ---------------------------------------------------------------------------
  // The execute button
  // ---------------------------------------------------------------------------

  /**
   * The detail screen's action: offered only for a draft, and then it executes the screen's captured
   * `design` value.
   */
  function DetailAction(design: DesignResult): (r: Option<DesignResult>)
    ensures r.Some? <==> design.status == Draft
    ensures r.Some? ==> r.value == design
  {
    if design.status == Draft then Some(design) else None
  }

  /** A completed design offers no action. */
  lemma CompletedOffersNothing(design: DesignResult)
    requires design.status == Completed
    ensures DetailAction(design) == None
  {
  }

  /**
   * The screen holds a copy of the design taken when it was opened. While that copy is shown, the button
   * stays, and a second tap executes the same draft again: each record it hits has twice the item counts
   * added to its usage.
   */
  lemma SecondTapDeductsAgain(s: Ledgers, design: DesignResult, now: real, later: real, i: nat)
    requires DetailAction(design).Some?
    requires i < |s.flowers| && NonNegativeCounts(design.flowerList)
    requires HitCount(s.flowers, design.flowerList, i, NameMatches) > 0
    ensures var s1 := Execute(s, DetailAction(design).value, now);
      && DetailAction(design).Some?
      && var s2 := Execute(s1, DetailAction(design).value, later);
      && Used(s2.flowers[i]) == Used(s.flowers[i]) + 2 * HitSum(s.flowers, design.flowerList, i, NameMatches)
  {
    ExecuteCapturedDraftTwice(s, design, now, later, i);
  }
}
