/** The buyer portal: the approved inventory filtered by species, shown in
    pages of four, and the purchase button that calls the session's `onBuy`. */
module BuyerPortal {

  import opened Types
  import opened JsArrays
  import opened JsStrings
  import opened Pagination
  import opened App

  const ItemsPerPage: nat := 4

  /** The search box: the lowercased term occurs in the lowercased species. */
  function SpeciesMatches(term: string): HarvestBatch -> bool {
    (b: HarvestBatch) => Includes(Lower(b.species), Lower(term))
  }

  /** `filtered`. */
  function Filtered(available: seq<HarvestBatch>, term: string): seq<HarvestBatch> {
    Filter(SpeciesMatches(term), available)
  }

  /** `filtered` keeps, in order, exactly the offered batches whose species
      contains the search term, ignoring ASCII case. */
  lemma FilteredExact(available: seq<HarvestBatch>, term: string)
    ensures IsSubsequence(Filtered(available, term), available)
    ensures forall b :: b in Filtered(available, term) <==>
              b in available && Includes(Lower(b.species), Lower(term))
  {
    FilterIsSubsequence(SpeciesMatches(term), available);
    forall b { FilterMembership(SpeciesMatches(term), available, b); }
  }

  /** With an empty search term every offered batch is shown. */
  lemma EmptySearchShowsAll(available: seq<HarvestBatch>)
    ensures Filtered(available, "") == available
  {
    forall i | 0 <= i < |available|
      ensures SpeciesMatches("")(available[i])
    {
      IncludesEmpty(Lower(available[i].species));
    }
    FilterKeepsAll(SpeciesMatches(""), available);
  }

  /** Everything the buyer can click is an APPROVED batch of the store. */
  lemma PageRowIsApproved(bs: seq<HarvestBatch>, term: string, page: int, k: nat)
    requires k < |PageItems(Filtered(BuyerView(bs), term), page, ItemsPerPage)|
    ensures PageItems(Filtered(BuyerView(bs), term), page, ItemsPerPage)[k] in bs
    ensures PageItems(Filtered(BuyerView(bs), term), page, ItemsPerPage)[k].status == Approved
  {
    var filtered := Filtered(BuyerView(bs), term);
    var b := PageItems(filtered, page, ItemsPerPage)[k];
    var s := ClampIndex((page - 1) * ItemsPerPage, |filtered|);
    assert b == filtered[s + k];
    assert b in filtered;
    FilterMembership(SpeciesMatches(term), BuyerView(bs), b);
    FilterMembership(IsApproved, bs, b);
  }

  /** The portal's own state. */
  class BuyerPortalState {
    var searchTerm: string
    var showPaymentSuccess: bool
    var currentPage: int

    constructor ()
      ensures searchTerm == "" && !showPaymentSuccess && currentPage == 1
    {
      searchTerm, showPaymentSuccess, currentPage := "", false, 1;
    }

    /** `paginatedItems`. */
    function PageShown(available: seq<HarvestBatch>): (r: seq<HarvestBatch>)
      reads this
      ensures |r| <= ItemsPerPage
    {
      PageItems(Filtered(available, searchTerm), currentPage, ItemsPerPage)
    }

    /** Editing the search resets the page to 1. */
    method SetSearchTerm(term: string)
      modifies this`searchTerm, this`currentPage
      ensures searchTerm == term && currentPage == 1
    {
      searchTerm := term;
      currentPage := 1;
    }

    method PrevPageButton()
      modifies this`currentPage
      ensures currentPage == PrevPage(old(currentPage))
    {
      currentPage := PrevPage(currentPage);
    }

    method NextPageButton(available: seq<HarvestBatch>)
      modifies this`currentPage
      ensures currentPage == NextPage(old(currentPage), TotalPages(|Filtered(available, searchTerm)|, ItemsPerPage))
    {
      currentPage := NextPage(currentPage, TotalPages(|Filtered(available, searchTerm)|, ItemsPerPage));
    }

    /** The numbered page buttons: button `i` (0-based) selects page `i + 1`. */
    method PageNumberButton(available: seq<HarvestBatch>, i: nat)
      requires i < TotalPages(|Filtered(available, searchTerm)|, ItemsPerPage)
      modifies this`currentPage
      ensures currentPage == i + 1
      ensures 1 <= currentPage <= TotalPages(|Filtered(available, searchTerm)|, ItemsPerPage)
    {
      currentPage := i + 1;
    }

    /** `handlePurchase`: call `onBuy` once with the id and raise the banner. */
    method HandlePurchase(store: SessionStore, id: string, orderSuffix: string, today: string)
      modifies store, this`showPaymentSuccess
      ensures store.batches == MarkSold(old(store.batches), id)
      ensures store.orders == old(store.orders) + [Order(OrderIdPrefix + orderSuffix, id, CurrentBuyer,
                                                         AmountFor(old(store.batches), id), Paid, today)]
      ensures showPaymentSuccess
    {
      store.Buy(id, orderSuffix, today);
      showPaymentSuccess := true;
    }

    /** The banner's timeout. */
    method HidePaymentBanner()
      modifies this`showPaymentSuccess
      ensures !showPaymentSuccess
    {
      showPaymentSuccess := false;
    }
  }

  /** Buying from a row on screen (ids unique): the batch was APPROVED, is now
      SOLD and gone from the buyer view, and no batch moved backwards. */
  lemma PurchaseFromPage(bs: seq<HarvestBatch>, term: string, page: int, k: nat)
    requires UniqueIds(bs)
    requires k < |PageItems(Filtered(BuyerView(bs), term), page, ItemsPerPage)|
    ensures var id := PageItems(Filtered(BuyerView(bs), term), page, ItemsPerPage)[k].id;
            StatusesMoveForward(bs, MarkSold(bs, id))
            && (forall b :: b in BuyerView(MarkSold(bs, id)) ==> b.id != id)
            && BuyerView(MarkSold(bs, id)) == Filter(HasOtherId(id), BuyerView(bs))
  {
    var b := PageItems(Filtered(BuyerView(bs), term), page, ItemsPerPage)[k];
    PageRowIsApproved(bs, term, page, k);
    FilterMembership(IsApproved, bs, b);
    var j :| 0 <= j < |BuyerView(bs)| && BuyerView(bs)[j] == b;
    GuardedBuyMovesForward(bs, j);
    BuyerViewAfterBuy(bs, b.id);
  }
}
