/** The farmer portal: the harvest history list (search, status chips,
    sorting, pages of six) and the three-step "New Harvest" wizard that hands
    a PENDING batch to the session. */
module FarmerPortal {

  import opened Types
  import opened JsArrays
  import opened JsStrings
  import opened Pagination
  import opened App

  const ItemsPerPage: nat := 6

  /** The status chips: ALL, PENDING, APPROVED, SOLD. */
  datatype StatusFilter = AllStatuses | OnlyPending | OnlyApproved | OnlySold

  datatype SortKey = ByDate | ByWeight | ByGrade
  datatype SortOrder = Asc | Desc

  /** The wizard's form fields. */
  datatype FormData = FormData(species: string, weight: real, description: string)

  const EmptyForm: FormData := FormData("", 0.0, "")

  /** The part of `analyzeHarvest`'s parsed reply the portal reads: its grade,
      absent when the reply has none. A failed call is `None` one level up. */
  datatype Analysis = Analysis(grade: Option<string>)

  /** The search box: the lowercased term occurs in the lowercased species or id. */
  function MatchesSearch(term: string, b: HarvestBatch): bool {
    Includes(Lower(b.species), Lower(term)) || Includes(Lower(b.id), Lower(term))
  }

  /** The label of each status chip. */
  function StatusFilterLiteral(f: StatusFilter): string {
    match f
    case AllStatuses => "ALL"
    case OnlyPending => "PENDING"
    case OnlyApproved => "APPROVED"
    case OnlySold => "SOLD"
  }

  /** The status chip: `statusFilter === 'ALL' || b.status === statusFilter`. */
  function MatchesStatus(f: StatusFilter, b: HarvestBatch): (r: bool)
    ensures r <==> f == AllStatuses || StatusFilterLiteral(f) == BatchStatusLiteral(b.status)
  {
    match f
    case AllStatuses => true
    case OnlyPending => b.status == Pending
    case OnlyApproved => b.status == Approved
    case OnlySold => b.status == Sold
  }

  function Matches(term: string, f: StatusFilter): HarvestBatch -> bool {
    (b: HarvestBatch) => MatchesSearch(term, b) && MatchesStatus(f, b)
  }

  /** `a.qualityGrade || ''`. */
  function GradeText(b: HarvestBatch): string {
    match b.qualityGrade
    case Some(g) => g
    case None => ""
  }

  /** The comparator handed to `sort`. Reading a date (`new Date(...).getTime()`)
      and `localeCompare` are parameters. */
  function Comparator(key: SortKey, order: SortOrder, timeOf: string -> real,
                      localeCompare: (string, string) -> real): (HarvestBatch, HarvestBatch) -> real {
    (a: HarvestBatch, b: HarvestBatch) =>
      var comparison :=
        match key
        case ByDate => timeOf(a.harvestDate) - timeOf(b.harvestDate)
        case ByWeight => a.weight - b.weight
        case ByGrade => localeCompare(GradeText(a), GradeText(b));
      if order == Desc then -comparison else comparison
  }

  /** `processedBatches`: filter, then sort a fresh copy. */
  function ProcessedBatches(bs: seq<HarvestBatch>, term: string, f: StatusFilter, key: SortKey, order: SortOrder,
                            timeOf: string -> real, localeCompare: (string, string) -> real): seq<HarvestBatch> {
    Sort(Filter(Matches(term, f), bs), Comparator(key, order, timeOf, localeCompare))
  }

  /** Every listed batch comes from the input and passes both the search and the
      status chip; every batch that passes both is listed; the list is a
      permutation of the filtered batches. */
  lemma ProcessedBatchesSelection(bs: seq<HarvestBatch>, term: string, f: StatusFilter, key: SortKey,
                                  order: SortOrder, timeOf: string -> real, localeCompare: (string, string) -> real)
    ensures multiset(ProcessedBatches(bs, term, f, key, order, timeOf, localeCompare)) == multiset(Filter(Matches(term, f), bs))
    ensures forall b :: b in ProcessedBatches(bs, term, f, key, order, timeOf, localeCompare) <==>
              b in bs && MatchesSearch(term, b) && MatchesStatus(f, b)
  {
    var filtered := Filter(Matches(term, f), bs);
    var r := ProcessedBatches(bs, term, f, key, order, timeOf, localeCompare);
    forall b
      ensures b in r <==> b in bs && MatchesSearch(term, b) && MatchesStatus(f, b)
    {
      FilterMembership(Matches(term, f), bs, b);
      assert b in r <==> b in multiset(r);
      assert b in filtered <==> b in multiset(filtered);
    }
  }

  /** Sorting by mass: ascending gives non-decreasing weights, descending
      non-increasing ones. */
  lemma WeightSortOrder(bs: seq<HarvestBatch>, term: string, f: StatusFilter, order: SortOrder,
                        timeOf: string -> real, localeCompare: (string, string) -> real)
    ensures var r := ProcessedBatches(bs, term, f, ByWeight, order, timeOf, localeCompare);
            forall i, j :: 0 <= i < j < |r| ==> if order == Asc then r[i].weight <= r[j].weight
                                                else r[i].weight >= r[j].weight
  {
    var cmp := Comparator(ByWeight, order, timeOf, localeCompare);
    SortSorted(Filter(Matches(term, f), bs), cmp);
  }

  /** Sorting by date: harvest times are in order, earliest first for asc. */
  lemma DateSortOrder(bs: seq<HarvestBatch>, term: string, f: StatusFilter, order: SortOrder,
                      timeOf: string -> real, localeCompare: (string, string) -> real)
    ensures var r := ProcessedBatches(bs, term, f, ByDate, order, timeOf, localeCompare);
            forall i, j :: 0 <= i < j < |r| ==> if order == Asc then timeOf(r[i].harvestDate) <= timeOf(r[j].harvestDate)
                                                else timeOf(r[i].harvestDate) >= timeOf(r[j].harvestDate)
  {
    var cmp := Comparator(ByDate, order, timeOf, localeCompare);
    SortSorted(Filter(Matches(term, f), bs), cmp);
  }

  /** Sorting by grade, for a `localeCompare` that is a consistent ordering
      of strings: grades are in `localeCompare` order, reversed for desc. */
  lemma GradeSortOrder(bs: seq<HarvestBatch>, term: string, f: StatusFilter, order: SortOrder,
                       timeOf: string -> real, localeCompare: (string, string) -> real)
    requires forall x: string, y: string :: localeCompare(x, y) <= 0.0 <==> localeCompare(y, x) >= 0.0
    requires forall x: string, y: string, z: string ::
               localeCompare(x, y) <= 0.0 && localeCompare(y, z) <= 0.0 ==> localeCompare(x, z) <= 0.0
    ensures var r := ProcessedBatches(bs, term, f, ByGrade, order, timeOf, localeCompare);
            forall i, j :: 0 <= i < j < |r| ==>
              if order == Asc then localeCompare(GradeText(r[i]), GradeText(r[j])) <= 0.0
              else localeCompare(GradeText(r[i]), GradeText(r[j])) >= 0.0
  {
    var cmp := Comparator(ByGrade, order, timeOf, localeCompare);
    assert TotalComparator(cmp) by {
      forall a: HarvestBatch, b: HarvestBatch
        ensures cmp(a, b) <= 0.0 || cmp(b, a) <= 0.0
      {
        assert localeCompare(GradeText(a), GradeText(b)) <= 0.0 <==> localeCompare(GradeText(b), GradeText(a)) >= 0.0;
      }
    }
    assert TransitiveComparator(cmp) by {
      forall a: HarvestBatch, b: HarvestBatch, c: HarvestBatch | cmp(a, b) <= 0.0 && cmp(b, c) <= 0.0
        ensures cmp(a, c) <= 0.0
      {
        var ga, gb, gc := GradeText(a), GradeText(b), GradeText(c);
        if order == Desc {
          assert localeCompare(gb, ga) <= 0.0 && localeCompare(gc, gb) <= 0.0;
          assert localeCompare(gc, ga) <= 0.0;
        }
      }
    }
    SortSorted(Filter(Matches(term, f), bs), cmp);
  }

  /** An empty search term only leaves the status chip to decide. */
  lemma EmptySearchMatchesAll(b: HarvestBatch)
    ensures MatchesSearch("", b)
  {
    IncludesEmpty(Lower(b.species));
  }

  /** `aiAnalysis?.grade || 'N/A'`: the analysis grade when there is a
      non-empty one, otherwise N/A; never empty. */
  function GradeOrFallback(a: Option<Analysis>): (g: string)
    ensures g != ""
    ensures a.Some? && a.value.grade.Some? && a.value.grade.value != "" ==> g == a.value.grade.value
    ensures !(a.Some? && a.value.grade.Some? && a.value.grade.value != "") ==> g == "N/A"
  {
    match a
    case Some(Analysis(Some(g))) => if g != "" then g else "N/A"
    case _ => "N/A"
  }

  /** The draft `handleSubmit` hands to `onNewBatch`. */
  function SubmittedDraft(form: FormData, a: Option<Analysis>, today: string): (d: BatchDraft)
    ensures d.status == Pending && d.qualityGrade != ""
    ensures d.species == form.species && d.weight == form.weight && d.harvestDate == today
  {
    BatchDraft(form.species, form.weight, today, Pending, GradeOrFallback(a))
  }

  /** The portal's own state. */
  class FarmerPortalState {
    var isModalOpen: bool
    var step: int
    var formData: FormData
    var aiAnalysis: Option<Analysis>
    var searchTerm: string
    var statusFilter: StatusFilter
    var sortBy: SortKey
    var sortOrder: SortOrder
    var currentPage: int

    /** The wizard is always on step 1, 2 or 3. */
    ghost predicate Valid()
      reads this
    {
      1 <= step <= 3
    }

    constructor ()
      ensures Valid()
      ensures !isModalOpen && step == 1 && formData == EmptyForm && aiAnalysis == None
      ensures searchTerm == "" && statusFilter == AllStatuses && sortBy == ByDate && sortOrder == Desc
      ensures currentPage == 1
    {
      isModalOpen, step, formData, aiAnalysis := false, 1, EmptyForm, None;
      searchTerm, statusFilter, sortBy, sortOrder := "", AllStatuses, ByDate, Desc;
      currentPage := 1;
    }

    /** The list as currently searched, filtered and sorted. */
    function Processed(bs: seq<HarvestBatch>, timeOf: string -> real, localeCompare: (string, string) -> real): seq<HarvestBatch>
      reads this
    {
      ProcessedBatches(bs, searchTerm, statusFilter, sortBy, sortOrder, timeOf, localeCompare)
    }

    /** `paginatedBatches`. */
    function Paginated(bs: seq<HarvestBatch>, timeOf: string -> real, localeCompare: (string, string) -> real): (r: seq<HarvestBatch>)
      reads this
      ensures |r| <= ItemsPerPage
    {
      PageItems(Processed(bs, timeOf, localeCompare), currentPage, ItemsPerPage)
    }

    method OpenModal()
      modifies this`isModalOpen
      ensures isModalOpen
    {
      isModalOpen := true;
    }

    method SetSpecies(species: string)
      modifies this`formData
      ensures formData == old(formData).(species := species)
    {
      formData := formData.(species := species);
    }

    /** The weight field stores `Number(value)`. */
    method SetWeight(weight: real)
      modifies this`formData
      ensures formData == old(formData).(weight := weight)
    {
      formData := formData.(weight := weight);
    }

    method SetDescription(description: string)
      modifies this`formData
      ensures formData == old(formData).(description := description)
    {
      formData := formData.(description := description);
    }

    /** `handleNext`. From step 1 it advances only with a species and a
        positive weight; from step 2 only with a description, storing the
        reply of `analyzeHarvest` (given as `analysis`) first. */
    method HandleNext(analysis: Option<Analysis>)
      requires Valid()
      modifies this`step, this`aiAnalysis
      ensures Valid()
      ensures old(step) == 1 ==>
                aiAnalysis == old(aiAnalysis) &&
                step == if old(formData).species != "" && old(formData).weight > 0.0 then 2 else 1
      ensures old(step) == 2 ==>
                if old(formData).description != "" then step == 3 && aiAnalysis == analysis
                else step == 2 && aiAnalysis == old(aiAnalysis)
      ensures old(step) == 3 ==> step == 3 && aiAnalysis == old(aiAnalysis)
    {
      if step == 1 {
        if formData.species == "" || formData.weight <= 0.0 {
          return;
        }
        step := 2;
      } else if step == 2 {
        if formData.description == "" {
          return;
        }
        aiAnalysis := analysis;
        step := 3;
      }
    }

    /** `handlePrev`: one step back, never below step 1. */
    method HandlePrev()
      requires Valid()
      modifies this`step
      ensures Valid()
      ensures step == if old(step) > 1 then old(step) - 1 else 1
    {
      step := if step - 1 > 1 then step - 1 else 1;
    }

    /** `resetForm`. */
    method ResetForm()
      modifies this`isModalOpen, this`step, this`formData, this`aiAnalysis
      ensures Valid()
      ensures !isModalOpen && step == 1 && formData == EmptyForm && aiAnalysis == None
    {
      isModalOpen := false;
      step := 1;
      formData := EmptyForm;
      aiAnalysis := None;
    }

    /** `handleSubmit`: hand one PENDING batch to `onNewBatch` (the session
        appends it under `newId`), then reset the form. */
    method HandleSubmit(store: SessionStore, newId: string, today: string)
      modifies store, this`isModalOpen, this`step, this`formData, this`aiAnalysis
      ensures store.batches == old(store.batches) + [Registered(SubmittedDraft(old(formData), old(aiAnalysis), today), newId)]
      ensures store.orders == old(store.orders)
      ensures Valid()
      ensures !isModalOpen && step == 1 && formData == EmptyForm && aiAnalysis == None
    {
      store.NewBatch(SubmittedDraft(formData, aiAnalysis, today), newId);
      ResetForm();
    }

    /** The footer's left button: Discard on step 1, Back otherwise. */
    method BackButton()
      requires Valid()
      modifies this`isModalOpen, this`step, this`formData, this`aiAnalysis
      ensures Valid()
      ensures old(step) == 1 ==> !isModalOpen && step == 1 && formData == EmptyForm && aiAnalysis == None
      ensures old(step) > 1 ==>
                step == old(step) - 1 && isModalOpen == old(isModalOpen)
                && formData == old(formData) && aiAnalysis == old(aiAnalysis)
    {
      if step == 1 {
        ResetForm();
      } else {
        HandlePrev();
      }
    }

    /** The footer's right button: Finalize Entry on step 3, Continue otherwise. */
    method ContinueButton(analysis: Option<Analysis>, store: SessionStore, newId: string, today: string)
      requires Valid()
      modifies store, this`isModalOpen, this`step, this`formData, this`aiAnalysis
      ensures Valid()
      ensures old(step) == 3 ==>
                store.batches == old(store.batches) + [Registered(SubmittedDraft(old(formData), old(aiAnalysis), today), newId)]
                && step == 1 && formData == EmptyForm && aiAnalysis == None && !isModalOpen
      ensures old(step) < 3 ==>
                store.batches == old(store.batches) && isModalOpen == old(isModalOpen) && formData == old(formData)
      ensures old(step) == 1 ==>
                aiAnalysis == old(aiAnalysis) &&
                step == if old(formData).species != "" && old(formData).weight > 0.0 then 2 else 1
      ensures old(step) == 2 ==>
                if old(formData).description != "" then step == 3 && aiAnalysis == analysis
                else step == 2 && aiAnalysis == old(aiAnalysis)
      ensures store.orders == old(store.orders)
    {
      if step == 3 {
        HandleSubmit(store, newId, today);
      } else {
        HandleNext(analysis);
      }
    }

    /** Typing in the search box goes back to page 1. */
    method SetSearchTerm(term: string)
      modifies this`searchTerm, this`currentPage
      ensures searchTerm == term && currentPage == 1
    {
      searchTerm := term;
      currentPage := 1;
    }

    /** Choosing a status chip goes back to page 1. */
    method SetStatusFilter(f: StatusFilter)
      modifies this`statusFilter, this`currentPage
      ensures statusFilter == f && currentPage == 1
    {
      statusFilter := f;
      currentPage := 1;
    }

    method SetSortBy(key: SortKey)
      modifies this`sortBy
      ensures sortBy == key
    {
      sortBy := key;
    }

    method ToggleSortOrder()
      modifies this`sortOrder
      ensures sortOrder == if old(sortOrder) == Asc then Desc else Asc
    {
      sortOrder := if sortOrder == Asc then Desc else Asc;
    }

    method PrevPageButton()
      modifies this`currentPage
      ensures currentPage == PrevPage(old(currentPage))
    {
      currentPage := PrevPage(currentPage);
    }

    method NextPageButton(bs: seq<HarvestBatch>, timeOf: string -> real, localeCompare: (string, string) -> real)
      modifies this`currentPage
      ensures currentPage == NextPage(old(currentPage), TotalPages(|Processed(bs, timeOf, localeCompare)|, ItemsPerPage))
    {
      currentPage := NextPage(currentPage, TotalPages(|Processed(bs, timeOf, localeCompare)|, ItemsPerPage));
    }
  }

  /** A batch submitted through the wizard is PENDING, graded by the analysis
      or N/A, and appears last in the farmer view. */
  lemma SubmittedBatchInFarmerView(bs: seq<HarvestBatch>, form: FormData, a: Option<Analysis>, today: string, newId: string)
    ensures var b := Registered(SubmittedDraft(form, a, today), newId);
            FarmerView(bs + [b]) == FarmerView(bs) + [b]
            && b.status == Pending && b.farmerId == CurrentFarmer && b.qualityGrade == Some(GradeOrFallback(a))
            && b.price.None?
  {
    FarmerViewAfterNewBatch(bs, SubmittedDraft(form, a, today), newId);
  }
}
