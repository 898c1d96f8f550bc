/**
 * The product catalogue page: a search term, a category chosen in the side
 * bar (the pseudo-category `trash` shows the bin), a sort order, price and
 * stock filters, and a page number. Any change to these schedules a
 * debounced fetch; any change to the search, category, sort or filters also
 * sends the page back to 1. The fetch sends one parameter object built from
 * the state, and stores the listing or an error. Restoring or permanently
 * deleting a product refetches the listing.
 *
 * Timing is reduced to its effect: a change sets `scheduled`, and the event
 * `DebounceFires` runs the one fetch that survives, with the state of the
 * last render.
 */
module Home {
  import opened Platform
  import opened Backend

  const PageSize := 12
  const FailureFallback := "Failed to load products"
  const DefaultSort := "latest"

  /** The filter bar's object; every key is sent, empty ones included. */
  datatype Filters = Filters(minPrice: string, maxPrice: string, inStock: string)

  const NoFilters := Filters("", "", "")

  /** What one fetch reads from the page's state. */
  datatype Query = Query(page: int, sort: string, filters: Filters, searchTerm: string, category: string)

  /** The `params` object of `fetchProducts`, given the trimmed search term. */
  function ParamsWith(q: Query, term: string): map<ParamName, Param> {
    var base := map[PageParam := Num(q.page), LimitParam := Num(PageSize), SortParam := Str(q.sort),
                     MinPriceParam := Str(q.filters.minPrice), MaxPriceParam := Str(q.filters.maxPrice),
                     InStockParam := Str(q.filters.inStock)];
    var searched := if term != "" then base[SearchParam := Str(term)] else base;
    if q.category == "trash" then searched[IsDeletedParam := Yes]
    else if q.category != "" then searched[CategoryParam := Str(q.category)]
    else searched
  }

  /** The `params` object of `fetchProducts`. */
  function Params(q: Query): map<ParamName, Param> {
    ParamsWith(q, Trim(q.searchTerm))
  }

  /** What `ParamsWith` holds, key by key. */
  lemma ParamsWithContents(q: Query, term: string)
    ensures var r := ParamsWith(q, term);
      && PageParam in r && r[PageParam] == Num(q.page)
      && LimitParam in r && r[LimitParam] == Num(PageSize)
      && SortParam in r && r[SortParam] == Str(q.sort)
      && MinPriceParam in r && r[MinPriceParam] == Str(q.filters.minPrice)
      && MaxPriceParam in r && r[MaxPriceParam] == Str(q.filters.maxPrice)
      && InStockParam in r && r[InStockParam] == Str(q.filters.inStock)
      && (SearchParam in r <==> term != "")
      && (SearchParam in r ==> r[SearchParam] == Str(term))
      && (IsDeletedParam in r <==> q.category == "trash")
      && (IsDeletedParam in r ==> r[IsDeletedParam] == Yes)
      && (CategoryParam in r <==> q.category != "" && q.category != "trash")
      && (CategoryParam in r ==> r[CategoryParam] == Str(q.category))
  {
  }

  /** The page, the page size, the sort and the three filters are always sent, as they are. */
  lemma ParamsAlwaysSent(q: Query)
    ensures var r := Params(q);
      && PageParam in r && r[PageParam] == Num(q.page)
      && LimitParam in r && r[LimitParam] == Num(PageSize)
      && SortParam in r && r[SortParam] == Str(q.sort)
      && MinPriceParam in r && r[MinPriceParam] == Str(q.filters.minPrice)
      && MaxPriceParam in r && r[MaxPriceParam] == Str(q.filters.maxPrice)
      && InStockParam in r && r[InStockParam] == Str(q.filters.inStock)
  {
    ParamsWithContents(q, Trim(q.searchTerm));
  }

  /** The search is sent exactly when the term is not blank, and then trimmed. */
  lemma ParamsSearch(q: Query)
    ensures var r := Params(q);
      && (SearchParam in r <==> !Blank(q.searchTerm))
      && (SearchParam in r ==> r[SearchParam] == Str(Trim(q.searchTerm)))
  {
    ParamsWithContents(q, Trim(q.searchTerm));
    TrimEmptyIffBlank(q.searchTerm);
  }

  /** The bin is asked for with `isDeleted` and no category; any other chosen category is sent as it is. */
  lemma ParamsCategory(q: Query)
    ensures var r := Params(q);
      && (IsDeletedParam in r <==> q.category == "trash")
      && (IsDeletedParam in r ==> r[IsDeletedParam] == Yes)
      && (CategoryParam in r <==> q.category != "" && q.category != "trash")
      && (CategoryParam in r ==> r[CategoryParam] == Str(q.category))
  {
    ParamsWithContents(q, Trim(q.searchTerm));
  }

  /** `fetchProducts`'s construction of `params`, one assignment after another. */
  method BuildParams(q: Query) returns (params: map<ParamName, Param>)
    ensures params == Params(q)
  {
    params := map[PageParam := Num(q.page), LimitParam := Num(PageSize), SortParam := Str(q.sort)];
    params := params[MinPriceParam := Str(q.filters.minPrice)];
    params := params[MaxPriceParam := Str(q.filters.maxPrice)];
    params := params[InStockParam := Str(q.filters.inStock)];
    var term := Trim(q.searchTerm);
    if term != "" {
      params := params[SearchParam := Str(term)];
    }
    if q.category == "trash" {
      params := params[IsDeletedParam := Yes];
    } else if q.category != "" {
      params := params[CategoryParam := Str(q.category)];
    }
  }

  /** The body of a successful reply: the list and the page count, either of which may be absent. */
  datatype Listing = Listing(data: Option<seq<Product>>, totalPages: Option<int>)

  datatype Page = Page(
    products: seq<Product>,
    loading: bool,
    error: Option<string>,
    searchTerm: string,
    category: string,
    page: int,
    totalPages: int,
    sort: string,
    filters: Filters,
    scheduled: bool,          // a debounced fetch is waiting to run
    requests: seq<Request>)

  function QueryOf(p: Page): Query {
    Query(p.page, p.sort, p.filters, p.searchTerm, p.category)
  }

  /** The state the filters are made of (everything but the page). */
  function Filtering(p: Page): (string, string, string, Filters) {
    (p.searchTerm, p.category, p.sort, p.filters)
  }

  /** The page after its first render: loading, page 1 of 1, latest first, nothing filtered, a fetch scheduled. */
  function Mount(): (p: Page)
    ensures p.page == 1 && p.totalPages == 1 && p.sort == DefaultSort
    ensures p.searchTerm == "" && p.category == "" && p.filters == NoFilters
    ensures p.loading && p.error.None? && p.products == [] && p.scheduled && p.requests == []
  {
    Page([], true, None, "", "", 1, 1, DefaultSort, NoFilters, true, [])
  }

  datatype Event =
    | Search(term: string)                                // `handleSearch`
    | ChooseCategory(cat: string)                         // `handleCategoryChange`
    | ChooseSort(sort: string)                            // the filter bar's `setSort`
    | ChangeFilters(filters: Filters)                     // the filter bar's `setFilters`, always a new object
    | GoToPage(n: int)                                    // the pagination's `setPage`
    | ClearFilters                                        // `handleClearFilters`
    | DebounceFires                                       // the last scheduled timeout runs `fetchProducts`
    | Retry                                               // the error box's Try Again button
    | FetchSettled(reply: Reply<Listing>)
    | Restore(id: string, ok: bool)                       // `handleRestore`, and whether the call succeeds
    | ForceDelete(id: string, confirmed: bool, ok: bool)  // `handleForceDelete`, the confirmation and the call

  predicate IsFilterChange(e: Event) {
    e.Search? || e.ChooseCategory? || e.ChooseSort? || e.ChangeFilters? || e.ClearFilters?
  }

  /** A filter changed: the reset effect sends the page to 1, and the debounce effect schedules a fetch. */
  function AfterFilterChange(p: Page): Page {
    p.(page := 1, scheduled := true)
  }

  /** The synchronous part of `fetchProducts`. */
  function Fetch(p: Page): (q: Page)
    ensures q.loading && q.error.None?
    ensures q.requests == p.requests + [GetProducts(Params(QueryOf(p)))]
  {
    p.(loading := true, error := None, requests := p.requests + [GetProducts(Params(QueryOf(p)))])
  }

  function Step(p: Page, e: Event): (q: Page)
    ensures IsFilterChange(e) && Filtering(q) != Filtering(p) ==> q.page == 1 && q.scheduled
    ensures IsFilterChange(e) ==> q.requests == p.requests && q.products == p.products
    ensures IsFilterChange(e) && p.page == 1 && p.scheduled ==> q.page == 1 && q.scheduled
  {
    match e
    case Search(t) => if t == p.searchTerm then p else AfterFilterChange(p.(searchTerm := t))
    case ChooseCategory(c) => if c == p.category then p else AfterFilterChange(p.(category := c))
    case ChooseSort(s) => if s == p.sort then p else AfterFilterChange(p.(sort := s))
    case ChangeFilters(f) => AfterFilterChange(p.(filters := f))
    case GoToPage(n) => if n == p.page then p else p.(page := n, scheduled := true)
    case ClearFilters =>
      AfterFilterChange(p.(searchTerm := "", category := "", sort := DefaultSort, filters := NoFilters))
    case DebounceFires => if p.scheduled then Fetch(p.(scheduled := false)) else p
    case Retry => if Truthy(p.error) && !p.loading then Fetch(p) else p  // the box shows only then
    case FetchSettled(reply) =>
      (match reply
       case Ok(listing) =>
         p.(products := if listing.data.Some? then listing.data.value else [],
            totalPages := if listing.totalPages.Some? && listing.totalPages.value != 0
                          then listing.totalPages.value else 1)
       case Fail(m) => p.(error := Some(Or(m, FailureFallback)), products := [])
      ).(loading := false)
    case Restore(id, ok) =>
      var p' := p.(requests := p.requests + [RestoreProduct(id)]);
      if ok then Fetch(p') else p'
    case ForceDelete(id, confirmed, ok) =>
      if !confirmed then p
      else
        var p' := p.(requests := p.requests + [ForceDeleteProduct(id)]);
        if ok then Fetch(p') else p'
  }

  /** Changing the page keeps the filters and schedules a fetch of the new page. */
  lemma GoToPageKeepsFilters(p: Page, n: int)
    requires n != p.page
    ensures var q := Step(p, GoToPage(n));
      Filtering(q) == Filtering(p) && q.page == n && q.scheduled && q.requests == p.requests
  {
  }

  /** Try Again refetches the current state's listing, and is only there while an error is shown and nothing loads. */
  lemma RetryOnlyFromErrorBox(p: Page)
    ensures var q := Step(p, Retry);
      && (Truthy(p.error) && !p.loading ==>
            q.loading && q.error.None? && q.requests == p.requests + [GetProducts(Params(QueryOf(p)))])
      && (!Truthy(p.error) || p.loading ==> q == p)
  {
  }

  /** Clearing puts every filter, the sort and the search back to their initial values and the page to 1. */
  lemma ClearFiltersRestoresInitial(p: Page)
    ensures var q := Step(p, ClearFilters);
      && Filtering(q) == Filtering(Mount()) && q.page == 1 && q.scheduled
      && q.requests == p.requests && q.products == p.products
  {
  }

  /** The fetch that fires is the one scheduled last, with the state it was scheduled in; there is none without a schedule. */
  lemma DebounceFiresFetches(p: Page)
    ensures var q := Step(p, DebounceFires);
      && (p.scheduled ==> !q.scheduled && q.loading && q.requests == p.requests + [GetProducts(Params(QueryOf(p)))])
      && (!p.scheduled ==> q == p)
  {
  }

  /** A listing replaces the products (none when absent) and the page count (1 when absent or 0); a failure empties the list and reports. */
  lemma FetchSettledOutcome(p: Page, reply: Reply<Listing>)
    ensures var q := Step(p, FetchSettled(reply));
      && !q.loading && q.requests == p.requests && Filtering(q) == Filtering(p) && q.page == p.page
      && (reply.Ok? ==>
            && q.products == (if reply.value.data.Some? then reply.value.data.value else [])
            && (reply.value.totalPages.Some? && reply.value.totalPages.value != 0 ==>
                  q.totalPages == reply.value.totalPages.value)
            && (reply.value.totalPages.None? || reply.value.totalPages.value == 0 ==> q.totalPages == 1))
      && (reply.Fail? ==> q.products == [] && q.error == Some(FailureText(reply, FailureFallback)))
  {
  }

  /** A declined confirmation makes no request; a confirmed one deletes and, if that succeeds, refetches. */
  lemma ForceDeleteNeedsConfirmation(p: Page, id: string, confirmed: bool, ok: bool)
    ensures var q := Step(p, ForceDelete(id, confirmed, ok));
      && (!confirmed ==> q == p)
      && (confirmed && !ok ==> q.requests == p.requests + [ForceDeleteProduct(id)])
      && (confirmed && ok ==> q.requests == p.requests + [ForceDeleteProduct(id), GetProducts(Params(QueryOf(p)))])
  {
  }

  /** A restore asks for no confirmation and refetches when it succeeds. */
  lemma RestoreRefetches(p: Page, id: string, ok: bool)
    ensures var q := Step(p, Restore(id, ok));
      && (!ok ==> q.requests == p.requests + [RestoreProduct(id)])
      && (ok ==> q.requests == p.requests + [RestoreProduct(id), GetProducts(Params(QueryOf(p)))])
  {
  }

  function Run(p: Page, events: seq<Event>): Page
    decreases |events|
  {
    if events == [] then p else Run(Step(p, events[0]), events[1..])
  }

  predicate AllFilterChanges(events: seq<Event>) {
    forall i :: 0 <= i < |events| ==> IsFilterChange(events[i])
  }

  /**
   * A burst of filter changes makes no request, and if it changed anything
   * the page is back at 1 with a fetch scheduled; the fetch that then fires
   * asks for page 1 with the last values.
   */
  lemma {:induction false} FilterBurst(p: Page, events: seq<Event>)
    requires AllFilterChanges(events)
    ensures var q := Run(p, events);
      && q.requests == p.requests
      && (Filtering(q) != Filtering(p) ==> q.page == 1 && q.scheduled)
      && (p.page == 1 && p.scheduled ==> q.page == 1 && q.scheduled)
    decreases |events|
  {
    if events != [] {
      var p1 := Step(p, events[0]);
      FilterBurst(p1, events[1..]);
    }
  }

  /** After a burst that changed the filters, the one fetch that fires carries page 1 and the final filters. */
  lemma BurstThenFetch(p: Page, events: seq<Event>)
    requires AllFilterChanges(events)
    requires Filtering(Run(p, events)) != Filtering(p)
    ensures var q := Run(p, events);
      Step(q, DebounceFires).requests == p.requests + [GetProducts(Params(QueryOf(q)))]
      && Params(QueryOf(q))[PageParam] == Num(1)
  {
    FilterBurst(p, events);
  }

  /** The page with its state in fields. */
  class HomePage {
    var products: seq<Product>
    var loading: bool
    var error: Option<string>
    var searchTerm: string
    var category: string
    var page: int
    var totalPages: int
    var sort: string
    var filters: Filters
    var scheduled: bool
    var requests: seq<Request>

    function State(): Page
      reads this
    {
      Page(products, loading, error, searchTerm, category, page, totalPages, sort, filters, scheduled, requests)
    }

    constructor ()
      ensures State() == Mount()
    {
      products := [];
      loading := true;
      error := None;
      searchTerm := "";
      category := "";
      page := 1;
      totalPages := 1;
      sort := DefaultSort;
      filters := NoFilters;
      scheduled := true;
      requests := [];
    }

    /** The page-reset effect followed by the debounce effect. */
    method FiltersChanged()
      modifies this
      ensures State() == AfterFilterChange(old(State()))
    {
      if page != 1 {
        page := 1;
      }
      scheduled := true;
    }

    method HandleSearch(term: string)
      modifies this
      ensures State() == Step(old(State()), Search(term))
    {
      if term != searchTerm {
        searchTerm := term;
        FiltersChanged();
      }
    }

    method HandleCategoryChange(cat: string)
      modifies this
      ensures State() == Step(old(State()), ChooseCategory(cat))
    {
      if cat != category {
        category := cat;
        FiltersChanged();
      }
    }

    method SetSort(s: string)
      modifies this
      ensures State() == Step(old(State()), ChooseSort(s))
    {
      if s != sort {
        sort := s;
        FiltersChanged();
      }
    }

    method SetFilters(f: Filters)
      modifies this
      ensures State() == Step(old(State()), ChangeFilters(f))
    {
      filters := f;
      FiltersChanged();
    }

    method SetPage(n: int)
      modifies this
      ensures State() == Step(old(State()), GoToPage(n))
    {
      if n != page {
        page := n;
        scheduled := true;
      }
    }

    method HandleClearFilters()
      modifies this
      ensures State() == Step(old(State()), Event.ClearFilters)
    {
      searchTerm := "";
      category := "";
      sort := DefaultSort;
      filters := NoFilters;
      page := 1;
      FiltersChanged();
    }

    /** The synchronous part of `fetchProducts`: the flags, then the call with the parameters built from the state. */
    method FetchProducts()
      modifies this
      ensures State() == Fetch(old(State()))
    {
      loading := true;
      error := None;
      var params := BuildParams(Query(page, sort, filters, searchTerm, category));
      requests := requests + [GetProducts(params)];
    }

    method DebounceFires()
      modifies this
      ensures State() == Step(old(State()), Event.DebounceFires)
    {
      if scheduled {
        scheduled := false;
        FetchProducts();
      }
    }

    method Retry()
      modifies this
      ensures State() == Step(old(State()), Event.Retry)
    {
      if Truthy(error) && !loading {
        FetchProducts();
      }
    }

    /** The rest of `fetchProducts`, once the call settles. */
    method FetchSettled(reply: Reply<Listing>)
      modifies this
      ensures State() == Step(old(State()), Event.FetchSettled(reply))
    {
      match reply {
        case Ok(listing) =>
          products := if listing.data.Some? then listing.data.value else [];
          totalPages := if listing.totalPages.Some? && listing.totalPages.value != 0 then listing.totalPages.value else 1;
        case Fail(m) =>
          error := Some(Or(m, FailureFallback));
          products := [];
      }
      loading := false;
    }

    method HandleRestore(id: string, ok: bool)
      modifies this
      ensures State() == Step(old(State()), Restore(id, ok))
    {
      requests := requests + [RestoreProduct(id)];
      if ok {
        FetchProducts();
      }
    }

    method HandleForceDelete(id: string, confirmed: bool, ok: bool)
      modifies this
      ensures State() == Step(old(State()), ForceDelete(id, confirmed, ok))
    {
      if !confirmed {
        return;
      }
      requests := requests + [ForceDeleteProduct(id)];
      if ok {
        FetchProducts();
      }
    }
  }
}
