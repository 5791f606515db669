/**
 * The App component: the UI state it keeps (page, search text, modal flag) and the
 * handlers that update it, the list query it derives from that state, and the rule
 * that decides which of pagination, error, loading, empty message and list are shown.
 */
module App {
  import opened Wrappers
  import opened Text
  import opened Note
  import opened NoteService

  /** Every list request asks for twelve notes per page. */
  const PerPage: int := 12

  /** The cache key of the list query: its namespace, the page and the debounced search text. */
  datatype QueryKey = QueryKey(namespace: string, page: int, search: string)

  function ListQueryKey(page: int, debouncedSearch: string): QueryKey {
    QueryKey("notes", page, debouncedSearch)
  }

  /** The parameters the list query passes to the service. */
  function ListParams(page: int, debouncedSearch: string): FetchNotesParams {
    FetchNotesParams(page, PerPage, Some(debouncedSearch))
  }

  /** The list query asks for the current page, twelve per page, and the debounced search unless it is blank. */
  lemma ListQueryRequest(c: Client, page: int, debouncedSearch: string)
    ensures var r := FetchNotesRequest(c, ListParams(page, debouncedSearch));
      r.params["page"] == NumParam(page) && r.params["perPage"] == NumParam(PerPage) &&
      ("search" in r.params <==> !AllTrimmable(debouncedSearch)) &&
      ("search" in r.params ==> r.params["search"] == StrParam(Trim(debouncedSearch)))
  {
  }

  /** Equal cache keys always mean equal requests. */
  lemma KeyDeterminesRequest(c: Client, p1: int, s1: string, p2: int, s2: string)
    requires ListQueryKey(p1, s1) == ListQueryKey(p2, s2)
    ensures FetchNotesRequest(c, ListParams(p1, s1)) == FetchNotesRequest(c, ListParams(p2, s2))
  {
  }

  /**
   * The converse fails: the key holds the untrimmed search, so a search and the same
   * search with leading whitespace are cached apart yet send the same request.
   */
  lemma PaddedSearchSharesRequest(c: Client, page: int, t: string, pad: string)
    requires IsTrimmed(t) && AllTrimmable(pad) && pad != []
    ensures ListQueryKey(page, t) != ListQueryKey(page, pad + t)
    ensures FetchNotesRequest(c, ListParams(page, t)) == FetchNotesRequest(c, ListParams(page, pad + t))
  {
    assert |pad + t| > |t|;
    assert NormalizeSearch(Some(pad + t)) == NormalizeSearch(Some(t)) by {
      TrimFixedIff(t);
      assert pad + t + [] == pad + t;
      TrimStrips(pad, t, []);
    }
    SameNormalizedSearchSameRequest(c, ListParams(page, t), ListParams(page, pad + t));
  }

  /** `data?.notes ?? []` */
  function NotesOf(data: Option<FetchNotesResponse>): seq<Note> {
    if data.Some? then data.value.notes else []
  }

  /** `data?.totalPages ?? 0` */
  function TotalPagesOf(data: Option<FetchNotesResponse>): int {
    if data.Some? then data.value.totalPages else 0
  }

  /** Which parts of the page are rendered. */
  datatype View = View(pagination: bool, error: bool, loading: bool, empty: bool, list: bool)

  /**
   * The display rule. The three messages never show together, and when there are
   * no notes exactly one of them shows: the error message on an error, otherwise
   * the loading message while fetching and the empty message when not. The list shows exactly when there are notes,
   * and then neither the loading nor the empty message does; the error message is
   * not excluded.
   */
  function Display(isError: bool, isFetching: bool, noteCount: nat, totalPages: int): (v: View)
    ensures v.pagination <==> totalPages > 1
    ensures v.error <==> isError
    ensures !(v.error && v.loading) && !(v.error && v.empty) && !(v.loading && v.empty)
    ensures noteCount == 0 ==> v.error || v.loading || v.empty
    ensures noteCount == 0 && !isError ==> (v.loading <==> isFetching) && (v.empty <==> !isFetching)
    ensures v.list <==> noteCount > 0
    ensures v.list ==> !v.loading && !v.empty
  {
    View(
      totalPages > 1,
      isError,
      !isError && isFetching && noteCount == 0,
      !isError && !isFetching && noteCount == 0,
      noteCount > 0)
  }

  /** The view for the query's current flags and data. */
  function ViewOf(isError: bool, isFetching: bool, data: Option<FetchNotesResponse>): View {
    Display(isError, isFetching, |NotesOf(data)|, TotalPagesOf(data))
  }

  /** With no data yet there are no notes and no pages: no pagination, no list, and exactly one message. */
  lemma NoDataView(isError: bool, isFetching: bool)
    ensures NotesOf(None) == [] && TotalPagesOf(None) == 0
    ensures var v := ViewOf(isError, isFetching, None);
      !v.pagination && !v.list &&
      (if isError then v.error else if isFetching then v.loading else v.empty) &&
      (v.error ==> !v.loading && !v.empty) && (v.loading ==> !v.empty)
  {
  }

  /** A failed refetch that keeps the previous page shows the error message beside the list. */
  lemma ErrorBesideStaleList(n: Note)
    ensures var v := ViewOf(true, false, Some(FetchNotesResponse([n], 1, PerPage, 1, 1)));
      v.error && v.list
  {
  }

  /** The component's own state. */
  datatype UiState = UiState(page: int, search: string, isModalOpen: bool)

  const InitialUi: UiState := UiState(1, "", false)

  /** `handleSearchChange`: the new search text and back to page 1; the modal is untouched. */
  function SearchChanged(s: UiState, value: string): (r: UiState)
    ensures r.search == value && r.page == 1 && r.isModalOpen == s.isModalOpen
  {
    s.(search := value, page := 1)
  }

  /** `openModal` */
  function ModalOpened(s: UiState): (r: UiState)
    ensures r.isModalOpen && r.page == s.page && r.search == s.search
  {
    s.(isModalOpen := true)
  }

  /** `closeModal` */
  function ModalClosed(s: UiState): (r: UiState)
    ensures !r.isModalOpen && r.page == s.page && r.search == s.search
  {
    s.(isModalOpen := false)
  }

  /** The pagination control's page change. */
  function PageChanged(s: UiState, page: int): (r: UiState)
    ensures r.page == page && r.search == s.search && r.isModalOpen == s.isModalOpen
  {
    s.(page := page)
  }

  /** Opening or closing twice is the same as once, and the later of the two always wins. */
  lemma ModalHandlersIdempotent(s: UiState)
    ensures ModalOpened(ModalOpened(s)) == ModalOpened(s)
    ensures ModalClosed(ModalClosed(s)) == ModalClosed(s)
    ensures ModalOpened(ModalClosed(s)) == ModalOpened(s)
    ensures ModalClosed(ModalOpened(s)) == ModalClosed(s)
  {
  }

  /** A search change then a page change keeps the search; a later search change returns to page 1. */
  lemma SearchResetsPage(s: UiState, value: string, page: int)
    ensures PageChanged(SearchChanged(s, value), page).search == value
    ensures SearchChanged(PageChanged(s, page), value) == SearchChanged(s, value)
  {
  }

  /** The component: the three state hooks and their handlers. */
  class AppComponent {
    var page: int
    var search: string
    var isModalOpen: bool

    function State(): UiState
      reads this
    {
      UiState(page, search, isModalOpen)
    }

    constructor()
      ensures State() == InitialUi
    {
      page, search, isModalOpen := 1, "", false;
    }

    /** The cache key of the list query the component runs for a debounced search text. */
    function CurrentKey(debouncedSearch: string): (k: QueryKey)
      reads this
      ensures k.namespace == "notes" && k.page == page && k.search == debouncedSearch
    {
      ListQueryKey(page, debouncedSearch)
    }

    method HandleSearchChange(value: string)
      modifies this
      ensures State() == SearchChanged(old(State()), value)
    {
      search := value;
      page := 1;
    }

    method OpenModal()
      modifies this
      ensures State() == ModalOpened(old(State()))
    {
      isModalOpen := true;
    }

    method CloseModal()
      modifies this
      ensures State() == ModalClosed(old(State()))
    {
      isModalOpen := false;
    }

    method SetPage(p: int)
      modifies this
      ensures State() == PageChanged(old(State()), p)
    {
      page := p;
    }
  }
}
