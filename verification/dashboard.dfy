/** The Dashboard page's list controller (`src/pages/Dashboard.tsx`): page
    loading with image-URL normalisation, load-more, delete and the reload
    after a successful form submission. Each handler is one atomic
    transition from the old state and the settled remote outcome. */
module Dashboard {
  import opened Types
  import opened Text
  import opened Seqs
  import opened MediaFilter

  /** The backend root prefixed to relative image paths. */
  const BaseUrl: string := "https://my-media-backend.vercel.app"

  /** Page size requested by `loadMedia`. */
  const PageLimit: int := 50

  /** An image reference the card can show without further prefixing. */
  predicate AbsoluteOrAbsent(m: Media) {
    m.imageUrl.None? || StartsWith(m.imageUrl.value, "http")
  }

  /** The per-item rewrite applied to every fetched record. */
  function NormaliseImage(m: Media): (r: Media)
    ensures r == m.(imageUrl := r.imageUrl)
    ensures r.imageUrl.None? <==> !Truthy(m.imageUrl)
    ensures Truthy(m.imageUrl) && StartsWith(m.imageUrl.value, "http") ==> r == m
    ensures Truthy(m.imageUrl) && !StartsWith(m.imageUrl.value, "http") ==>
              r.imageUrl == Some(BaseUrl + m.imageUrl.value)
    ensures AbsoluteOrAbsent(r)
  {
    if !Truthy(m.imageUrl) then m.(imageUrl := None)
    else if StartsWith(m.imageUrl.value, "http") then m
    else
      var u := BaseUrl + m.imageUrl.value;
      assert u[..4] == BaseUrl[..4];
      m.(imageUrl := Some(u))
  }

  /** Normalising an already normalised record changes nothing. */
  lemma NormaliseIdempotent(m: Media)
    ensures NormaliseImage(NormaliseImage(m)) == NormaliseImage(m)
  {
  }

  function Normalise(items: seq<Media>): (r: seq<Media>)
    ensures |r| == |items|
    ensures forall i :: 0 <= i < |items| ==> r[i] == NormaliseImage(items[i])
  {
    seq(|items|, i requires 0 <= i < |items| => NormaliseImage(items[i]))
  }

  /** `response?.pagination?.totalPages || 1`: a missing or zero count is 1. */
  function TotalPages(resp: PageResponse): (r: int)
    ensures resp.totalPages.Some? && resp.totalPages.value != 0 ==> r == resp.totalPages.value
    ensures resp.totalPages.None? || resp.totalPages.value == 0 ==> r == 1
    ensures r != 0
  {
    if resp.totalPages.None? || resp.totalPages.value == 0 then 1 else resp.totalPages.value
  }

  datatype State = State(
    mediaList: seq<Media>,
    page: int,
    hasMore: bool,
    isLoading: bool,
    searchQuery: string,
    typeFilter: TypeFilter)

  /** The component's state before the mount effect runs. */
  const Initial: State := State([], 1, true, true, "", AllTypes)

  /** `filteredMedia`, recomputed by the effect whenever its inputs change. */
  function Visible(s: State): seq<Media> {
    FilterMedia(s.mediaList, s.searchQuery, s.typeFilter)
  }

  /** A new state together with the requests the handler sent. */
  datatype Step = Step(state: State, sent: seq<MediaRequest>)

  /** `loadMedia(pageNum, reset)`. There is no in-flight guard: the request
      is sent whatever `isLoading` is. */
  function LoadMedia(s: State, pageNum: int, reset: bool, outcome: Outcome<PageResponse>): (r: Step)
    ensures r.sent == [GetMedia(pageNum, PageLimit)]
    ensures !r.state.isLoading
    ensures r.state.page == s.page
    ensures r.state.searchQuery == s.searchQuery && r.state.typeFilter == s.typeFilter
    ensures outcome.Failed? ==> r.state == s.(isLoading := false)
    ensures outcome.Ok? ==> r.state.hasMore == (pageNum < TotalPages(outcome.value))
    ensures outcome.Ok? && reset ==> r.state.mediaList == Normalise(Items(outcome.value))
    ensures outcome.Ok? && !reset ==>
              r.state.mediaList == s.mediaList + Normalise(Items(outcome.value))
  {
    var sent := [GetMedia(pageNum, PageLimit)];
    match outcome
    case Failed => Step(s.(isLoading := false), sent)
    case Ok(resp) =>
      var fetched := Normalise(Items(resp));
      var list := if reset then fetched else s.mediaList + fetched;
      Step(s.(mediaList := list, hasMore := pageNum < TotalPages(resp), isLoading := false), sent)
  }

  /** The mount effect: `loadMedia(1, true)`. */
  function Mount(outcome: Outcome<PageResponse>): (r: Step)
    ensures r.sent == [GetMedia(1, PageLimit)]
    ensures r.state.page == 1 && !r.state.isLoading
    ensures r.state.searchQuery == "" && r.state.typeFilter == AllTypes
    ensures outcome.Failed? ==> r.state.mediaList == [] && r.state.hasMore
    ensures outcome.Ok? ==>
              && r.state.mediaList == Normalise(Items(outcome.value))
              && r.state.hasMore == (1 < TotalPages(outcome.value))
  {
    LoadMedia(Initial, 1, true, outcome)
  }

  /** `loadMore`: advance the cursor and append the next page. */
  function LoadMore(s: State, outcome: Outcome<PageResponse>): (r: Step)
    ensures r.state.page == s.page + 1
    ensures r.sent == [GetMedia(s.page + 1, PageLimit)]
    ensures outcome.Ok? ==> r.state.mediaList == s.mediaList + Normalise(Items(outcome.value))
    ensures outcome.Failed? ==> r.state.mediaList == s.mediaList
  {
    var next := s.page + 1;
    LoadMedia(s.(page := next), next, false, outcome)
  }

  /** `handleDelete(id)`: ask, call the server, and drop the records only
      once the call succeeded. */
  function HandleDelete(s: State, id: int, confirmed: bool, outcome: Outcome<()>): (r: Step)
    ensures !confirmed ==> r == Step(s, [])
    ensures confirmed ==> r.sent == [DeleteMedia(id)]
    ensures outcome.Failed? ==> r.state == s
    ensures r.state == s.(mediaList := r.state.mediaList)
    ensures confirmed && outcome.Ok? ==> r.state.mediaList == WithoutId(s.mediaList, id)
  {
    if !confirmed then Step(s, [])
    else match outcome
      case Failed => Step(s, [DeleteMedia(id)])
      case Ok(_) => Step(s.(mediaList := WithoutId(s.mediaList, id)), [DeleteMedia(id)])
  }

  /** `handleFormSuccess`: reload the first page with reset; `page` stays. */
  function HandleFormSuccess(s: State, outcome: Outcome<PageResponse>): (r: Step)
    ensures r.state.page == s.page
    ensures r.sent == [GetMedia(1, PageLimit)]
    ensures !r.state.isLoading
    ensures outcome.Failed? ==> r.state == s.(isLoading := false)
    ensures outcome.Ok? ==>
              && r.state.mediaList == Normalise(Items(outcome.value))
              && r.state.hasMore == (1 < TotalPages(outcome.value))
              && r.state.searchQuery == s.searchQuery && r.state.typeFilter == s.typeFilter
  {
    LoadMedia(s, 1, true, outcome)
  }

  /** A successful delete removes exactly the records with that id and
      keeps every other record in order, each as many times as it was
      cached. */
  lemma DeleteRemovesExactlyId(s: State, id: int, m: Media)
    ensures var after := HandleDelete(s, id, true, Ok(())).state.mediaList;
            && IsSubsequence(after, s.mediaList)
            && (m in after <==> m in s.mediaList && m.id != id)
            && multiset(after)[m] == (if m.id != id then multiset(s.mediaList)[m] else 0)
  {
  }

  /** Deleting the same id twice is deleting it once. */
  lemma DeleteIdempotent(s: State, id: int)
    ensures var once := HandleDelete(s, id, true, Ok(())).state;
            HandleDelete(once, id, true, Ok(())).state == once
  {
    WithoutIdIdempotent(s.mediaList, id);
  }

  /** After a delete, the visible list is the old visible list without
      the deleted id. */
  lemma DeleteCommutesWithFilter(s: State, id: int)
    ensures Visible(HandleDelete(s, id, true, Ok(())).state)
         == WithoutId(Visible(s), id)
  {
    var notId := (m: Media) => m.id != id;
    var sel := m => Selected(m, s.searchQuery, s.typeFilter);
    FilterIsConjunction(s.mediaList, s.searchQuery, s.typeFilter);
    FilterIsConjunction(Keep(s.mediaList, notId), s.searchQuery, s.typeFilter);
    KeepCommutes(s.mediaList, notId, sel);
  }

  /** Loading more appends the filtered new page to what is already
      shown: the shown records before the load stay, in place. */
  lemma LoadMoreExtendsView(s: State, resp: PageResponse)
    ensures Visible(LoadMore(s, Ok(resp)).state)
         == Visible(s) + FilterMedia(Normalise(Items(resp)), s.searchQuery, s.typeFilter)
  {
    FilterAppend(s.mediaList, Normalise(Items(resp)), s.searchQuery, s.typeFilter);
  }

  /** The single-page scenario: one page reporting one page in all ends
      the list. */
  lemma SinglePageEndsList(items: seq<Media>, totalPages: Option<int>)
    requires totalPages == None || totalPages == Some(0) || totalPages == Some(1)
    ensures var r := Mount(Ok(PageResponse(Some(items), totalPages))).state;
            !r.hasMore && r.mediaList == Normalise(items) && !r.isLoading
  {
  }

  /** The user intents the Dashboard reacts to, each with the outcome of
      the remote call it triggers. */
  datatype Event =
    | LoadMoreEvent(outcome: Outcome<PageResponse>)
    | DeleteEvent(id: int, confirmed: bool, deleteOutcome: Outcome<()>)
    | FormSuccessEvent(outcome: Outcome<PageResponse>)
    | SearchEdited(query: string)
    | TypeSelected(filter: TypeFilter)

  function Apply(s: State, e: Event): State {
    match e
    case LoadMoreEvent(o) => LoadMore(s, o).state
    case DeleteEvent(id, c, o) => HandleDelete(s, id, c, o).state
    case FormSuccessEvent(o) => HandleFormSuccess(s, o).state
    case SearchEdited(q) => s.(searchQuery := q)
    case TypeSelected(tf) => s.(typeFilter := tf)
  }

  function Run(s: State, events: seq<Event>): State
    decreases |events|
  {
    if events == [] then s else Run(Apply(s, events[0]), events[1..])
  }

  function CountLoadMore(events: seq<Event>): nat
    decreases |events|
  {
    if events == [] then 0
    else (if events[0].LoadMoreEvent? then 1 else 0) + CountLoadMore(events[1..])
  }

  /** Every record the Dashboard holds has an absolute image URL or none. */
  predicate ImagesNormalised(s: State) {
    forall i :: 0 <= i < |s.mediaList| ==> AbsoluteOrAbsent(s.mediaList[i])
  }

  lemma ApplyKeepsImagesNormalised(s: State, e: Event)
    requires ImagesNormalised(s)
    ensures ImagesNormalised(Apply(s, e))
  {
    match e
    case DeleteEvent(id, c, o) =>
      var after := Apply(s, e).mediaList;
      forall i | 0 <= i < |after|
        ensures AbsoluteOrAbsent(after[i])
      {
        assert after[i] in s.mediaList;
      }
    case _ =>
  }

  /** Whatever the user does, the cached list holds only normalised
      image URLs, and `page` counts exactly the load-more requests: the
      form-success reload does not reset it. */
  lemma {:induction false} RunInvariants(s: State, events: seq<Event>)
    requires ImagesNormalised(s)
    ensures ImagesNormalised(Run(s, events))
    ensures Run(s, events).page == s.page + CountLoadMore(events)
    decreases |events|
  {
    if events != [] {
      ApplyKeepsImagesNormalised(s, events[0]);
      RunInvariants(Apply(s, events[0]), events[1..]);
    }
  }

  /** Loads that each succeed with a full page of `size` records grow the
      cache by `size` per load. */
  lemma {:induction false} FullPagesGrowCache(s: State, events: seq<Event>, size: nat)
    requires forall i :: 0 <= i < |events| ==>
               && events[i].LoadMoreEvent? && events[i].outcome.Ok?
               && |Items(events[i].outcome.value)| == size
    ensures |Run(s, events).mediaList| == |s.mediaList| + |events| * size
    decreases |events|
  {
    if events != [] {
      var next := Apply(s, events[0]);
      assert |next.mediaList| == |s.mediaList| + size;
      FullPagesGrowCache(next, events[1..], size);
      assert (|events| - 1) * size + size == |events| * size;
    }
  }
}
