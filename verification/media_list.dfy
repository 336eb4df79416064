/** The standalone infinite-scroll list (`src/components/MediaList.tsx`):
    a page fetch guarded by `loading`, exhaustion on the first empty page,
    a scroll trigger, delete, and the reset after a successful form
    submission. Each handler is one atomic transition. */
module MediaList {
  import opened Types

  /** Page size requested by `fetchMedia`. */
  const PageLimit: int := 10

  datatype State = State(media: seq<Media>, page: int, hasMore: bool, loading: bool)

  const Initial: State := State([], 1, true, false)

  /** The new state, the requests sent, and whether an error escaped the
      handler (only `handleDelete` lets one through). */
  datatype Step = Step(state: State, sent: seq<MediaRequest>, escaped: bool)

  /** `fetchMedia(pageNum)`. The early return for `loading` comes before
      the `try`, so only a fetch that is actually sent clears `loading`;
      as the guard let it through, `loading` ends as it began. */
  function FetchMedia(s: State, pageNum: int, outcome: Outcome<PageResponse>): (r: Step)
    ensures s.loading ==> r == Step(s, [], false)
    ensures !s.loading ==> r.sent == [GetMedia(pageNum, PageLimit)]
    ensures r.state.loading == s.loading
    ensures !r.escaped
    ensures r.state.page == s.page
    ensures outcome.Failed? ==> r.state.media == s.media && r.state.hasMore == s.hasMore
    ensures !s.loading && outcome.Ok? && Items(outcome.value) == [] ==>
              r.state.media == s.media && !r.state.hasMore
    ensures !s.loading && outcome.Ok? && Items(outcome.value) != [] ==>
              r.state.media == s.media + Items(outcome.value) && r.state.hasMore == s.hasMore
  {
    if s.loading then Step(s, [], false)
    else
      var sent := [GetMedia(pageNum, PageLimit)];
      match outcome
      case Failed => Step(s.(loading := false), sent, false)
      case Ok(resp) =>
        var fetched := Items(resp);
        if |fetched| == 0 then Step(s.(hasMore := false, loading := false), sent, false)
        else Step(s.(media := s.media + fetched, loading := false), sent, false)
  }

  /** The mount effect: `fetchMedia()` with its default page 1. */
  function Mount(outcome: Outcome<PageResponse>): (r: Step)
    ensures r.sent == [GetMedia(1, PageLimit)] && !r.escaped
    ensures r.state.page == 1 && !r.state.loading
    ensures outcome.Ok? && Items(outcome.value) != [] ==> r.state.media == Items(outcome.value) && r.state.hasMore
    ensures outcome.Ok? && Items(outcome.value) == [] ==> r.state.media == [] && !r.state.hasMore
    ensures outcome.Failed? ==> r.state.media == [] && r.state.hasMore
  {
    FetchMedia(Initial, 1, outcome)
  }

  /** The scroll listener: near the bottom, with more to load and nothing
      loading, fetch the next page and advance the cursor. */
  function HandleScroll(s: State, nearBottom: bool, outcome: Outcome<PageResponse>): (r: Step)
    ensures !(nearBottom && s.hasMore && !s.loading) ==> r == Step(s, [], false)
    ensures nearBottom && s.hasMore && !s.loading ==>
              r.sent == [GetMedia(s.page + 1, PageLimit)] && r.state.page == s.page + 1
  {
    if nearBottom && s.hasMore && !s.loading then
      var f := FetchMedia(s, s.page + 1, outcome);
      f.(state := f.state.(page := s.page + 1))
    else Step(s, [], false)
  }

  /** `handleDelete(id)`: no try/catch, so a rejected delete leaves the
      list as it is and the error escapes. */
  function HandleDelete(s: State, id: int, confirmed: bool, outcome: Outcome<()>): (r: Step)
    ensures !confirmed ==> r == Step(s, [], false)
    ensures confirmed ==> r.sent == [DeleteMedia(id)]
    ensures r.state == s.(media := r.state.media)
    ensures confirmed && outcome.Failed? ==> r.state == s && r.escaped
    ensures confirmed && outcome.Ok? ==> r.state.media == WithoutId(s.media, id) && !r.escaped
  {
    if !confirmed then Step(s, [], false)
    else match outcome
      case Failed => Step(s, [DeleteMedia(id)], true)
      case Ok(_) => Step(s.(media := WithoutId(s.media, id)), [DeleteMedia(id)], false)
  }

  /** The form's `onSuccess`: clear the list, rewind the cursor and fetch
      the first page; `hasMore` is left as it was. */
  function OnFormSuccess(s: State, outcome: Outcome<PageResponse>): (r: Step)
    ensures r.state.page == 1
    ensures s.loading ==> r.state.media == [] && r.sent == [] && r.state.hasMore == s.hasMore
    ensures !s.loading ==> r.sent == [GetMedia(1, PageLimit)]
    ensures outcome.Failed? ==> r.state.media == [] && r.state.hasMore == s.hasMore
    ensures !s.loading && outcome.Ok? && Items(outcome.value) == [] ==>
              r.state.media == [] && !r.state.hasMore
    ensures !s.loading && outcome.Ok? && Items(outcome.value) != [] ==>
              r.state.media == Items(outcome.value) && r.state.hasMore == s.hasMore
  {
    FetchMedia(s.(media := [], page := 1), 1, outcome)
  }

  datatype Event =
    | Scrolled(nearBottom: bool, outcome: Outcome<PageResponse>)
    | DeleteClicked(id: int, confirmed: bool, deleteOutcome: Outcome<()>)
    | FormSucceeded(outcome: Outcome<PageResponse>)
    | Fetched(page: int, outcome: Outcome<PageResponse>)

  function Apply(s: State, e: Event): Step {
    match e
    case Scrolled(near, o) => HandleScroll(s, near, o)
    case DeleteClicked(id, c, o) => HandleDelete(s, id, c, o)
    case FormSucceeded(o) => OnFormSuccess(s, o)
    case Fetched(p, o) => FetchMedia(s, p, o)
  }

  function Run(s: State, events: seq<Event>): State
    decreases |events|
  {
    if events == [] then s else Run(Apply(s, events[0]).state, events[1..])
  }

  /** No handler ever sets `hasMore` back to true. */
  lemma ApplyNeverRestoresHasMore(s: State, e: Event)
    ensures Apply(s, e).state.hasMore ==> s.hasMore
  {
  }

  /** Once the list is exhausted it stays exhausted, whatever happens
      next, the form-success reset included, so the scroll trigger's
      `hasMore` guard never passes again. */
  lemma {:induction false} ExhaustionIsPermanent(s: State, events: seq<Event>)
    requires !s.hasMore
    ensures !Run(s, events).hasMore
    decreases |events|
  {
    if events != [] {
      ApplyNeverRestoresHasMore(s, events[0]);
      ExhaustionIsPermanent(Apply(s, events[0]).state, events[1..]);
    }
  }

  /** While a fetch is in flight every handler sends nothing except a
      confirmed delete. */
  lemma LoadingSuppressesFetches(s: State, e: Event)
    requires s.loading
    requires !e.DeleteClicked?
    ensures Apply(s, e).sent == []
  {
  }

  /** With every handler one atomic step, `loading` is never observed
      true: every state reachable from a settled one is settled, so the
      guard's early return is never taken from the mounted list. */
  lemma {:induction false} LoadingNeverObserved(s: State, events: seq<Event>)
    requires !s.loading
    ensures !Run(s, events).loading
    decreases |events|
  {
    if events != [] {
      LoadingNeverObserved(Apply(s, events[0]).state, events[1..]);
    }
  }
}
