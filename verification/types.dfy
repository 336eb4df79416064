/** The records the client exchanges with the backend (`src/types/index.ts`)
    and the shapes of the remote calls the controllers make. */
module Types {
  import opened Seqs

  /** A JavaScript value that may be `null`/`undefined`. */
  datatype Option<T> = None | Some(value: T) {
    function GetOr(default: T): T {
      match this
      case Some(v) => v
      case None => default
    }
  }

  /** `'Movie' | 'TV Show'`. */
  datatype MediaType = Movie | TvShow

  /** The string a media type is written as, on the wire and in the filter. */
  function TypeName(t: MediaType): string {
    match t
    case Movie => "Movie"
    case TvShow => "TV Show"
  }

  /** The type filter's value domain: `"all" | "Movie" | "TV Show"`. */
  datatype TypeFilter = AllTypes | OnlyType(only: MediaType)

  datatype User = User(id: int, name: string, email: string, createdAt: string)

  datatype Media = Media(
    id: int,
    title: string,
    kind: MediaType,
    director: string,
    budget: Option<string>,
    location: Option<string>,
    duration: Option<string>,
    year: Option<string>,
    poster: Option<string>,
    imageUrl: Option<string>,
    userId: int,
    createdAt: string)

  /** JavaScript truthiness of an optional string: present and non-empty. */
  predicate Truthy(o: Option<string>) {
    o.Some? && o.value != ""
  }

  /** The settled result of one remote call: its value, or a rejection
      (network error or non-2xx status). */
  datatype Outcome<T> = Ok(value: T) | Failed

  /** The body of `GET /media`: `data` and `pagination.totalPages`, either
      of which may be missing. */
  datatype PageResponse = PageResponse(data: Option<seq<Media>>, totalPages: Option<int>)

  /** `response?.data || []`. */
  function Items(r: PageResponse): seq<Media> {
    r.data.GetOr([])
  }

  /** The media endpoints the list controllers call. */
  datatype MediaRequest = GetMedia(page: int, limit: int) | DeleteMedia(id: int)

  /** `list.filter((m) => m.id !== id)`, the removal both delete handlers
      apply after the server accepted the delete. */
  function WithoutId(list: seq<Media>, id: int): (r: seq<Media>)
    ensures IsSubsequence(r, list)
    ensures forall m :: m in r <==> m in list && m.id != id
    ensures forall m :: multiset(r)[m] == (if m.id != id then multiset(list)[m] else 0)
  {
    KeepMultiplicity(list, (m: Media) => m.id != id);
    Keep(list, (m: Media) => m.id != id)
  }

  /** Removing an id a second time changes nothing. */
  lemma WithoutIdIdempotent(list: seq<Media>, id: int)
    ensures WithoutId(WithoutId(list, id), id) == WithoutId(list, id)
  {
    KeepIdempotent(list, (m: Media) => m.id != id);
  }
}
