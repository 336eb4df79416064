/** The Dashboard's local search and type filter over the already-fetched
    list (`src/pages/Dashboard.tsx`, the filtering effect). */
module MediaFilter {
  import opened Types
  import opened Text
  import opened Seqs

  /** The search step's test: the lower-cased title contains the lower-cased
      (untrimmed) query, or the director is non-empty and contains it. */
  predicate SearchMatches(m: Media, query: string) {
    var q := ToLower(query);
    Contains(ToLower(m.title), q) || (m.director != "" && Contains(ToLower(m.director), q))
  }

  predicate TypeMatches(m: Media, tf: TypeFilter) {
    tf.AllTypes? || m.kind == tf.only
  }

  /** First step: applied only when the trimmed query is non-empty. */
  function SearchStep(list: seq<Media>, query: string): (r: seq<Media>)
    ensures IsSubsequence(r, list)
  {
    SubsequenceReflexive(list);
    if Trim(query) != [] then Keep(list, m => SearchMatches(m, query)) else list
  }

  /** Second step: applied only when the filter is not `"all"`. */
  function TypeStep(list: seq<Media>, tf: TypeFilter): (r: seq<Media>)
    ensures IsSubsequence(r, list)
  {
    SubsequenceReflexive(list);
    if tf.OnlyType? then Keep(list, (m: Media) => m.kind == tf.only) else list
  }

  /** The value the effect stores into `filteredMedia`. */
  function FilterMedia(list: seq<Media>, query: string, tf: TypeFilter): (r: seq<Media>)
    ensures IsSubsequence(r, list)
  {
    var searched := SearchStep(list, query);
    var r := TypeStep(searched, tf);
    SubsequenceTransitive(r, searched, list);
    r
  }

  /** A record is shown iff it passes both steps. */
  predicate Selected(m: Media, query: string, tf: TypeFilter) {
    (Blank(query) || SearchMatches(m, query)) && TypeMatches(m, tf)
  }

  /** The two-step filter is one filter by the conjunction of both tests. */
  lemma FilterIsConjunction(list: seq<Media>, query: string, tf: TypeFilter)
    ensures FilterMedia(list, query, tf) == Keep(list, m => Selected(m, query, tf))
  {
    TrimEmptyIffBlank(query);
    var s := m => Blank(query) || SearchMatches(m, query);
    var t := m => TypeMatches(m, tf);
    var st := m => Selected(m, query, tf);
    KeepKeep(list, s, t, st);
    if Blank(query) {
      KeepAll(list, s);
    } else {
      KeepSamePredicate(list, s, m => SearchMatches(m, query));
    }
    if tf.AllTypes? {
      KeepAll(Keep(list, s), t);
    } else {
      KeepSamePredicate(Keep(list, s), t, (m: Media) => m.kind == tf.only);
    }
  }

  /** A record is in the result iff it is in the list and passes both tests. */
  lemma FilterMembership(list: seq<Media>, query: string, tf: TypeFilter, m: Media)
    ensures m in FilterMedia(list, query, tf) <==> m in list && Selected(m, query, tf)
  {
    FilterIsConjunction(list, query, tf);
  }

  /** With a blank query and `"all"`, the whole list is shown as it is. */
  lemma FilterIdentity(list: seq<Media>, query: string)
    requires Blank(query)
    ensures FilterMedia(list, query, AllTypes) == list
  {
    TrimEmptyIffBlank(query);
  }

  /** Searching first and then filtering by type with an empty query is
      the Dashboard's filter. */
  lemma FilterSearchThenType(list: seq<Media>, query: string, tf: TypeFilter)
    ensures FilterMedia(list, query, tf) == FilterMedia(FilterMedia(list, query, AllTypes), "", tf)
  {
    var searched := SearchStep(list, query);
    assert FilterMedia(list, query, AllTypes) == searched;
    assert Trim("") == [];
    assert SearchStep(searched, "") == searched;
  }

  /** The two steps commute, so they compose as AND in either order. */
  lemma FilterTypeThenSearch(list: seq<Media>, query: string, tf: TypeFilter)
    ensures FilterMedia(list, query, tf) == FilterMedia(FilterMedia(list, "", tf), query, AllTypes)
  {
    assert Trim("") == [];
    assert SearchStep(list, "") == list;
    var typed := TypeStep(list, tf);
    assert FilterMedia(list, "", tf) == typed;
    assert FilterMedia(typed, query, AllTypes) == SearchStep(typed, query);
    if tf.OnlyType? && Trim(query) != [] {
      KeepCommutes(list, m => SearchMatches(m, query), (m: Media) => m.kind == tf.only);
    }
  }

  /** Re-running the filter on its own output changes nothing. */
  lemma FilterIdempotent(list: seq<Media>, query: string, tf: TypeFilter)
    ensures FilterMedia(FilterMedia(list, query, tf), query, tf) == FilterMedia(list, query, tf)
  {
    var sel := m => Selected(m, query, tf);
    FilterIsConjunction(list, query, tf);
    FilterIsConjunction(Keep(list, sel), query, tf);
    KeepIdempotent(list, sel);
  }

  /** Filtering a list with a page appended is filtering each part. */
  lemma FilterAppend(a: seq<Media>, b: seq<Media>, query: string, tf: TypeFilter)
    ensures FilterMedia(a + b, query, tf) == FilterMedia(a, query, tf) + FilterMedia(b, query, tf)
  {
    var sel := m => Selected(m, query, tf);
    FilterIsConjunction(a + b, query, tf);
    FilterIsConjunction(a, query, tf);
    FilterIsConjunction(b, query, tf);
    KeepConcat(a, b, sel);
  }

  /** The search ignores letter case in the query. */
  lemma SearchIgnoresQueryCase(list: seq<Media>, q1: string, q2: string, tf: TypeFilter)
    requires ToLower(q1) == ToLower(q2)
    ensures FilterMedia(list, q1, tf) == FilterMedia(list, q2, tf)
  {
    LowerKeepsBlank(q1);
    LowerKeepsBlank(q2);
    FilterIsConjunction(list, q1, tf);
    FilterIsConjunction(list, q2, tf);
    KeepSamePredicate(list, m => Selected(m, q1, tf), m => Selected(m, q2, tf));
  }

  /** A query found verbatim in a title always finds that record. */
  lemma TitleOccurrenceMatches(m: Media, query: string)
    requires Contains(m.title, query)
    ensures SearchMatches(m, query)
  {
    ContainsLower(m.title, query);
  }

  /** The untrimmed query is what is matched: a query with a space never
      matches a record whose title and director have none. */
  lemma UntrimmedQueryMatters(m: Media, query: string)
    requires ' ' in query
    requires ' ' !in m.title && ' ' !in m.director
    ensures !SearchMatches(m, query)
  {
    var q := ToLower(query);
    var k :| 0 <= k < |query| && query[k] == ' ';
    assert q[k] == ' ';
    if Contains(ToLower(m.title), q) {
      ContainsChars(ToLower(m.title), q, ' ');
    }
    if m.director != "" && Contains(ToLower(m.director), q) {
      ContainsChars(ToLower(m.director), q, ' ');
    }
  }

  /** A character of the query absent from title and director rules the
      record out. */
  lemma MissingCharExcludes(m: Media, query: string, c: char)
    requires c in ToLower(query)
    requires c !in ToLower(m.title) && c !in ToLower(m.director)
    ensures !SearchMatches(m, query)
  {
    var q := ToLower(query);
    if Contains(ToLower(m.title), q) {
      ContainsChars(ToLower(m.title), q, c);
    }
    if m.director != "" && Contains(ToLower(m.director), q) {
      ContainsChars(ToLower(m.director), q, c);
    }
  }

  function SampleMedia(id: int, title: string, kind: MediaType, director: string): Media {
    Media(id, title, kind, director, None, None, None, None, None, None, 1, "")
  }

  lemma InceptionMatches()
    ensures SearchMatches(SampleMedia(1, "Inception", Movie, "Nolan"), "incep")
  {
    assert ToLower("Inception") == "inception";
    assert ToLower("incep") == "incep";
    assert StartsWith("inception", "incep");
  }

  lemma BreakingBadMisses()
    ensures !SearchMatches(SampleMedia(2, "Breaking Bad", TvShow, "Gilligan"), "incep")
  {
    assert ToLower("incep")[4] == 'p';
    assert ToLower("Breaking Bad") == "breaking bad";
    assert ToLower("Gilligan") == "gilligan";
    MissingCharExcludes(SampleMedia(2, "Breaking Bad", TvShow, "Gilligan"), "incep", 'p');
  }

  /** A search for "incep" over Inception and Breaking Bad keeps only
      Inception. */
  lemma SearchScenario()
    ensures var inception := SampleMedia(1, "Inception", Movie, "Nolan");
            var breakingBad := SampleMedia(2, "Breaking Bad", TvShow, "Gilligan");
            FilterMedia([inception, breakingBad], "incep", AllTypes) == [inception]
  {
    var inception := SampleMedia(1, "Inception", Movie, "Nolan");
    var breakingBad := SampleMedia(2, "Breaking Bad", TvShow, "Gilligan");
    InceptionMatches();
    BreakingBadMisses();
    assert !IsWhitespace("incep"[0]);
    var list := [inception, breakingBad];
    var p := m => SearchMatches(m, "incep");
    assert list[1..] == [breakingBad];
    assert Keep(list, p) == [inception];
  }

  /** Filtering by "TV Show" with an empty query keeps only Breaking Bad. */
  lemma TypeScenario()
    ensures var inception := SampleMedia(1, "Inception", Movie, "Nolan");
            var breakingBad := SampleMedia(2, "Breaking Bad", TvShow, "Gilligan");
            FilterMedia([inception, breakingBad], "", OnlyType(TvShow)) == [breakingBad]
  {
    var inception := SampleMedia(1, "Inception", Movie, "Nolan");
    var breakingBad := SampleMedia(2, "Breaking Bad", TvShow, "Gilligan");
    var list := [inception, breakingBad];
    assert Trim("") == [];
    assert list[1..] == [breakingBad];
  }
}
