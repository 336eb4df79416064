/** The image a media card shows (`src/components/MediaCard.tsx`,
    `displayImage`). */
module MediaCard {
  import opened Types
  import opened Text
  import Dashboard

  /** `p?.startsWith('http')`, false for an absent value. */
  predicate IsHttp(p: Option<string>) {
    p.Some? && StartsWith(p.value, "http")
  }

  /** `poster || imageUrl`, read when one of them is truthy. */
  function Chosen(poster: Option<string>, imageUrl: Option<string>): string
    requires Truthy(poster) || Truthy(imageUrl)
  {
    if Truthy(poster) then poster.value else imageUrl.value
  }

  /** `displayImage`: null when neither path is truthy; otherwise the
      chosen path, left as is when EITHER path is absolute and prefixed
      with the API URL when neither is. */
  function DisplayImage(poster: Option<string>, imageUrl: Option<string>, apiUrl: string): (r: Option<string>)
    ensures r.None? <==> !Truthy(poster) && !Truthy(imageUrl)
    ensures r.Some? && Truthy(poster) ==> r.value == poster.value || r.value == apiUrl + poster.value
    ensures r.Some? && !Truthy(poster) ==> r.value == imageUrl.value || r.value == apiUrl + imageUrl.value
    ensures r.Some? && (IsHttp(poster) || IsHttp(imageUrl)) ==> r.value == Chosen(poster, imageUrl)
    ensures r.Some? && !IsHttp(poster) && !IsHttp(imageUrl) ==> r.value == apiUrl + Chosen(poster, imageUrl)
  {
    if Truthy(poster) || Truthy(imageUrl) then
      var path := Chosen(poster, imageUrl);
      if IsHttp(poster) || IsHttp(imageUrl) then Some(path) else Some(apiUrl + path)
    else None
  }

  /** An absolute `imageUrl` suppresses the prefix even for a relative
      poster, which is then shown relative. */
  lemma RelativePosterShownUnprefixed(poster: string, url: string, apiUrl: string)
    requires poster != "" && !StartsWith(poster, "http")
    requires StartsWith(url, "http")
    ensures DisplayImage(Some(poster), Some(url), apiUrl) == Some(poster)
  {
  }

  /** Both list views pass the record's `imageUrl` as `poster` too. For a
      record the Dashboard normalised, the card shows exactly that URL. */
  lemma NormalisedRecordShownAsIs(m: Types.Media, apiUrl: string)
    ensures var n := Dashboard.NormaliseImage(m);
            DisplayImage(n.imageUrl, n.imageUrl, apiUrl) == n.imageUrl
  {
  }
}
