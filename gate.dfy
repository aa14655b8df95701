/** The checks at the top of the /download handler (api/index.js:45-51):
    the `url` query parameter first, then `song_id`. The URL validator of
    the media library is an opaque predicate passed in. */
module RequestGate {
  import opened Options

  /** The two query parameters the handler reads. */
  datatype Query = Query(url: Option<string>, songId: Option<string>)

  const InvalidUrlMessage := "Invalid or missing YouTube URL"
  const MissingSongIdMessage := "Missing song_id parameter"

  datatype GateResult =
    | Rejected(status: nat, error: string)
    | Accepted(url: string, songId: string)

  /** `videoURL && ytdl.validateURL(videoURL)`: the validator is consulted
      only for a present, non-empty URL. */
  predicate UrlAccepted(url: Option<string>, validateUrl: string -> bool) {
    Truthy(url) && validateUrl(url.value)
  }

  function Gate(q: Query, validateUrl: string -> bool): (r: GateResult)
    ensures !UrlAccepted(q.url, validateUrl) <==> r == Rejected(400, InvalidUrlMessage)
    ensures UrlAccepted(q.url, validateUrl) && !Truthy(q.songId) <==> r == Rejected(400, MissingSongIdMessage)
    ensures r.Accepted? <==> UrlAccepted(q.url, validateUrl) && Truthy(q.songId)
    ensures r.Accepted? ==> r.url == q.url.value && r.songId == q.songId.value
  {
    if !UrlAccepted(q.url, validateUrl) then Rejected(400, InvalidUrlMessage)
    else if !Truthy(q.songId) then Rejected(400, MissingSongIdMessage)
    else Accepted(q.url.value, q.songId.value)
  }

  /** The URL check comes first: a request with a bad URL is rejected for its
      URL whatever its `song_id`, so the `song_id` check is never reached. */
  lemma UrlCheckFirst(url: Option<string>, s1: Option<string>, s2: Option<string>, validateUrl: string -> bool)
    requires !UrlAccepted(url, validateUrl)
    ensures Gate(Query(url, s1), validateUrl) == Gate(Query(url, s2), validateUrl)
    ensures Gate(Query(url, s1), validateUrl).error == InvalidUrlMessage
  {
  }

  /** A missing or empty URL is rejected without consulting the validator:
      any two validators give the same outcome. */
  lemma ValidatorNotConsultedWithoutUrl(q: Query, v1: string -> bool, v2: string -> bool)
    requires !Truthy(q.url)
    ensures Gate(q, v1) == Gate(q, v2) == Rejected(400, InvalidUrlMessage)
  {
  }
}
