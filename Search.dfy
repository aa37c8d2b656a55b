/**
 * `SearchViewModel`: the search-type segment, the query guard, the request it
 * builds and how the response becomes `results` and `errorMessage`.
 */
module Search {
  import opened Wrappers
  import Records
  import opened Services

  /** The segmented control's choice; its raw values are 0, 1 and 2. */
  datatype SearchType = Band | Song | Album

  function RawValue(t: SearchType): (raw: int)
    ensures 0 <= raw <= 2
    ensures (t == Band <==> raw == 0) && (t == Song <==> raw == 1) && (t == SearchType.Album <==> raw == 2)
  {
    match t
    case Band => 0
    case Song => 1
    case Album => 2
  }

  /** `SearchType(rawValue:)`: defined on 0, 1 and 2 only, and the inverse of `RawValue`. */
  function FromRawValue(raw: int): (t: Option<SearchType>)
    ensures t.Some? <==> 0 <= raw <= 2
    ensures t.Some? ==> RawValue(t.value) == raw
  {
    if raw == 0 then Some(Band)
    else if raw == 1 then Some(Song)
    else if raw == 2 then Some(Album)
    else None
  }

  /** `spotifyType`: the API's name for each search type. */
  function SpotifyType(t: SearchType): (s: string)
    ensures s == "artist" || s == "track" || s == "album"
    ensures (t == Band <==> s == "artist") && (t == Song <==> s == "track") && (t == SearchType.Album <==> s == "album")
  {
    match t
    case Band => "artist"
    case Song => "track"
    case Album => "album"
  }

  /**
   * The segment table: raw values 0, 1 and 2 are band, song and album, which
   * the API calls "artist", "track" and "album"; raw value 1 is `.song`, the
   * initial search type.
   */
  lemma SearchTypeTable()
    ensures FromRawValue(0) == Some(Band) && SpotifyType(FromRawValue(0).value) == "artist"
    ensures FromRawValue(1) == Some(Song) && SpotifyType(FromRawValue(1).value) == "track"
    ensures FromRawValue(2) == Some(SearchType.Album) && SpotifyType(FromRawValue(2).value) == "album"
  {
  }

  /** Distinct search types ask the API for distinct types. */
  lemma SpotifyTypeIsInjective(a: SearchType, b: SearchType)
    ensures SpotifyType(a) == SpotifyType(b) ==> a == b
  {
  }

  /** A row of the results table. */
  datatype SearchResult = TrackResult(track: Records.Track) | AlbumResult(album: Records.Album) | ArtistResult(artist: Records.Artist)

  const SearchBaseUrl: string := "https://api.spotify.com/v1/search"
  /** Queries shorter than this send no request. */
  const MinimumQueryLength: nat := 3
  const TypeParameter: string := "&type=track%2C"

  const NetworkError: string := "Network error."
  const InvalidToken: string := "Token is invalid or expired."
  const NoData: string := "No data received."
  const DecodingError: string := "Decoding error."

  /**
   * The search URL: the endpoint, the query as the encoder gives it (empty when
   * it gives nothing), and a type list that always holds "track" followed by
   * the chosen type.
   */
  function SearchUrl(query: string, t: SearchType, percentEncode: string -> Option<string>): (url: string)
    ensures var head := SearchBaseUrl + "?q=" + percentEncode(query).GetOr("");
      |url| == |head| + |TypeParameter| + |SpotifyType(t)|
      && url[..|head|] == head
      && url[|head|..] == TypeParameter + SpotifyType(t)
  {
    SearchBaseUrl + "?q=" + percentEncode(query).GetOr("") + TypeParameter + SpotifyType(t)
  }

  /** For one query, the URL tells which search type was selected. */
  lemma SearchUrlDeterminesType(query: string, a: SearchType, b: SearchType, percentEncode: string -> Option<string>)
    ensures SearchUrl(query, a, percentEncode) == SearchUrl(query, b, percentEncode) ==> a == b
  {
    if SearchUrl(query, a, percentEncode) == SearchUrl(query, b, percentEncode) {
      assert TypeParameter + SpotifyType(a) == TypeParameter + SpotifyType(b);
      assert SpotifyType(a) == (TypeParameter + SpotifyType(a))[|TypeParameter|..];
      assert SpotifyType(b) == (TypeParameter + SpotifyType(b))[|TypeParameter|..];
      SpotifyTypeIsInjective(a, b);
    }
  }

  /**
   * The request `search(query:)` sends, if any: none for a query of fewer than
   * three characters or a URL that does not parse; otherwise the search URL
   * with the bearer token.
   */
  function SearchRequest(token: string, query: string, t: SearchType,
                         percentEncode: string -> Option<string>, isValidUrl: string -> bool): (r: Option<Request>)
    ensures r.Some? <==> |query| >= MinimumQueryLength && isValidUrl(SearchUrl(query, t, percentEncode))
    ensures r.Some? ==> r.value.url == SearchUrl(query, t, percentEncode) && r.value.authorization == Bearer(token)
  {
    if |query| < MinimumQueryLength then None
    else
      var url := SearchUrl(query, t, percentEncode);
      if !isValidUrl(url) then None else Some(Request(url, Bearer(token)))
  }

  /**
   * How a search response is judged: the tracks it decodes to, or the message
   * of the first failure in the order transport error, status 401, no body,
   * body that does not decode. Any other status is not inspected.
   */
  function ClassifySearch(response: Response<Option<seq<Records.Track>>>): (o: Result<seq<Records.Track>, string>)
    ensures o.Success? <==> !response.transportError && response.statusCode != Some(401)
                            && response.data.Some? && response.data.value.Some?
    ensures o.Success? ==> o.value == response.data.value.value
    ensures o.Failure? ==> o.error in {NetworkError, InvalidToken, NoData, DecodingError}
    ensures response.transportError ==> o == Failure(NetworkError)
  {
    if response.transportError then Failure(NetworkError)
    else if response.statusCode == Some(401) then Failure(InvalidToken)
    else match response.data
      case None => Failure(NoData)
      case Some(decoded) =>
        match decoded
        case None => Failure(DecodingError)
        case Some(tracks) => Success(tracks)
  }

  /** The failure messages come in a fixed order of precedence. */
  lemma SearchFailurePrecedence(response: Response<Option<seq<Records.Track>>>)
    ensures !response.transportError && response.statusCode == Some(401) ==> ClassifySearch(response) == Failure(InvalidToken)
    ensures !response.transportError && response.statusCode != Some(401) && response.data.None?
            ==> ClassifySearch(response) == Failure(NoData)
    ensures !response.transportError && response.statusCode != Some(401) && response.data == Some(None)
            ==> ClassifySearch(response) == Failure(DecodingError)
  {
  }

  /** `items.map { .track($0) }`: each decoded track, in order, as a track row. */
  function WrapTracks(tracks: seq<Records.Track>): (rows: seq<SearchResult>)
    ensures |rows| == |tracks|
    ensures forall i :: 0 <= i < |tracks| ==> rows[i] == TrackResult(tracks[i])
  {
    if tracks == [] then [] else [TrackResult(tracks[0])] + WrapTracks(tracks[1..])
  }

  /** The tracks behind a list of rows; rows that are not tracks contribute none. */
  function TracksOf(rows: seq<SearchResult>): seq<Records.Track>
  {
    if rows == [] then []
    else (if rows[0].TrackResult? then [rows[0].track] else []) + TracksOf(rows[1..])
  }

  /** Wrapping loses nothing: the table gets back exactly the decoded tracks. */
  lemma {:induction false} WrapTracksRoundTrip(tracks: seq<Records.Track>)
    ensures TracksOf(WrapTracks(tracks)) == tracks
  {
    if tracks != [] {
      WrapTracksRoundTrip(tracks[1..]);
      assert WrapTracks(tracks)[1..] == WrapTracks(tracks[1..]);
    }
  }

  class SearchViewModel {
    const token: string
    var searchType: SearchType
    var results: seq<SearchResult>
    var errorMessage: Option<string>

    constructor (token: string)
      ensures this.token == token
      ensures searchType == Song && results == [] && errorMessage == None
    {
      this.token := token;
      searchType := Song;
      results := [];
      errorMessage := None;
    }

    /** `updateSearchType(_:query:)`: sets the type, then searches exactly as `search(query:)` does. */
    method UpdateSearchType(t: SearchType, query: string,
                            percentEncode: string -> Option<string>, isValidUrl: string -> bool)
      returns (request: Option<Request>)
      modifies this
      ensures searchType == t
      ensures request == SearchRequest(token, query, t, percentEncode, isValidUrl)
      ensures results == if request.None? then [] else old(results)
      ensures errorMessage == old(errorMessage)
    {
      searchType := t;
      request := Search(query, percentEncode, isValidUrl);
    }

    /**
     * `search(query:)` up to `resume()`: clears the results when no request is
     * sent, and otherwise returns the request, leaving the state as it was.
     */
    method Search(query: string, percentEncode: string -> Option<string>, isValidUrl: string -> bool)
      returns (request: Option<Request>)
      modifies this
      ensures request == SearchRequest(token, query, searchType, percentEncode, isValidUrl)
      ensures results == if request.None? then [] else old(results)
      ensures searchType == old(searchType) && errorMessage == old(errorMessage)
    {
      if |query| < MinimumQueryLength {
        results := [];
        return None;
      }
      var typeString := SpotifyType(searchType);
      var urlString := SearchBaseUrl + "?q=" + percentEncode(query).GetOr("") + TypeParameter + typeString;
      if !isValidUrl(urlString) {
        results := [];
        return None;
      }
      request := Some(Request(urlString, "Bearer " + token));
    }

    /**
     * The data task's completion: on success the decoded tracks become the
     * results and the previous error message stays; on failure the results
     * are emptied and the failure's message is set.
     */
    method FinishSearch(response: Response<Option<seq<Records.Track>>>)
      modifies this
      ensures match ClassifySearch(response)
        case Success(tracks) => results == WrapTracks(tracks) && errorMessage == old(errorMessage)
        case Failure(message) => results == [] && errorMessage == Some(message)
      ensures searchType == old(searchType)
    {
      if response.transportError {
        results := [];
        errorMessage := Some(NetworkError);
        return;
      }
      if response.statusCode == Some(401) {
        results := [];
        errorMessage := Some(InvalidToken);
        return;
      }
      if response.data.None? {
        results := [];
        errorMessage := Some(NoData);
        return;
      }
      match response.data.value
      case Some(tracks) =>
        results := WrapTracks(tracks);
      case None =>
        results := [];
        errorMessage := Some(DecodingError);
    }
  }
}
