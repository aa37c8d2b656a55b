/**
 * `ProfileViewModel`: the top-items and profile requests and how their
 * responses update the two favourites lists, `user` and `errorMessage`.
 */
module Profile {
  import opened Wrappers
  import opened Records
  import opened Services

  const TopItemsBaseUrl: string := "https://api.spotify.com/v1/me/top/"
  const ProfileUrl: string := "https://api.spotify.com/v1/me"
  const TracksEndpoint: string := "tracks"
  const ArtistsEndpoint: string := "artists"

  const NetworkError: string := "Network error."
  const NoData: string := "No data received."
  const DecodingError: string := "Decoding error."
  const MissingToken: string := "Invalid URL or missing token"

  /** What a top-items body decodes to, as `UserTopTracks` and as `UserTopArtists`. */
  datatype TopItems = TopItems(asTracks: Option<seq<Track>>, asArtists: Option<seq<Artist>>)

  /** The four published properties. */
  datatype ProfileState = ProfileState(
    favoriteTracks: seq<Track>,
    favoriteArtists: seq<Artist>,
    user: Option<User>,
    errorMessage: Option<string>)

  /** An authorised request, when there is a token. */
  function Authorized(url: string, token: Option<string>): (r: Option<Request>)
    ensures r.Some? <==> token.Some?
    ensures r.Some? ==> r.value.url == url && r.value.authorization == Bearer(token.value)
  {
    match token
    case Some(t) => Some(Request(url, Bearer(t)))
    case None => None
  }

  /** Empties the list the endpoint names; any other endpoint names none. */
  function ClearList(s: ProfileState, endpoint: string): (t: ProfileState)
    ensures t.user == s.user && t.errorMessage == s.errorMessage
    ensures t.favoriteTracks == if endpoint == TracksEndpoint then [] else s.favoriteTracks
    ensures t.favoriteArtists == if endpoint == ArtistsEndpoint then [] else s.favoriteArtists
  {
    if endpoint == TracksEndpoint then s.(favoriteTracks := [])
    else if endpoint == ArtistsEndpoint then s.(favoriteArtists := [])
    else s
  }

  /**
   * The first failure of a profile API response before decoding: a transport
   * error, then a missing body. The status code is never looked at.
   */
  function FetchFailure<D>(response: Response<D>): (m: Option<string>)
    ensures m.None? <==> !response.transportError && response.data.Some?
    ensures response.transportError ==> m == Some(NetworkError)
    ensures !response.transportError && response.data.None? ==> m == Some(NoData)
  {
    if response.transportError then Some(NetworkError)
    else if response.data.None? then Some(NoData)
    else None
  }

  /**
   * The state after a top-items response for `endpoint`. Only the endpoint's
   * own list can change, `user` never does, and a new error message is one of
   * the three fetch failures. Any other endpoint changes no list.
   */
  function FavoritesCompleted(s: ProfileState, endpoint: string, response: Response<TopItems>): (t: ProfileState)
    ensures t.user == s.user
    ensures endpoint != TracksEndpoint ==> t.favoriteTracks == s.favoriteTracks
    ensures endpoint != ArtistsEndpoint ==> t.favoriteArtists == s.favoriteArtists
    ensures t.errorMessage == s.errorMessage || t.errorMessage in {Some(NetworkError), Some(NoData), Some(DecodingError)}
    ensures FetchFailure(response).Some? ==> t == ClearList(s, endpoint).(errorMessage := FetchFailure(response))
    ensures FetchFailure(response).None?
            && ((endpoint == TracksEndpoint && response.data.value.asTracks.None?)
                || (endpoint == ArtistsEndpoint && response.data.value.asArtists.None?))
            ==> t == ClearList(s, endpoint).(errorMessage := Some(DecodingError))
    ensures FetchFailure(response).None? && endpoint != TracksEndpoint && endpoint != ArtistsEndpoint ==> t == s
  {
    match FetchFailure(response)
    case Some(message) => ClearList(s, endpoint).(errorMessage := Some(message))
    case None =>
      var body := response.data.value;
      if endpoint == TracksEndpoint then
        match body.asTracks
        case Some(items) => s.(favoriteTracks := items)
        case None => ClearList(s, endpoint).(errorMessage := Some(DecodingError))
      else if endpoint == ArtistsEndpoint then
        match body.asArtists
        case Some(items) => s.(favoriteArtists := items)
        case None => ClearList(s, endpoint).(errorMessage := Some(DecodingError))
      else s
  }

  /**
   * A body that decodes for the endpoint replaces that endpoint's list with
   * the decoded items and leaves the error message as it was.
   */
  lemma FavoritesSuccessReplacesList(s: ProfileState, endpoint: string, response: Response<TopItems>)
    requires !response.transportError && response.data.Some?
    ensures endpoint == TracksEndpoint && response.data.value.asTracks.Some? ==>
      FavoritesCompleted(s, endpoint, response) == s.(favoriteTracks := response.data.value.asTracks.value)
    ensures endpoint == ArtistsEndpoint && response.data.value.asArtists.Some? ==>
      FavoritesCompleted(s, endpoint, response) == s.(favoriteArtists := response.data.value.asArtists.value)
  {
  }

  /**
   * The state after the profile response: the decoded user on success, the
   * failure's message otherwise; the favourites are never touched, and a
   * failure (a decoding one included) leaves `user` as it was.
   */
  function ProfileCompleted(s: ProfileState, response: Response<Option<User>>): (t: ProfileState)
    ensures t.favoriteTracks == s.favoriteTracks && t.favoriteArtists == s.favoriteArtists
    ensures t.user != s.user ==> FetchFailure(response).None? && response.data.value.Some? && t.user == response.data.value
    ensures t.user == s.user || t.errorMessage == s.errorMessage
    ensures t.errorMessage != s.errorMessage ==> t.errorMessage in {Some(NetworkError), Some(NoData), Some(DecodingError)}
    ensures FetchFailure(response).Some? ==> t == s.(errorMessage := FetchFailure(response))
    ensures FetchFailure(response).None? && response.data.value.None? ==> t == s.(errorMessage := Some(DecodingError))
    ensures FetchFailure(response).None? && response.data.value.Some? ==> t == s.(user := response.data.value)
  {
    match FetchFailure(response)
    case Some(message) => s.(errorMessage := Some(message))
    case None =>
      match response.data.value
      case Some(decoded) => s.(user := Some(decoded))
      case None => s.(errorMessage := Some(DecodingError))
  }

  class ProfileViewModel {
    var favoriteTracks: seq<Track>
    var favoriteArtists: seq<Artist>
    var user: Option<User>
    var errorMessage: Option<string>

    function State(): ProfileState
      reads this
    {
      ProfileState(favoriteTracks, favoriteArtists, user, errorMessage)
    }

    constructor ()
      ensures State() == ProfileState([], [], None, None)
    {
      favoriteTracks := [];
      favoriteArtists := [];
      user := None;
      errorMessage := None;
    }

    /**
     * `fetchUserFavoriteItems(endpoint:)` up to `resume()`: without a token or
     * a parsable URL it empties the endpoint's list and sets no message;
     * otherwise it sends the top-items URL with the bearer token.
     */
    method FetchUserFavoriteItems(endpoint: string, keychain: Keychain, isValidUrl: string -> bool)
      returns (request: Option<Request>)
      modifies this
      ensures request == if isValidUrl(TopItemsBaseUrl + endpoint)
                         then Authorized(TopItemsBaseUrl + endpoint, Lookup(keychain.items, AccessTokenKey))
                         else None
      ensures State() == if request.None? then ClearList(old(State()), endpoint) else old(State())
    {
      var urlString := TopItemsBaseUrl + endpoint;
      var token := keychain.Read(AccessTokenKey);
      if !isValidUrl(urlString) || token.None? {
        if endpoint == TracksEndpoint {
          favoriteTracks := [];
        } else if endpoint == ArtistsEndpoint {
          favoriteArtists := [];
        }
        return None;
      }
      request := Some(Request(urlString, "Bearer " + token.value));
    }

    /** The top-items data task's completion. */
    method FinishFavoriteItems(endpoint: string, response: Response<TopItems>)
      modifies this
      ensures State() == FavoritesCompleted(old(State()), endpoint, response)
    {
      if response.transportError {
        if endpoint == TracksEndpoint {
          favoriteTracks := [];
        } else if endpoint == ArtistsEndpoint {
          favoriteArtists := [];
        }
        errorMessage := Some(NetworkError);
        return;
      }
      if response.data.None? {
        if endpoint == TracksEndpoint {
          favoriteTracks := [];
        } else if endpoint == ArtistsEndpoint {
          favoriteArtists := [];
        }
        errorMessage := Some(NoData);
        return;
      }
      var body := response.data.value;
      if endpoint == TracksEndpoint {
        match body.asTracks
        case Some(items) =>
          favoriteTracks := items;
        case None =>
          favoriteTracks := [];
          errorMessage := Some(DecodingError);
      } else if endpoint == ArtistsEndpoint {
        match body.asArtists
        case Some(items) =>
          favoriteArtists := items;
        case None =>
          favoriteArtists := [];
          errorMessage := Some(DecodingError);
      }
    }

    /**
     * `fetchUserProfile()` up to `resume()`: without a token it sets the
     * missing-token message and leaves `user` alone.
     */
    method FetchUserProfile(keychain: Keychain) returns (request: Option<Request>)
      modifies this
      ensures request == Authorized(ProfileUrl, Lookup(keychain.items, AccessTokenKey))
      ensures State() == if request.None? then old(State()).(errorMessage := Some(MissingToken)) else old(State())
    {
      var token := keychain.Read(AccessTokenKey);
      if token.None? {
        errorMessage := Some(MissingToken);
        return None;
      }
      request := Some(Request(ProfileUrl, "Bearer " + token.value));
    }

    /** The profile data task's completion. */
    method FinishUserProfile(response: Response<Option<User>>)
      modifies this
      ensures State() == ProfileCompleted(old(State()), response)
    {
      if response.transportError {
        errorMessage := Some(NetworkError);
        return;
      }
      if response.data.None? {
        errorMessage := Some(NoData);
        return;
      }
      match response.data.value
      case Some(decoded) =>
        user := Some(decoded);
      case None =>
        errorMessage := Some(DecodingError);
    }
  }
}
