# FindMySong session model

A Dafny model of the login and session logic of FindMySong, an iOS client for
the Spotify Web API, and of the small request-and-response state updates of
its search and profile screens:

- `Login` — `LoginViewModel`: the authorization-code login that writes both
  tokens to the keychain, the biometric-gated silent refresh that keeps the
  stored refresh token when the provider does not rotate it, the check of the
  stored biometric preference, and the storing of the user's opt-in.
- `Settings` — `SettingsViewModel`: the two-row settings list, its row
  action, and logout, which deletes both tokens and removes every user-defaults
  key in a loop.
- `Navigation` — the navigation part of the login `ViewController`: the
  decision taken when the view model publishes `shouldNavigateToSearch` (no
  access token: stay; a preference that does not read `true`: prompt; `true`:
  enter the tab bar), the prompt's two answers, and the code hand-off from the
  web login.
- `Search` — `SearchViewModel`: the search-type mapping, the three-character
  query guard, the request URL and the response classification.
- `Profile` — `ProfileViewModel`: the top-items and profile requests and how
  each response updates the favourites lists, `user` and `errorMessage`.
- `Services` — the collaborators the view models call: the keychain as a
  string map whose writes and deletes may fail, user defaults as a map in which
  a missing boolean reads as `false`, and the shape of an HTTP response.
- `Records`, `Wrappers` — the Codable records (kept as identifiers) and
  Option/Result.

Every asynchronous `Task` or data task is two methods: a start method that
returns the call the task makes (`None` when it makes none), and a completion
method that is given the call's outcome. What the platform reports (a keychain
write landing or not, a biometric result, a transport error, a status code, a
body that decodes or not) is an explicit parameter. The keychain and user
defaults are process-wide singletons in the app; here they are objects passed
to the methods that use them.

The model follows the code. The code has no session state machine, saves the
token pair with two independent writes and no rollback, does not prevent a
second login or refresh while one is running, never deletes credentials when a
refresh fails, and shows the same biometric error for every non-success
biometric result (including an unavailable sensor). A stored `false`
preference reads the same as no preference, so declining biometry prompts
again on the next navigation.

## Model

| member | source | states |
|---|---|---|
| `Services.Lookup` | FindMySong/ViewModels/LoginViewModel.swift:47 | a keychain read yields a value exactly when the key is stored, and then the stored value |
| `Services.Stored` | FindMySong/ViewModels/LoginViewModel.swift:28 | a create that lands makes the key read as the new value; a failed one leaves the key as it was; other keys never change |
| `Services.BoolFor` | FindMySong/ViewModels/LoginViewModel.swift:76 | a defaults boolean reads `true` only when `true` is stored; absent and `false` read alike |
| `Services.Bearer` | FindMySong/ViewModels/SearchViewModel.swift:59 | the Authorization header starts with "Bearer " and continues with the token unchanged |
| `Services.Keychain.Create` | FindMySong/ViewModels/LoginViewModel.swift:28-29 | reports the platform's result and updates the store as `Stored` says |
| `Services.Keychain.Delete` | FindMySong/ViewModels/SettingsViewModel.swift:36-37 | reports the platform's result; a delete that lands removes the key, a failed one changes nothing |
| `Services.UserDefaults.SetBool` | FindMySong/ViewModels/LoginViewModel.swift:91 | the key holds exactly the boolean given, every other entry unchanged |
| `Services.UserDefaults.RemoveObject` | FindMySong/ViewModels/SettingsViewModel.swift:40 | the key is gone, every other entry unchanged |
| `Login.PairAfterRefresh` | FindMySong/ViewModels/LoginViewModel.swift:54-55 | a refresh yields a pair to store exactly when it succeeds: the new access token, and the rotated refresh token or else the one sent |
| `Login.SavePair` | FindMySong/ViewModels/LoginViewModel.swift:28-29 | each token reads as the new value if its own write landed and as before otherwise; no other key changes |
| `Login.PairSaveIsNotAtomic` | FindMySong/ViewModels/LoginViewModel.swift:28-34 | a failed refresh-token write after a landed access-token write leaves the new access token beside the old refresh token |
| `Login.UnrotatedRefreshTokenIsKept` | FindMySong/ViewModels/LoginViewModel.swift:54-58 | after a refresh without a new refresh token the stored refresh token is the previous one, whichever writes land |
| `Login.LoginViewModel.constructor` | FindMySong/ViewModels/LoginViewModel.swift:12-16 | not loading, no errors, no navigation, no prompt |
| `Login.LoginViewModel.LoginWithSpotify` | FindMySong/ViewModels/LoginViewModel.swift:18-23 | an empty code sets the retry error and starts nothing (loading untouched); any other code turns loading on and is sent to the exchange unchanged |
| `Login.LoginViewModel.FinishLoginWithSpotify` | FindMySong/ViewModels/LoginViewModel.swift:24-43 | after a successful exchange both writes are made; navigation is set exactly when both land, else the retry error; a failed exchange leaves the keychain alone and sets the error; loading is always turned off |
| `Login.LoginViewModel.LoginWithBiometry` | FindMySong/ViewModels/LoginViewModel.swift:46-51 | without a stored refresh token: biometric error, loading untouched, no refresh; otherwise loading on and the stored token is sent |
| `Login.LoginViewModel.FinishLoginWithBiometry` | FindMySong/ViewModels/LoginViewModel.swift:52-72 | the pair of `PairAfterRefresh` is written key by key; navigation exactly when both land, else the biometric error; loading always off |
| `Login.LoginViewModel.CheckBiometryPreference` | FindMySong/ViewModels/LoginViewModel.swift:75-78 | the biometric challenge is started exactly when the stored preference is `true` |
| `Login.LoginViewModel.FinishBiometryChallenge` | FindMySong/ViewModels/LoginViewModel.swift:78-86 | success proceeds as `LoginWithBiometry`; any other outcome sets the biometric error and sends no refresh |
| `Login.LoginViewModel.HandleBiometricPrompt` | FindMySong/ViewModels/LoginViewModel.swift:90-92 | stores exactly the answer under the preference key; the view model and every other entry unchanged |
| `Settings.SettingsList` | FindMySong/ViewModels/SettingsViewModel.swift:20-25 | two rows in order: "Version" with the bundle version or "?", then "Privacy Policy" without detail; no row has an action |
| `Settings.OnlySecondRowIsPrivacyPolicy` | FindMySong/ViewModels/SettingsViewModel.swift:22-30 | the row at an index is titled "Privacy Policy" exactly when the index is 1 |
| `Settings.AfterLogout` | FindMySong/ViewModels/SettingsViewModel.swift:35-37 | each token is absent after logout unless its delete failed; an absent token stays absent; other keys untouched |
| `Settings.LogoutIsIdempotent` | FindMySong/ViewModels/SettingsViewModel.swift:35-42 | on a keychain without tokens logout changes nothing, whatever the deletes report |
| `Settings.SettingsViewModel.constructor` | FindMySong/ViewModels/SettingsViewModel.swift:17-26 | the settings are the two rows of `SettingsList`, the policy URL the fixed one |
| `Settings.SettingsViewModel.PerformAction` | FindMySong/ViewModels/SettingsViewModel.swift:28-33 | for an index inside the list, the privacy URL is opened exactly for the "Privacy Policy" row; the settings cannot change |
| `Settings.SettingsViewModel.Logout` | FindMySong/ViewModels/SettingsViewModel.swift:35-42 | the keychain is as `AfterLogout` says and the user defaults are empty, the biometric preference included |
| `Navigation.NavigationDecision` | FindMySong/Controllers/ViewController.swift:222-235 | stay exactly when no access token is stored; prompt exactly when one is and the preference does not read `true`; otherwise the tab bar for the stored token |
| `Navigation.Navigate` | FindMySong/Controllers/ViewController.swift:226-233 | staying changes nothing; prompting presents the alert and keeps the root; entering sets the root to the tab bar |
| `Navigation.DeclinedPreferenceReadsAsUnset` | FindMySong/Controllers/ViewController.swift:225-227 | a stored `false` decides exactly like no preference, so with a token the next navigation prompts again |
| `Navigation.SavedLoginLeavesLoginScreen` | FindMySong/Controllers/ViewController.swift:223-233 | once both tokens are saved, navigation prompts or enters the tab bar for the new access token, never stays |
| `Navigation.ViewController.constructor` | FindMySong/Controllers/ViewController.swift:10 | a fresh view model in its initial state, the login screen as root, no prompt |
| `Navigation.ViewController.DidReceiveCode` | FindMySong/Controllers/ViewController.swift:208-210 | the web login's code reaches the exchange unchanged, with the view model updated as `LoginWithSpotify` says |
| `Navigation.ViewController.HandleNavigation` | FindMySong/Controllers/ViewController.swift:222-235 | the screen changes as `Navigate` says for `NavigationDecision` of the stored token and preference |
| `Navigation.ViewController.NavigateToSearch` | FindMySong/Controllers/ViewController.swift:237-245 | the root becomes the tab bar for the stored access token, and nothing happens without one |
| `Navigation.ViewController.AnswerBiometricPrompt` | FindMySong/Controllers/ViewController.swift:40-47 | either answer dismisses the alert, stores the chosen preference, then navigates as `NavigateToSearch` |
| `Navigation.ViewController.ShouldNavigateToSearchPublished` | FindMySong/Controllers/ViewController.swift:198-203 | only a published `true` navigates; `false` changes nothing |
| `Navigation.ViewController.LoginCompleted` | FindMySong/Controllers/ViewController.swift:198-210 | the exchange's completion followed by the binding: navigation happens exactly when both tokens were saved, and then lands on the prompt or the tab bar for the new token |
| `Navigation.ViewController.BiometricLoginCompleted` | FindMySong/ViewModels/LoginViewModel.swift:52-72 | the refresh's completion followed by the binding: navigation exactly when both tokens were saved, landing on the prompt or the tab bar for the new token |
| `Search.RawValue` | FindMySong/ViewModels/SearchViewModel.swift:10-14 | band, song and album have raw values 0, 1 and 2, each exactly |
| `Search.FromRawValue` | FindMySong/ViewModels/SearchViewModel.swift:10-14 | a search type exists exactly for raw values 0, 1 and 2, and it maps back to the raw value |
| `Search.SpotifyType` | FindMySong/ViewModels/SearchViewModel.swift:15-21 | band, song and album are "artist", "track" and "album" to the API, each exactly |
| `Search.SearchTypeTable` | FindMySong/ViewModels/SearchViewModel.swift:10-21 | raw values 0, 1 and 2 give band, song and album, named "artist", "track" and "album"; raw value 1 is `.song` |
| `Search.SpotifyTypeIsInjective` | FindMySong/ViewModels/SearchViewModel.swift:15-21 | distinct search types map to distinct API types |
| `Search.SearchUrl` | FindMySong/ViewModels/SearchViewModel.swift:50-52 | the URL is the search endpoint, "?q=" and the encoded query (empty if encoding fails), then "&type=track%2C" and the API type |
| `Search.SearchUrlDeterminesType` | FindMySong/ViewModels/SearchViewModel.swift:50-52 | for one query, two search types give the same URL only if they are equal |
| `Search.SearchRequest` | FindMySong/ViewModels/SearchViewModel.swift:45-59 | a request is sent exactly for a query of at least three characters whose URL parses, carrying that URL and the bearer token |
| `Search.ClassifySearch` | FindMySong/ViewModels/SearchViewModel.swift:63-87 | success exactly when there is no transport error, no 401, a body, and it decodes, yielding the decoded tracks; failures carry one of the four messages, a transport error taking precedence |
| `Search.SearchFailurePrecedence` | FindMySong/ViewModels/SearchViewModel.swift:63-87 | after the transport error come 401, then a missing body, then a decoding failure |
| `Search.WrapTracks` | FindMySong/ViewModels/SearchViewModel.swift:83 | every decoded track, in order, becomes a track row |
| `Search.WrapTracksRoundTrip` | FindMySong/ViewModels/SearchViewModel.swift:83 | reading the track rows back gives exactly the decoded tracks |
| `Search.SearchViewModel.constructor` | FindMySong/ViewModels/SearchViewModel.swift:31-38 | search type `.song`, no results, no message |
| `Search.SearchViewModel.UpdateSearchType` | FindMySong/ViewModels/SearchViewModel.swift:40-43 | sets the type, then sends exactly the request `search(query:)` would for it, with the same effect on the results |
| `Search.SearchViewModel.Search` | FindMySong/ViewModels/SearchViewModel.swift:45-60 | sends `SearchRequest`'s request; when none is sent the results are emptied; nothing else changes |
| `Search.SearchViewModel.FinishSearch` | FindMySong/ViewModels/SearchViewModel.swift:61-89 | success puts the wrapped tracks in the results and keeps the message; any failure empties the results and sets its message |
| `Profile.Authorized` | FindMySong/ViewModels/ProfileViewModel.swift:28-29 | a request exists exactly when there is a token, with the URL and the bearer header |
| `Profile.ClearList` | FindMySong/ViewModels/ProfileViewModel.swift:23-24 | "tracks" empties only the tracks, "artists" only the artists, any other endpoint nothing |
| `Profile.FetchFailure` | FindMySong/ViewModels/ProfileViewModel.swift:33-44 | a transport error is reported first, then a missing body; the status code is not consulted |
| `Profile.FavoritesCompleted` | FindMySong/ViewModels/ProfileViewModel.swift:31-59 | only the endpoint's own list can change and `user` never does; a transport error, a missing body or a body that does not decode for "tracks" or "artists" clears that endpoint's list and sets its message, in that order of precedence; a body for any other endpoint changes nothing |
| `Profile.FavoritesSuccessReplacesList` | FindMySong/ViewModels/ProfileViewModel.swift:45-52 | a body that decodes for the endpoint replaces that list with its items and changes nothing else |
| `Profile.ProfileCompleted` | FindMySong/ViewModels/ProfileViewModel.swift:72-88 | the favourites never change; success sets `user` to the decoded user and keeps the message; a transport error, a missing body or a decoding failure sets its message, in that order, and leaves `user` as it was |
| `Profile.ProfileViewModel.constructor` | FindMySong/ViewModels/ProfileViewModel.swift:11-14 | empty lists, no user, no message |
| `Profile.ProfileViewModel.FetchUserFavoriteItems` | FindMySong/ViewModels/ProfileViewModel.swift:20-30 | without a token or a parsable URL: the endpoint's list is emptied and no message is set; otherwise the top-items URL with the bearer token is sent |
| `Profile.ProfileViewModel.FinishFavoriteItems` | FindMySong/ViewModels/ProfileViewModel.swift:31-59 | the state becomes `FavoritesCompleted` of the old state |
| `Profile.ProfileViewModel.FetchUserProfile` | FindMySong/ViewModels/ProfileViewModel.swift:62-71 | without a token the missing-token message is set and `user` is untouched; otherwise the profile URL with the bearer token is sent |
| `Profile.ProfileViewModel.FinishUserProfile` | FindMySong/ViewModels/ProfileViewModel.swift:72-89 | the state becomes `ProfileCompleted` of the old state |

## Left out

- Task, `MainActor.run`, `DispatchQueue.main.async` and `URLSession` scheduling: each asynchronous call is a start step and a completion step; interleavings are whatever order a caller makes the calls in.
- `[weak self]`: a completion that arrives after its view model is gone does nothing; the model always has the view model.
- `KeyChainService` and `UserDefaults` are not part of this model beyond their use here: a failed keychain write or delete is taken to leave the entry as it was, and user defaults are the app's own domain (keys registered by other domains, which `removeObject` cannot remove, are not modelled).
- `Services.BoolFor`: `bool(forKey:)` also reads numbers and strings such as "YES" as booleans; a non-boolean entry reads as `false` here.
- `addingPercentEncoding` and `URL(string:)` are foreign calls; they are parameters (`percentEncode`, `isValidUrl`) of the methods that use them. The profile URL is a fixed literal and is taken to parse.
- `Search.SearchRequest`: Swift's `String.count` counts grapheme clusters; the guard here counts characters.
- JSONDecoder: the body of a response is given as what it decodes to; the Codable records keep only identifying fields.
- Window lookup in `handleNavigation`/`navigateToSearch` (`connectedScenes.first`, `windows.first`) is taken to succeed, and `TabBarViewController(token:)` is represented by the token it is built from.
- The `isLoading`, `loginError` and `biometricError` bindings of the view controller (spinner and error alerts), `viewDidAppear` calling `checkBiometryPreference`, and the web login's presentation are UI; the `showBiometricPrompt` flag is published but never assigned by the view model.
- Layout, tables, cells, image fetching, `SongViewModel`, `TabBarViewModel`, `SpotifyWebViewModel` and the `viewController` parameter of `performAction` (unused) are not modelled.
- `Search.SearchResult`: the album and artist row cases exist but the search never produces them.
