/**
 * `LoginViewModel`: the authorization-code login, the biometric-gated silent
 * refresh and the biometric opt-in. Every asynchronous `Task` is split into a
 * start method, which returns the call the task makes (None when it makes
 * none), and a completion method, which is given that call's outcome and the
 * results the keychain reports for its two writes.
 */
module Login {
  import opened Wrappers
  import opened Services

  /** Shown for every failure of the authorization-code login. */
  const TryAgainLater: string := "Tente novamente mais tarde"
  /** Shown for every failure of the biometric login. */
  const SpotifyFailure: string := "Houve uma falha na comunicação com o Spotify"

  /** `SpotifyService.requestAccessToken(withCode:)`: a token pair, or a thrown error. */
  datatype ExchangeOutcome = Exchanged(access: string, refresh: string) | ExchangeFailed

  /** `SpotifyService.refreshToken(with:)`: the provider may omit a new refresh token. */
  datatype RefreshOutcome = Refreshed(access: string, newRefresh: Option<string>) | RefreshFailed

  /** What `BiometryService.authenticateUser` reports. */
  datatype BiometryOutcome = Authenticated | Cancelled | Unavailable | NotRecognized

  datatype TokenPair = TokenPair(access: string, refresh: string)

  /** The five published flags of the view model. */
  datatype LoginFlags = LoginFlags(
    isLoading: bool,
    loginError: Option<string>,
    biometricError: Option<string>,
    shouldNavigateToSearch: bool,
    showBiometricPrompt: bool)

  /**
   * The pair a refresh leads the view model to store: the new access token,
   * and the new refresh token if the provider rotated it, else the one sent.
   */
  function PairAfterRefresh(sent: string, outcome: RefreshOutcome): (r: Option<TokenPair>)
    ensures r.Some? <==> outcome.Refreshed?
    ensures r.Some? ==> r.value.access == outcome.access
    ensures r.Some? && outcome.newRefresh.None? ==> r.value.refresh == sent
    ensures r.Some? && outcome.newRefresh.Some? ==> r.value.refresh == outcome.newRefresh.value
  {
    match outcome
    case Refreshed(access, newRefresh) => Some(TokenPair(access, newRefresh.GetOr(sent)))
    case RefreshFailed => None
  }

  /**
   * The keychain after the two writes of a token pair, access first, then
   * refresh. Each write lands or fails on its own: there is no rollback, so a
   * pair saved half-way leaves the new access token beside the old refresh
   * token (or the reverse).
   */
  function SavePair(items: map<string, string>, pair: TokenPair, accessSaved: bool, refreshSaved: bool): (r: map<string, string>)
    ensures Lookup(r, AccessTokenKey) == if accessSaved then Some(pair.access) else Lookup(items, AccessTokenKey)
    ensures Lookup(r, RefreshTokenKey) == if refreshSaved then Some(pair.refresh) else Lookup(items, RefreshTokenKey)
    ensures forall k :: k != AccessTokenKey && k != RefreshTokenKey ==> Lookup(r, k) == Lookup(items, k)
  {
    Stored(Stored(items, AccessTokenKey, pair.access, accessSaved), RefreshTokenKey, pair.refresh, refreshSaved)
  }

  /** A failed second write keeps the new access token beside the previous refresh token. */
  lemma PairSaveIsNotAtomic(items: map<string, string>, pair: TokenPair)
    requires RefreshTokenKey in items && items[RefreshTokenKey] != pair.refresh
    ensures var r := SavePair(items, pair, true, false);
      Lookup(r, AccessTokenKey) == Some(pair.access) && Lookup(r, RefreshTokenKey) == Some(items[RefreshTokenKey])
      && Lookup(r, RefreshTokenKey) != Some(pair.refresh)
  {
  }

  /**
   * A refresh that does not rotate the refresh token leaves the stored refresh
   * token as it was, whichever of the two writes succeed.
   */
  lemma UnrotatedRefreshTokenIsKept(items: map<string, string>, access: string, accessSaved: bool, refreshSaved: bool)
    requires RefreshTokenKey in items
    ensures var pair := PairAfterRefresh(items[RefreshTokenKey], Refreshed(access, None));
      pair.Some? && Lookup(SavePair(items, pair.value, accessSaved, refreshSaved), RefreshTokenKey) == Some(items[RefreshTokenKey])
  {
  }

  class LoginViewModel {
    var isLoading: bool
    var loginError: Option<string>
    var biometricError: Option<string>
    var shouldNavigateToSearch: bool
    var showBiometricPrompt: bool

    function Flags(): LoginFlags
      reads this
    {
      LoginFlags(isLoading, loginError, biometricError, shouldNavigateToSearch, showBiometricPrompt)
    }

    constructor ()
      ensures Flags() == LoginFlags(false, None, None, false, false)
    {
      isLoading := false;
      loginError := None;
      biometricError := None;
      shouldNavigateToSearch := false;
      showBiometricPrompt := false;
    }

    /**
     * `loginWithSpotify(code:)` up to the hand-off to its Task: an empty code
     * only sets the error; any other code turns loading on and is sent to the
     * token exchange as it is. Nothing stops a second exchange while one runs.
     */
    method LoginWithSpotify(code: string) returns (exchange: Option<string>)
      modifies this
      ensures exchange == if code == "" then None else Some(code)
      ensures Flags() == if code == "" then old(Flags()).(loginError := Some(TryAgainLater))
                         else old(Flags()).(isLoading := true)
    {
      if code == "" {
        loginError := Some(TryAgainLater);
        return None;
      }
      isLoading := true;
      exchange := Some(code);
    }

    /**
     * The completion of the exchange Task. A successful exchange writes both
     * tokens whatever the first write reports; only when both writes land is
     * `shouldNavigateToSearch` set, which `navigate` reports. Every path turns
     * loading off.
     */
    method FinishLoginWithSpotify(outcome: ExchangeOutcome, keychain: Keychain, accessSaved: bool, refreshSaved: bool)
      returns (navigate: bool)
      modifies this, keychain
      ensures navigate <==> outcome.Exchanged? && accessSaved && refreshSaved
      ensures keychain.items == if outcome.Exchanged?
                                then SavePair(old(keychain.items), TokenPair(outcome.access, outcome.refresh), accessSaved, refreshSaved)
                                else old(keychain.items)
      ensures Flags() == if navigate then old(Flags()).(shouldNavigateToSearch := true, isLoading := false)
                         else old(Flags()).(loginError := Some(TryAgainLater), isLoading := false)
    {
      match outcome
      case Exchanged(access, refresh) =>
        var accessOk := keychain.Create(access, AccessTokenKey, accessSaved);
        var refreshOk := keychain.Create(refresh, RefreshTokenKey, refreshSaved);
        navigate := accessOk && refreshOk;
        if navigate {
          shouldNavigateToSearch := true;
        } else {
          loginError := Some(TryAgainLater);
        }
        isLoading := false;
      case ExchangeFailed =>
        navigate := false;
        loginError := Some(TryAgainLater);
        isLoading := false;
    }

    /**
     * `loginWithBiometry()` up to the hand-off to its Task: without a stored
     * refresh token it only sets the biometric error; otherwise it turns
     * loading on and sends the stored refresh token to the refresh grant.
     */
    method LoginWithBiometry(keychain: Keychain) returns (refresh: Option<string>)
      modifies this
      ensures refresh == Lookup(keychain.items, RefreshTokenKey)
      ensures Flags() == if refresh.None? then old(Flags()).(biometricError := Some(SpotifyFailure))
                         else old(Flags()).(isLoading := true)
    {
      refresh := keychain.Read(RefreshTokenKey);
      if refresh.None? {
        biometricError := Some(SpotifyFailure);
        return;
      }
      isLoading := true;
    }

    /**
     * The completion of the refresh Task, `sent` being the refresh token the
     * start step read. The pair stored keeps `sent` when the provider does not
     * rotate the refresh token.
     */
    method FinishLoginWithBiometry(sent: string, outcome: RefreshOutcome, keychain: Keychain, accessSaved: bool, refreshSaved: bool)
      returns (navigate: bool)
      modifies this, keychain
      ensures navigate <==> outcome.Refreshed? && accessSaved && refreshSaved
      ensures keychain.items == match PairAfterRefresh(sent, outcome)
                                case Some(pair) => SavePair(old(keychain.items), pair, accessSaved, refreshSaved)
                                case None => old(keychain.items)
      ensures Flags() == if navigate then old(Flags()).(shouldNavigateToSearch := true, isLoading := false)
                         else old(Flags()).(biometricError := Some(SpotifyFailure), isLoading := false)
    {
      match outcome
      case Refreshed(access, maybeNewRefresh) =>
        var refresh := maybeNewRefresh.GetOr(sent);
        var accessOk := keychain.Create(access, AccessTokenKey, accessSaved);
        var refreshOk := keychain.Create(refresh, RefreshTokenKey, refreshSaved);
        navigate := accessOk && refreshOk;
        if navigate {
          shouldNavigateToSearch := true;
        } else {
          biometricError := Some(SpotifyFailure);
        }
        isLoading := false;
      case RefreshFailed =>
        navigate := false;
        biometricError := Some(SpotifyFailure);
        isLoading := false;
    }

    /**
     * `checkBiometryPreference()`: asks for the biometric challenge exactly
     * when the stored preference is `true`; a stored `false` and no entry at
     * all both do nothing.
     */
    method CheckBiometryPreference(defaults: UserDefaults) returns (challenge: bool)
      ensures challenge <==> BiometryPreferenceKey in defaults.entries && defaults.entries[BiometryPreferenceKey] == Flag(true)
    {
      challenge := defaults.Bool(BiometryPreferenceKey);
    }

    /**
     * The challenge's callback: success goes on to `loginWithBiometry()`;
     * every other outcome sets the biometric error and refreshes nothing.
     */
    method FinishBiometryChallenge(result: BiometryOutcome, keychain: Keychain) returns (refresh: Option<string>)
      modifies this
      ensures result.Authenticated? ==> refresh == Lookup(keychain.items, RefreshTokenKey)
      ensures !result.Authenticated? ==> refresh == None
      ensures Flags() == if refresh.Some? then old(Flags()).(isLoading := true)
                         else old(Flags()).(biometricError := Some(SpotifyFailure))
    {
      if result.Authenticated? {
        refresh := LoginWithBiometry(keychain);
      } else {
        biometricError := Some(SpotifyFailure);
        refresh := None;
      }
    }

    /** `handleBiometricPrompt(_:)`: stores exactly the answer, and nothing else changes. */
    method HandleBiometricPrompt(useBiometry: bool, defaults: UserDefaults)
      modifies defaults
      ensures defaults.entries == old(defaults.entries)[BiometryPreferenceKey := Flag(useBiometry)]
    {
      defaults.SetBool(useBiometry, BiometryPreferenceKey);
    }
  }
}
