/**
 * The navigation logic of the login screen (`ViewController`): where to go
 * once the view model publishes `shouldNavigateToSearch`, the biometric
 * opt-in prompt and its two answers, and the hand-off of the authorization
 * code from the web login.
 */
module Navigation {
  import opened Wrappers
  import opened Services
  import opened Login

  /** The window's root: the login screen, or a tab bar built for an access token. */
  datatype Root = LoginScreen | TabBar(token: string)

  /** What `handleNavigation()` does. */
  datatype Decision = Stay | PromptForBiometry | ShowTabBar(token: string)

  /** What is on screen: the window's root and whether the opt-in alert is presented. */
  datatype Screen = Screen(root: Root, biometricPromptVisible: bool)

  /**
   * `handleNavigation()`'s choice: without an access token nothing happens;
   * with one, a preference that does not read `true` prompts, and a `true`
   * one enters the tab bar built from that token.
   */
  function NavigationDecision(items: map<string, string>, entries: map<string, DefaultsValue>): (d: Decision)
    ensures d == Stay <==> AccessTokenKey !in items
    ensures d == PromptForBiometry <==> AccessTokenKey in items && !BoolFor(entries, BiometryPreferenceKey)
    ensures d.ShowTabBar? ==> Lookup(items, AccessTokenKey) == Some(d.token) && BoolFor(entries, BiometryPreferenceKey)
  {
    match Lookup(items, AccessTokenKey)
    case None => Stay
    case Some(token) =>
      if !BoolFor(entries, BiometryPreferenceKey) then PromptForBiometry else ShowTabBar(token)
  }

  /** The screen after acting on a decision. */
  function Navigate(s: Screen, d: Decision): (t: Screen)
    ensures d == Stay ==> t == s
    ensures d == PromptForBiometry ==> t.root == s.root && t.biometricPromptVisible
    ensures d.ShowTabBar? ==> t.root == TabBar(d.token) && t.biometricPromptVisible == s.biometricPromptVisible
  {
    match d
    case Stay => s
    case PromptForBiometry => s.(biometricPromptVisible := true)
    case ShowTabBar(token) => s.(root := TabBar(token))
  }

  /**
   * Answering "Não" stores `false`, which reads exactly as no answer at all:
   * with the access token still there, the next navigation prompts again.
   */
  lemma DeclinedPreferenceReadsAsUnset(items: map<string, string>, entries: map<string, DefaultsValue>)
    ensures NavigationDecision(items, entries[BiometryPreferenceKey := Flag(false)])
         == NavigationDecision(items, entries - {BiometryPreferenceKey})
    ensures AccessTokenKey in items ==> NavigationDecision(items, entries[BiometryPreferenceKey := Flag(false)]) == PromptForBiometry
  {
  }

  /**
   * Once both tokens of a login are saved, navigation no longer stays on the
   * login screen: it prompts, or it enters the tab bar with the new token.
   */
  lemma SavedLoginLeavesLoginScreen(items: map<string, string>, pair: TokenPair, entries: map<string, DefaultsValue>)
    ensures var d := NavigationDecision(SavePair(items, pair, true, true), entries);
      d == PromptForBiometry || d == ShowTabBar(pair.access)
  {
  }

  class ViewController {
    const viewModel: LoginViewModel
    var root: Root
    var biometricPromptVisible: bool

    function Shown(): Screen
      reads this
    {
      Screen(root, biometricPromptVisible)
    }

    constructor ()
      ensures fresh(viewModel) && viewModel.Flags() == LoginFlags(false, None, None, false, false)
      ensures Shown() == Screen(LoginScreen, false)
    {
      viewModel := new LoginViewModel();
      root := LoginScreen;
      biometricPromptVisible := false;
    }

    /** The web login's delegate callback: the code goes to the view model unchanged. */
    method DidReceiveCode(code: string) returns (exchange: Option<string>)
      modifies viewModel
      ensures exchange == if code == "" then None else Some(code)
      ensures viewModel.Flags() == if code == "" then old(viewModel.Flags()).(loginError := Some(TryAgainLater))
                                   else old(viewModel.Flags()).(isLoading := true)
    {
      exchange := viewModel.LoginWithSpotify(code);
    }

    /** `handleNavigation()`. */
    method HandleNavigation(keychain: Keychain, defaults: UserDefaults)
      modifies this
      ensures Shown() == Navigate(old(Shown()), NavigationDecision(keychain.items, defaults.entries))
    {
      var accessToken := keychain.Read(AccessTokenKey);
      if accessToken.None? {
        return;
      }
      var tabBar := TabBar(accessToken.value);
      var hasBiometryPreference := defaults.Bool(BiometryPreferenceKey);
      if !hasBiometryPreference {
        biometricPromptVisible := true;
      } else {
        root := tabBar;
      }
    }

    /** `navigateToSearch()`: enters the tab bar when an access token is stored, else does nothing. */
    method NavigateToSearch(keychain: Keychain)
      modifies this
      ensures root == if AccessTokenKey in keychain.items then TabBar(keychain.items[AccessTokenKey]) else old(root)
      ensures biometricPromptVisible == old(biometricPromptVisible)
    {
      var accessToken := keychain.Read(AccessTokenKey);
      if accessToken.None? {
        return;
      }
      root := TabBar(accessToken.value);
    }

    /**
     * Either action of the opt-in alert ("Sim" is `true`, "Não" is `false`):
     * the alert goes away, the answer is stored, and then the tab bar is
     * entered if an access token is stored.
     */
    method AnswerBiometricPrompt(useBiometry: bool, keychain: Keychain, defaults: UserDefaults)
      requires biometricPromptVisible
      modifies this, defaults
      ensures defaults.entries == old(defaults.entries)[BiometryPreferenceKey := Flag(useBiometry)]
      ensures !biometricPromptVisible
      ensures root == if AccessTokenKey in keychain.items then TabBar(keychain.items[AccessTokenKey]) else old(root)
    {
      biometricPromptVisible := false;
      viewModel.HandleBiometricPrompt(useBiometry, defaults);
      NavigateToSearch(keychain);
    }

    /** The `shouldNavigateToSearch` binding: only a published `true` navigates. */
    method ShouldNavigateToSearchPublished(value: bool, keychain: Keychain, defaults: UserDefaults)
      modifies this
      ensures Shown() == if value then Navigate(old(Shown()), NavigationDecision(keychain.items, defaults.entries))
                         else old(Shown())
    {
      if value {
        HandleNavigation(keychain, defaults);
      }
    }

    /**
     * The exchange Task completing while this screen observes the view model:
     * the view model's completion, then the binding when it published `true`,
     * which after a saved pair never stays on the login screen.
     */
    method LoginCompleted(outcome: ExchangeOutcome, keychain: Keychain, defaults: UserDefaults, accessSaved: bool, refreshSaved: bool)
      modifies this, viewModel, keychain
      ensures var navigated := outcome.Exchanged? && accessSaved && refreshSaved;
        && keychain.items == (if outcome.Exchanged?
                              then SavePair(old(keychain.items), TokenPair(outcome.access, outcome.refresh), accessSaved, refreshSaved)
                              else old(keychain.items))
        && viewModel.Flags() == (if navigated then old(viewModel.Flags()).(shouldNavigateToSearch := true, isLoading := false)
                                 else old(viewModel.Flags()).(loginError := Some(TryAgainLater), isLoading := false))
        && Shown() == (if navigated then Navigate(old(Shown()), NavigationDecision(keychain.items, defaults.entries))
                       else old(Shown()))
      ensures outcome.Exchanged? && accessSaved && refreshSaved ==>
        root == TabBar(outcome.access) || biometricPromptVisible
    {
      var navigate := viewModel.FinishLoginWithSpotify(outcome, keychain, accessSaved, refreshSaved);
      if navigate {
        SavedLoginLeavesLoginScreen(old(keychain.items), TokenPair(outcome.access, outcome.refresh), defaults.entries);
        HandleNavigation(keychain, defaults);
      }
    }

    /**
     * The refresh Task of the biometric login completing: the view model's
     * completion, then the binding when it published `true`.
     */
    method BiometricLoginCompleted(sent: string, outcome: RefreshOutcome, keychain: Keychain, defaults: UserDefaults,
                                   accessSaved: bool, refreshSaved: bool)
      modifies this, viewModel, keychain
      ensures var navigated := outcome.Refreshed? && accessSaved && refreshSaved;
        && keychain.items == (match PairAfterRefresh(sent, outcome)
                              case Some(pair) => SavePair(old(keychain.items), pair, accessSaved, refreshSaved)
                              case None => old(keychain.items))
        && viewModel.Flags() == (if navigated then old(viewModel.Flags()).(shouldNavigateToSearch := true, isLoading := false)
                                 else old(viewModel.Flags()).(biometricError := Some(SpotifyFailure), isLoading := false))
        && Shown() == (if navigated then Navigate(old(Shown()), NavigationDecision(keychain.items, defaults.entries))
                       else old(Shown()))
      ensures outcome.Refreshed? && accessSaved && refreshSaved ==>
        root == TabBar(outcome.access) || biometricPromptVisible
    {
      var navigate := viewModel.FinishLoginWithBiometry(sent, outcome, keychain, accessSaved, refreshSaved);
      if navigate {
        SavedLoginLeavesLoginScreen(old(keychain.items), PairAfterRefresh(sent, outcome).value, defaults.entries);
        HandleNavigation(keychain, defaults);
      }
    }
  }
}
