/** `SettingsViewModel`: the settings list, its row action, and logout. */
module Settings {
  import opened Wrappers
  import opened Services

  const VersionTitle: string := "Version"
  const PrivacyPolicyTitle: string := "Privacy Policy"
  /** The detail shown when the bundle has no short version string. */
  const UnknownVersion: string := "?"
  const PrivacyPolicyUrl: string := "https://www.accenture.com/us-en/support/privacy-policy"

  /** A settings row; `hasAction` stands for the optional closure, which no row sets. */
  datatype SettingItem = SettingItem(title: string, detail: Option<string>, hasAction: bool)

  /**
   * The rows, in order: the version (from the bundle, "?" when absent) and the
   * privacy policy, which has no detail. No row carries an action.
   */
  function SettingsList(bundleVersion: Option<string>): (rows: seq<SettingItem>)
    ensures |rows| == 2
    ensures rows[0].title == VersionTitle && rows[1].title == PrivacyPolicyTitle
    ensures rows[0].detail.Some? && rows[1].detail.None?
    ensures bundleVersion.Some? ==> rows[0].detail == bundleVersion
    ensures bundleVersion.None? ==> rows[0].detail == Some(UnknownVersion)
    ensures forall i :: 0 <= i < |rows| ==> !rows[i].hasAction
  {
    [ SettingItem(VersionTitle, Some(bundleVersion.GetOr(UnknownVersion)), false),
      SettingItem(PrivacyPolicyTitle, None, false) ]
  }

  /** Of the two rows, only the second is the privacy policy. */
  lemma OnlySecondRowIsPrivacyPolicy(bundleVersion: Option<string>, index: int)
    requires 0 <= index < |SettingsList(bundleVersion)|
    ensures SettingsList(bundleVersion)[index].title == PrivacyPolicyTitle <==> index == 1
  {
  }

  /**
   * The keychain after logout's two deletes: each token is gone unless its
   * delete failed; a token that was absent stays absent; other entries stay.
   */
  function AfterLogout(items: map<string, string>, accessDeleted: bool, refreshDeleted: bool): (r: map<string, string>)
    ensures Lookup(r, AccessTokenKey) == if accessDeleted then None else Lookup(items, AccessTokenKey)
    ensures Lookup(r, RefreshTokenKey) == if refreshDeleted then None else Lookup(items, RefreshTokenKey)
    ensures forall k :: k != AccessTokenKey && k != RefreshTokenKey ==> Lookup(r, k) == Lookup(items, k)
  {
    var afterAccess := if accessDeleted then items - {AccessTokenKey} else items;
    if refreshDeleted then afterAccess - {RefreshTokenKey} else afterAccess
  }

  /**
   * Logout ignores what the deletes report, so on a keychain that holds
   * neither token it changes nothing, whatever those reports are: logging out
   * twice leaves the same state as logging out once.
   */
  lemma LogoutIsIdempotent(items: map<string, string>, accessDeleted: bool, refreshDeleted: bool)
    requires AccessTokenKey !in items && RefreshTokenKey !in items
    ensures AfterLogout(items, accessDeleted, refreshDeleted) == items
  {
  }

  class SettingsViewModel {
    const settings: seq<SettingItem>
    const privacyPolicyUrl: string

    constructor (bundleVersion: Option<string>)
      ensures settings == SettingsList(bundleVersion)
      ensures privacyPolicyUrl == PrivacyPolicyUrl
    {
      settings := SettingsList(bundleVersion);
      privacyPolicyUrl := PrivacyPolicyUrl;
    }

    /**
     * `performAction(for:on:)`: the URL opened, if any. Only the row titled
     * "Privacy Policy" opens the privacy policy; any other row does nothing.
     * An index outside the list traps in Swift, hence the precondition.
     */
    method PerformAction(index: int) returns (openedUrl: Option<string>)
      requires 0 <= index < |settings|
      ensures openedUrl.Some? <==> settings[index].title == PrivacyPolicyTitle
      ensures openedUrl.Some? ==> openedUrl.value == privacyPolicyUrl
    {
      var item := settings[index];
      if item.title == PrivacyPolicyTitle {
        openedUrl := Some(privacyPolicyUrl);
      } else {
        openedUrl := None;
      }
    }

    /**
     * `logout()`: deletes both tokens, ignoring the results, then removes
     * every key the user defaults list, the biometric preference included.
     */
    method Logout(keychain: Keychain, defaults: UserDefaults, accessDeleted: bool, refreshDeleted: bool)
      modifies keychain, defaults
      ensures keychain.items == AfterLogout(old(keychain.items), accessDeleted, refreshDeleted)
      ensures defaults.entries == map[]
    {
      var _ := keychain.Delete(AccessTokenKey, accessDeleted);
      var _ := keychain.Delete(RefreshTokenKey, refreshDeleted);
      var keys := defaults.entries.Keys;
      while keys != {}
        invariant defaults.entries.Keys == keys
        modifies defaults
        decreases keys
      {
        var key :| key in keys;
        defaults.RemoveObject(key);
        keys := keys - {key};
      }
    }
  }
}
