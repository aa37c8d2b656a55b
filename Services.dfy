/**
 * The platform services the view models talk to: the keychain (a string-keyed
 * secret store whose writes and deletes may fail), the user defaults (a
 * key-value store in which a missing boolean reads as false) and the shape of
 * an HTTP round trip.
 */
module Services {
  import opened Wrappers

  const AccessTokenKey: string := "accessToken"
  const RefreshTokenKey: string := "refreshToken"
  const BiometryPreferenceKey: string := "prefersBiometricAuthentication"

  /** A keychain read: an absent key reads as no value, never as an error. */
  function Lookup(items: map<string, string>, key: string): (r: Option<string>)
    ensures r.Some? <==> key in items
    ensures r.Some? ==> r.value == items[key]
  {
    if key in items then Some(items[key]) else None
  }

  /**
   * The keychain after one create: the entry holds the new value when the
   * write succeeds, and the store is untouched when it fails.
   */
  function Stored(items: map<string, string>, key: string, value: string, succeeded: bool): (r: map<string, string>)
    ensures Lookup(r, key) == if succeeded then Some(value) else Lookup(items, key)
    ensures forall k :: k != key ==> Lookup(r, k) == Lookup(items, k)
  {
    if succeeded then items[key := value] else items
  }

  /** What a user-defaults entry may hold. */
  datatype DefaultsValue = Flag(b: bool) | Other(description: string)

  /** `UserDefaults.bool(forKey:)`: true only for a stored `true`; absent and `false` read alike. */
  function BoolFor(entries: map<string, DefaultsValue>, key: string): (r: bool)
    ensures r <==> key in entries && entries[key] == Flag(true)
  {
    key in entries && entries[key].Flag? && entries[key].b
  }

  /** `KeyChainService`: a string-keyed secret store. */
  class Keychain {
    var items: map<string, string>

    constructor (items: map<string, string>)
      ensures this.items == items
    {
      this.items := items;
    }

    function Read(key: string): Option<string>
      reads this
    {
      Lookup(items, key)
    }

    /** `create(value:forKey:)`; `succeeds` is what the platform reports. */
    method Create(value: string, key: string, succeeds: bool) returns (ok: bool)
      modifies this
      ensures ok == succeeds
      ensures items == Stored(old(items), key, value, succeeds)
    {
      if succeeds {
        items := items[key := value];
      }
      ok := succeeds;
    }

    /** `delete(forKey:)`; deleting an absent key leaves the store as it was. */
    method Delete(key: string, succeeds: bool) returns (ok: bool)
      modifies this
      ensures ok == succeeds
      ensures items == if succeeds then old(items) - {key} else old(items)
    {
      if succeeds {
        items := items - {key};
      }
      ok := succeeds;
    }
  }

  /** `UserDefaults.standard`, restricted to the app's own persistent domain. */
  class UserDefaults {
    var entries: map<string, DefaultsValue>

    constructor (entries: map<string, DefaultsValue>)
      ensures this.entries == entries
    {
      this.entries := entries;
    }

    function Bool(key: string): bool
      reads this
    {
      BoolFor(entries, key)
    }

    method SetBool(value: bool, key: string)
      modifies this
      ensures entries == old(entries)[key := Flag(value)]
    {
      entries := entries[key := Flag(value)];
    }

    method RemoveObject(key: string)
      modifies this
      ensures entries == old(entries) - {key}
    {
      entries := entries - {key};
    }
  }

  /** An authorised GET: the URL and the value of the Authorization header. */
  datatype Request = Request(url: string, authorization: string)

  /** The `Authorization` header value every API call sends. */
  function Bearer(token: string): (h: string)
    ensures |h| == |token| + 7 && h[..7] == "Bearer " && h[7..] == token
  {
    "Bearer " + token
  }

  /**
   * What a `URLSession` data task hands its completion handler: whether
   * `error` was set, the HTTP status code when the response is an HTTP one,
   * and the body when `data` was delivered. `D` is what the body decodes to.
   */
  datatype Response<D> = Response(transportError: bool, statusCode: Option<int>, data: Option<D>)
}
