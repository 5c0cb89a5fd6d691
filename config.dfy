/**
 * The configuration half of Floreboard/AIService.swift: `currentConfig`, `loadBaseConfig` and
 * `updateConfig`, over two slots — the "api_config" blob of the key-value store and the "api_key" entry
 * of the keychain.
 */
module Config {
  import opened Prelude
  import opened Models

  /** The two slots as values; None is an absent (or, for the blob, undecodable) entry. */
  datatype Stores = Stores(plain: Option<ApiConfig>, secure: Option<string>)

  /** `loadBaseConfig`: the stored blob, or `ApiConfig.default`. */
  function BaseConfig(s: Stores): (c: ApiConfig)
    ensures s.plain.Some? ==> c == s.plain.value
    ensures s.plain.None? ==> c == DefaultConfig()
  {
    s.plain.GetOr(DefaultConfig())
  }

  /** `currentConfig`: the base config with its key replaced by the keychain's, when there is one. */
  function Current(s: Stores): (c: ApiConfig)
    ensures c.apiKey == if s.secure.Some? then s.secure.value else BaseConfig(s).apiKey
    ensures c.(apiKey := BaseConfig(s).apiKey) == BaseConfig(s)
  {
    var cfg := BaseConfig(s);
    if s.secure.Some? then cfg.(apiKey := s.secure.value) else cfg
  }

  /**
   * `updateConfig`: the key goes to the keychain only when non-empty; the blob always, with its key blanked.
   * The keychain write deletes the old entry before adding the new one, and `keychainSaved` is whether the
   * add succeeded (the result `updateConfig` discards): when it fails the entry is gone.
   */
  function Update(s: Stores, c: ApiConfig, keychainSaved: bool): (s': Stores)
    ensures s'.plain == Some(c.(apiKey := ""))
    ensures c.apiKey == "" ==> s'.secure == s.secure
    ensures c.apiKey != "" ==> s'.secure == if keychainSaved then Some(c.apiKey) else None
  {
    Stores(Some(c.(apiKey := "")), if c.apiKey == "" then s.secure else if keychainSaved then Some(c.apiKey) else None)
  }

  /** With nothing stored, the current config is the default one. */
  lemma CurrentOfEmptyStores()
    ensures Current(Stores(None, None)) == DefaultConfig()
  {
  }

  /** The blob never carries a key, whatever was saved. */
  lemma PlainStoreHoldsNoKey(s: Stores, c: ApiConfig, keychainSaved: bool)
    ensures Update(s, c, keychainSaved).plain.Some? && Update(s, c, keychainSaved).plain.value.apiKey == ""
  {
  }

  /** After an update with a non-empty key that the keychain took, the config read back is the one saved. */
  lemma ReadBackAfterUpdate(s: Stores, c: ApiConfig)
    requires c.apiKey != ""
    ensures Current(Update(s, c, true)) == c
  {
  }

  /**
   * When the keychain refuses a non-empty key, the previous key is lost too: the config read back is the
   * one saved with no key at all, so every later call fails for a missing key.
   */
  lemma FailedKeychainWriteLosesKey(s: Stores, c: ApiConfig)
    requires c.apiKey != ""
    ensures Current(Update(s, c, false)) == c.(apiKey := "")
    ensures Update(s, c, false).secure.None?
  {
  }

  /**
   * An empty key never clears the stored one: reading back gives the saved config with the key that was
   * in the keychain before (or the empty key when there was none).
   */
  lemma EmptyKeyKeepsStoredKey(s: Stores, c: ApiConfig, keychainSaved: bool)
    requires c.apiKey == ""
    ensures Current(Update(s, c, keychainSaved)) == c.(apiKey := s.secure.GetOr(""))
    ensures s.secure.Some? ==> Current(Update(s, c, keychainSaved)).apiKey == s.secure.value
  {
  }

  /** Saving what was read back changes nothing that can be read, unless the keychain refuses the key. */
  lemma UpdateWithCurrentIsStable(s: Stores)
    ensures Current(Update(s, Current(s), true)) == Current(s)
  {
    var c := Current(s);
    if c.apiKey == "" {
      assert s.secure.Some? ==> s.secure.value == "";
    }
  }

  /** Saving twice is saving once: the second keychain write alone decides the key. */
  lemma UpdateIdempotent(s: Stores, c: ApiConfig, first: bool, second: bool)
    ensures Update(Update(s, c, first), c, second) == Update(s, c, second)
  {
  }

  /** The configuration store, its two slots updated in place. */
  class ConfigStore {
    /** UserDefaults "api_config" */
    var plain: Option<ApiConfig>
    /** Keychain "api_key" */
    var secure: Option<string>

    constructor(plain: Option<ApiConfig>, secure: Option<string>)
      ensures this.plain == plain && this.secure == secure
    {
      this.plain := plain;
      this.secure := secure;
    }

    function CurrentConfig(): (c: ApiConfig)
      reads this
      ensures c == Current(Stores(plain, secure))
    {
      var cfg := plain.GetOr(DefaultConfig());
      if secure.Some? then cfg.(apiKey := secure.value) else cfg
    }

    /** `keychainSaved` is what `SecItemAdd` reports; the old entry has been deleted by then. */
    method UpdateConfig(newConfig: ApiConfig, keychainSaved: bool)
      modifies this
      ensures Stores(plain, secure) == Update(old(Stores(plain, secure)), newConfig, keychainSaved)
    {
      if newConfig.apiKey != "" {
        secure := None;
        if keychainSaved {
          secure := Some(newConfig.apiKey);
        }
      }
      var secureConfig := newConfig;
      secureConfig := secureConfig.(apiKey := "");
      plain := Some(secureConfig);
    }
  }
}
