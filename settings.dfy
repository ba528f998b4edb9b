/**
 * The settings manager: the in-memory configuration dictionary, its accessors, and
 * the key-by-key transforms that encrypt the API key on save and decrypt it on load.
 *
 * The configuration file is abstract: what loading finds is a `StoredConfig`, and a
 * save either fails with the write error's text or yields the dictionary written.
 * Encryption and decryption are functions that answer `None` where they raise.
 */
module Settings {
  import opened Wrappers
  import opened Py
  import opened Constants

  /** What loading finds: no file, a file that cannot be read as a dictionary, or the
      stored entries. */
  datatype StoredConfig = Missing | Unreadable | Stored(entries: map<string, Value>)

  const SaveFailurePrefix: string := "保存配置失败: "

  /** The entries whose value is handed to a cipher: a non-empty string under the
      API-key name. Any other truthy value makes the cipher raise, which keeps it. */
  predicate Ciphered(key: string, value: Value) {
    key == ConfigApiKey && value.Str? && value.s != []
  }

  /** One entry as saved: an encrypted API key, or the value itself. */
  function SaveEntry(key: string, value: Value, encrypt: string -> Option<string>): Value {
    if Ciphered(key, value) then
      match encrypt(value.s)
      case Some(c) => Str(c)
      case None => value
    else value
  }

  /** One entry as loaded: a decrypted API key, or the value itself. */
  function LoadEntry(key: string, value: Value, decrypt: string -> Option<string>): Value {
    if Ciphered(key, value) then
      match decrypt(value.s)
      case Some(p) => Str(p)
      case None => value
    else value
  }

  /** The dictionary the save loop builds. */
  function Encrypted(config: map<string, Value>, encrypt: string -> Option<string>): map<string, Value> {
    map k | k in config :: SaveEntry(k, config[k], encrypt)
  }

  /** The dictionary the load loop builds. */
  function Decrypted(stored: map<string, Value>, decrypt: string -> Option<string>): map<string, Value> {
    map k | k in stored :: LoadEntry(k, stored[k], decrypt)
  }

  /** A save: the encrypted dictionary, or the failure raised as a runtime error. */
  function SaveResult(config: map<string, Value>, encrypt: string -> Option<string>,
                      writeError: Option<string>): Result<map<string, Value>, string> {
    match writeError
    case None => Success(Encrypted(config, encrypt))
    case Some(detail) => Failure(SaveFailurePrefix + detail)
  }

  /** The key-by-key save loop. */
  method EncryptEntries(config: map<string, Value>, encrypt: string -> Option<string>)
    returns (out: map<string, Value>)
    ensures out == Encrypted(config, encrypt)
  {
    out := map[];
    var remaining := config.Keys;
    while remaining != {}
      invariant remaining <= config.Keys
      invariant out.Keys == config.Keys - remaining
      invariant forall k :: k in out ==> out[k] == SaveEntry(k, config[k], encrypt)
      decreases |remaining|
    {
      var key :| key in remaining;
      out := out[key := SaveEntry(key, config[key], encrypt)];
      remaining := remaining - {key};
    }
  }

  /** The key-by-key load loop. */
  method DecryptEntries(stored: map<string, Value>, decrypt: string -> Option<string>)
    returns (config: map<string, Value>)
    ensures config == Decrypted(stored, decrypt)
  {
    config := map[];
    var remaining := stored.Keys;
    while remaining != {}
      invariant remaining <= stored.Keys
      invariant config.Keys == stored.Keys - remaining
      invariant forall k :: k in config ==> config[k] == LoadEntry(k, stored[k], decrypt)
      decreases |remaining|
    {
      var key :| key in remaining;
      config := config[key := LoadEntry(key, stored[key], decrypt)];
      remaining := remaining - {key};
    }
  }

  class SettingsManager {
    var config: map<string, Value>

    /** A manager over a copy of the default configuration. */
    constructor Defaults()
      ensures config == DefaultConfig
    {
      config := DefaultConfig;
    }

    /** A manager over the entries of a readable file, API key decrypted. */
    constructor Loaded(stored: map<string, Value>, decrypt: string -> Option<string>)
      ensures config == Decrypted(stored, decrypt)
    {
      var loaded := DecryptEntries(stored, decrypt);
      config := loaded;
    }

    /** `get(key, default)` */
    function Get(key: string, default: Value): (v: Value)
      reads this
      ensures key in config ==> v == config[key]
      ensures key !in config ==> v == default
    {
      if key in config then config[key] else default
    }

    method Set(key: string, value: Value)
      modifies this
      ensures config == old(config)[key := value]
      ensures Get(key, NoneValue) == value
      ensures forall k, d :: k != key ==> Get(k, d) == old(Get(k, d))
    {
      config := config[key := value];
    }

    /** `get_all()`; a map is a value, so later changes to either side are independent. */
    method GetAll() returns (all: map<string, Value>)
      ensures all == config
    {
      all := config;
    }

    /** `update(d)`: the keys of `d` take its values, every other entry stays. */
    method Update(d: map<string, Value>)
      modifies this
      ensures config == old(config) + d
      ensures config.Keys == old(config).Keys + d.Keys
      ensures forall k :: k in d ==> config[k] == d[k]
      ensures forall k :: k in old(config) && k !in d ==> config[k] == old(config)[k]
    {
      config := config + d;
    }

    /** `save_config()`: the dictionary written, or the raised failure. */
    method SaveConfig(encrypt: string -> Option<string>, writeError: Option<string>)
      returns (r: Result<map<string, Value>, string>)
      ensures r == SaveResult(config, encrypt, writeError)
    {
      var out := EncryptEntries(config, encrypt);
      if writeError.Some? {
        return Failure(SaveFailurePrefix + writeError.value);
      }
      r := Success(out);
    }

    /** `reset_to_default()`: the defaults are in place even when the save then fails. */
    method ResetToDefault(encrypt: string -> Option<string>, writeError: Option<string>)
      returns (r: Result<map<string, Value>, string>)
      modifies this
      ensures config == DefaultConfig
      ensures r == SaveResult(DefaultConfig, encrypt, writeError)
    {
      config := DefaultConfig;
      r := SaveConfig(encrypt, writeError);
    }
  }

  /** `SettingsManager()`: load the file; without one, or when it cannot be read, start
      from the defaults and save them, a failed save raising out of the constructor. */
  method Open(stored: StoredConfig, decrypt: string -> Option<string>,
              encrypt: string -> Option<string>, writeError: Option<string>)
    returns (r: Result<SettingsManager, string>, written: Option<map<string, Value>>)
    ensures stored.Stored? ==> r.Success? && r.value.config == Decrypted(stored.entries, decrypt) && written.None?
    ensures !stored.Stored? && writeError.None? ==>
              r.Success? && r.value.config == DefaultConfig && written == Some(Encrypted(DefaultConfig, encrypt))
    ensures !stored.Stored? && writeError.Some? ==>
              r == Failure(SaveFailurePrefix + writeError.value) && written.None?
    ensures r.Success? ==> fresh(r.value)
  {
    if stored.Stored? {
      var m := new SettingsManager.Loaded(stored.entries, decrypt);
      return Success(m), None;
    }
    var m := new SettingsManager.Defaults();
    var saved := m.SaveConfig(encrypt, writeError);
    if saved.Success? {
      return Success(m), Some(saved.value);
    }
    return Failure(saved.error), None;
  }

  // ----- What the transforms promise -----

  /** Saving touches only a non-empty string API key; every other entry, and every
      key, is kept. */
  lemma EncryptedTouchesOnlyApiKey(config: map<string, Value>, encrypt: string -> Option<string>)
    ensures Encrypted(config, encrypt).Keys == config.Keys
    ensures forall k :: k in config && k != ConfigApiKey ==> Encrypted(config, encrypt)[k] == config[k]
    ensures (ConfigApiKey !in config || !Truthy(config[ConfigApiKey])) ==> Encrypted(config, encrypt) == config
  {
  }

  /** Loading touches only a non-empty string API key; every other entry, and every
      key, is kept. */
  lemma DecryptedTouchesOnlyApiKey(stored: map<string, Value>, decrypt: string -> Option<string>)
    ensures Decrypted(stored, decrypt).Keys == stored.Keys
    ensures forall k :: k in stored && k != ConfigApiKey ==> Decrypted(stored, decrypt)[k] == stored[k]
    ensures (ConfigApiKey !in stored || !Truthy(stored[ConfigApiKey])) ==> Decrypted(stored, decrypt) == stored
  {
  }

  /** A failing cipher keeps the plaintext. */
  lemma FailedEncryptionKeepsPlaintext(config: map<string, Value>, encrypt: string -> Option<string>)
    requires ConfigApiKey in config && Ciphered(ConfigApiKey, config[ConfigApiKey])
    requires encrypt(config[ConfigApiKey].s).None?
    ensures Encrypted(config, encrypt) == config
  {
  }

  /** The ciphers invert each other: a non-empty plaintext either encrypts to a
      non-empty text that decrypts back, or fails to encrypt and then also fails to
      decrypt. */
  ghost predicate Inverse(encrypt: string -> Option<string>, decrypt: string -> Option<string>) {
    forall s :: s != [] ==>
      match encrypt(s)
      case Some(c) => c != [] && decrypt(c) == Some(s)
      case None => decrypt(s).None?
  }

  /** Saving and then loading gives back the configuration. */
  lemma SaveLoadRoundTrip(config: map<string, Value>, encrypt: string -> Option<string>,
                          decrypt: string -> Option<string>)
    requires Inverse(encrypt, decrypt)
    ensures Decrypted(Encrypted(config, encrypt), decrypt) == config
  {
    var saved := Encrypted(config, encrypt);
    var back := Decrypted(saved, decrypt);
    forall k | k in config ensures back[k] == config[k] {
      var v := config[k];
      if Ciphered(k, v) {
        match encrypt(v.s)
        case Some(c) => assert saved[k] == Str(c) && Ciphered(k, saved[k]);
        case None => assert saved[k] == v;
      }
    }
  }

  /** A manager over the defaults saves the defaults unchanged, their API key being
      empty. */
  lemma DefaultsSaveVerbatim(encrypt: string -> Option<string>)
    ensures Encrypted(DefaultConfig, encrypt) == DefaultConfig
  {
    DefaultConfigConsistent();
    EncryptedTouchesOnlyApiKey(DefaultConfig, encrypt);
  }
}
