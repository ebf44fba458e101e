/**
 * The configuration page (app/config/page.tsx): one record `{phoneNumber}`
 * kept in the browser's localStorage under the key "qrScannerConfig", loaded
 * into the page's phoneNumber field when the page mounts and written back
 * wholesale on save.
 */
module ConfigStore {
  import opened Wrappers

  /** The key both the configuration page and the scanner use. */
  const ConfigKey: string := "qrScannerConfig"

  /**
   * The stored record, after JSON.parse. `phoneNumber` is None when the
   * stored object has no such field.
   */
  datatype Config = Config(phoneNumber: Option<string>)

  /** The browser's localStorage, shared by every page of the origin. */
  class LocalStorage {
    var items: map<string, Config>

    constructor ()
      ensures items == map[]
    {
      items := map[];
    }
  }

  /** `localStorage.getItem(key)`, as the parsed record it holds. */
  function GetItem(items: map<string, Config>, key: string): (r: Option<Config>)
    ensures r.Some? <==> key in items
    ensures r.Some? ==> r.value == items[key]
  {
    if key in items then Some(items[key]) else None
  }

  /** `record.phoneNumber || ""`: the number a stored record yields, "" when it has none. */
  function PhoneNumberOf(record: Config): (p: string)
    ensures p != "" ==> record.phoneNumber == Some(p)
    ensures record.phoneNumber.Some? ==> p == record.phoneNumber.value
    ensures record.phoneNumber == None ==> p == ""
  {
    record.phoneNumber.GetOr("")
  }

  /**
   * The number the configuration currently in storage designates, "" when
   * nothing is stored or the stored record carries no number.
   */
  function SavedPhoneNumber(items: map<string, Config>): (p: string)
    ensures ConfigKey !in items ==> p == ""
    ensures p != "" ==> ConfigKey in items && items[ConfigKey].phoneNumber == Some(p)
    ensures ConfigKey in items && items[ConfigKey].phoneNumber.Some? ==> p == items[ConfigKey].phoneNumber.value
  {
    match GetItem(items, ConfigKey)
    case None => ""
    case Some(record) => PhoneNumberOf(record)
  }

  /** The storage after `localStorage.setItem(ConfigKey, JSON.stringify({phoneNumber}))`. */
  function SaveConfig(items: map<string, Config>, phoneNumber: string): (saved: map<string, Config>)
    ensures ConfigKey in saved && saved[ConfigKey] == Config(Some(phoneNumber))
    ensures saved.Keys == items.Keys + {ConfigKey}
    ensures forall k :: k in items && k != ConfigKey ==> saved[k] == items[k]
  {
    items[ConfigKey := Config(Some(phoneNumber))]
  }

  /** Saving creates no entry but the configuration key: a key that was absent is still not found. */
  lemma SaveConfigFrame(items: map<string, Config>, phoneNumber: string)
    ensures forall k :: k !in items && k != ConfigKey ==> GetItem(SaveConfig(items, phoneNumber), k) == None
  {
  }

  /** What was saved is what is loaded: the number comes back verbatim, "" included. */
  lemma SaveThenLoad(items: map<string, Config>, phoneNumber: string)
    ensures SavedPhoneNumber(SaveConfig(items, phoneNumber)) == phoneNumber
  {
  }

  /** A later save replaces an earlier one entirely. */
  lemma SaveOverwrites(items: map<string, Config>, first: string, second: string)
    ensures SaveConfig(SaveConfig(items, first), second) == SaveConfig(items, second)
  {
  }

  /** The `Config` page component: its phoneNumber state, and the storage it reads and writes. */
  class ConfigPage {
    var phoneNumber: string
    const storage: LocalStorage
    /** The route `router.push` was last asked for. */
    ghost var navigatedTo: Option<string>

    /** `useState("")`: the field starts empty. */
    constructor (storage: LocalStorage)
      ensures this.storage == storage
      ensures phoneNumber == "" && navigatedTo == None
    {
      this.storage := storage;
      phoneNumber := "";
      navigatedTo := None;
    }

    /**
     * The mount effect (lines 14-19): with a stored entry the field takes its
     * number ("" when the record has none); with no entry it is left alone.
     */
    method LoadEffect()
      modifies this
      ensures ConfigKey in storage.items ==> phoneNumber == SavedPhoneNumber(storage.items)
      ensures ConfigKey !in storage.items ==> phoneNumber == old(phoneNumber)
      ensures navigatedTo == old(navigatedTo)
    {
      var saved := GetItem(storage.items, ConfigKey);
      if saved.Some? {
        phoneNumber := PhoneNumberOf(saved.value);
      }
    }

    /** The input's onChange handler (line 40). */
    method SetPhoneNumber(value: string)
      modifies this
      ensures phoneNumber == value && navigatedTo == old(navigatedTo)
    {
      phoneNumber := value;
    }

    /** `handleSave` (lines 21-24): store the field under the configuration key, then go to "/". */
    method HandleSave()
      modifies storage, this
      ensures storage.items == SaveConfig(old(storage.items), phoneNumber)
      ensures SavedPhoneNumber(storage.items) == phoneNumber
      ensures phoneNumber == old(phoneNumber) && navigatedTo == Some("/")
    {
      storage.items := SaveConfig(storage.items, phoneNumber);
      navigatedTo := Some("/");
    }
  }
}
