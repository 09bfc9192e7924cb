/** The user's settings in the browser's local storage (hermes-interface/utils/userSettings.ts):
    a read that falls back to defaults field by field, and a save and a reset that touch one key. */
module UserSettingsStore {
  import opened Values

  /** The `UserSettings` interface (hermes-interface/types/types.ts). */
  datatype UserSettings = UserSettings(name: string, phone: string, address: string)

  /** What `getUserSettings` returns. A stored document is not checked against the interface,
      so a field read back from storage can be any JSON value. */
  datatype LoadedSettings = LoadedSettings(name: Json, phone: Json, address: Json)

  /** A string held in local storage, known by what `JSON.parse` makes of it. The empty string
      is falsy and never reaches the parser. */
  datatype StoredValue = EmptyString | Malformed | Document(doc: Json)

  type Storage = map<string, StoredValue>

  const SettingsKey: string := "hermes_user_settings"

  const DefaultName: string := "Evan"
  const DefaultPhone: string := "705-606-0865"
  const DefaultAddress: string := "123 Your Street, Your City"

  const Defaults: LoadedSettings := LoadedSettings(JStr(DefaultName), JStr(DefaultPhone), JStr(DefaultAddress))

  /** `JSON.stringify(settings)`, as `JSON.parse` reads it back. */
  function Encode(s: UserSettings): Json {
    JObj(map["name" := JStr(s.name), "phone" := JStr(s.phone), "address" := JStr(s.address)])
  }

  /** `parsed.key || fallback` on a parsed document that is not `null`. */
  function FieldOr(doc: Json, key: string, fallback: string): (v: Json)
    requires !doc.JNull?
    ensures doc.JObj? && key in doc.fields && JsTruthy(doc.fields[key]) ==> v == doc.fields[key]
    ensures !(doc.JObj? && key in doc.fields && JsTruthy(doc.fields[key])) ==> v == JStr(fallback)
  {
    match JsProp(doc, key)
    case Ok(p) => JsOr(p, JStr(fallback))
    case Err(_) => JStr(fallback)
  }

  /** `getUserSettings`: no window, nothing stored, an empty string, a value that does not
      parse, or a parsed `null` (whose `.name` throws) all give the defaults; any other
      document gives each field or, when that field is missing or falsy, its default. */
  function Load(hasWindow: bool, storage: Storage): (r: LoadedSettings)
    ensures !hasWindow ==> r == Defaults
    ensures hasWindow && SettingsKey !in storage ==> r == Defaults
    ensures hasWindow && SettingsKey in storage && !storage[SettingsKey].Document? ==> r == Defaults
    ensures hasWindow && SettingsKey in storage && storage[SettingsKey] == Document(JNull) ==> r == Defaults
    ensures hasWindow && SettingsKey in storage && storage[SettingsKey].Document?
            && !storage[SettingsKey].doc.JNull? ==>
      var doc := storage[SettingsKey].doc;
      r == LoadedSettings(FieldOr(doc, "name", DefaultName), FieldOr(doc, "phone", DefaultPhone),
                          FieldOr(doc, "address", DefaultAddress))
  {
    if !hasWindow || SettingsKey !in storage then Defaults
    else
      match storage[SettingsKey]
      case EmptyString => Defaults
      case Malformed => Defaults
      case Document(parsed) =>
        match JsProp(parsed, "name")
        case Err(_) => Defaults
        case Ok(name) =>
          LoadedSettings(JsOr(name, JStr(DefaultName)), FieldOr(parsed, "phone", DefaultPhone),
                         FieldOr(parsed, "address", DefaultAddress))
  }

  /** A saved setting as it is read back: the empty string is falsy and gives way to the default. */
  function ReadBack(value: string, fallback: string): (v: Json)
    ensures value != "" ==> v == JStr(value)
    ensures value == "" ==> v == JStr(fallback)
  {
    if value != "" then JStr(value) else JStr(fallback)
  }

  /** `settings` as `getUserSettings` returns it right after it was saved. */
  function Filled(s: UserSettings): (r: LoadedSettings)
    ensures r.name == ReadBack(s.name, DefaultName)
    ensures r.phone == ReadBack(s.phone, DefaultPhone)
    ensures r.address == ReadBack(s.address, DefaultAddress)
    ensures s.name != "" && s.phone != "" && s.address != "" ==>
      r == LoadedSettings(JStr(s.name), JStr(s.phone), JStr(s.address))
  {
    LoadedSettings(ReadBack(s.name, DefaultName), ReadBack(s.phone, DefaultPhone),
                   ReadBack(s.address, DefaultAddress))
  }

  /** Reading back a save gives the saved settings, each empty field replaced by its default,
      whatever else the storage holds. */
  lemma SaveLoadRoundTrip(s: UserSettings, storage: Storage)
    ensures Load(true, storage[SettingsKey := Document(Encode(s))]) == Filled(s)
  {
    var doc := Encode(s);
    assert doc.fields["name"] == JStr(s.name);
    assert doc.fields["phone"] == JStr(s.phone);
    assert doc.fields["address"] == JStr(s.address);
  }

  /** The read depends on the settings key alone. */
  lemma LoadReadsOnlyKey(hasWindow: bool, st1: Storage, st2: Storage)
    requires SettingsKey in st1 <==> SettingsKey in st2
    requires SettingsKey in st1 ==> st1[SettingsKey] == st2[SettingsKey]
    ensures Load(hasWindow, st1) == Load(hasWindow, st2)
  {
  }

  /** Local storage as the page sees it, and whether the code runs in a browser at all. */
  class SettingsStore {
    const hasWindow: bool
    var storage: Storage

    constructor(hasWindow: bool, storage: Storage)
      ensures this.hasWindow == hasWindow && this.storage == storage
    {
      this.hasWindow := hasWindow;
      this.storage := storage;
    }

    /** `getUserSettings()`. */
    function Get(): (r: LoadedSettings)
      reads this
      ensures !hasWindow || SettingsKey !in storage || !storage[SettingsKey].Document? ==> r == Defaults
      ensures hasWindow && SettingsKey in storage && storage[SettingsKey] == Document(JNull) ==> r == Defaults
      ensures hasWindow && SettingsKey in storage && storage[SettingsKey].Document?
              && !storage[SettingsKey].doc.JNull? ==>
        var doc := storage[SettingsKey].doc;
        r == LoadedSettings(FieldOr(doc, "name", DefaultName), FieldOr(doc, "phone", DefaultPhone),
                            FieldOr(doc, "address", DefaultAddress))
    {
      Load(hasWindow, storage)
    }

    /** `saveUserSettings(settings)`: one key is written; without a window nothing happens. */
    method Save(settings: UserSettings)
      modifies this
      ensures hasWindow ==> storage == old(storage)[SettingsKey := Document(Encode(settings))]
      ensures !hasWindow ==> storage == old(storage)
      ensures forall k :: k != SettingsKey ==> (k in storage <==> k in old(storage))
      ensures forall k :: k != SettingsKey && k in storage ==> storage[k] == old(storage)[k]
      ensures hasWindow ==> Get() == Filled(settings)
      ensures !hasWindow ==> Get() == Defaults
    {
      if !hasWindow {
        return;
      }
      storage := storage[SettingsKey := Document(Encode(settings))];
      SaveLoadRoundTrip(settings, old(storage));
    }

    /** `resetUserSettings()`: one key is removed, so the next read gives the defaults. */
    method Reset()
      modifies this
      ensures hasWindow ==> storage == old(storage) - {SettingsKey}
      ensures !hasWindow ==> storage == old(storage)
      ensures forall k :: k != SettingsKey ==> (k in storage <==> k in old(storage))
      ensures forall k :: k != SettingsKey && k in storage ==> storage[k] == old(storage)[k]
      ensures Get() == Defaults
    {
      if !hasWindow {
        return;
      }
      storage := storage - {SettingsKey};
    }
  }
}
