/** frontend/src/contexts/SettingsContext.js: the settings reducer with its
    `localStorage` writes, the merge-and-save of the three server-side
    configurations, and `importSettings`. State, payloads and stored values
    are JavaScript values (module Json). */
module SettingsContext {

  import opened Options
  import opened Json

  /** `localStorage`, holding for each key the value whose text was stored:
      the string itself for `theme` and `language`, the value that
      `JSON.stringify` wrote for the flags. */
  type Storage = map<string, Value>

  /** A dispatched action: `{ type, payload }`; `RESET_SETTINGS` ignores its payload. */
  datatype Action = Action(kind: string, payload: Value)

  const SetThemeAction := "SET_THEME"
  const SetLanguageAction := "SET_LANGUAGE"
  const SetAutoSaveAction := "SET_AUTO_SAVE"
  const SetNotificationsAction := "SET_NOTIFICATIONS"
  const SetCompactModeAction := "SET_COMPACT_MODE"
  const SetSidebarCollapsedAction := "SET_SIDEBAR_COLLAPSED"
  const UpdateLlmConfigAction := "UPDATE_LLM_CONFIG"
  const UpdateWeChatConfigAction := "UPDATE_WECHAT_CONFIG"
  const UpdateCrawlConfigAction := "UPDATE_CRAWL_CONFIG"
  const SetLoadingAction := "SET_LOADING"
  const ResetSettingsAction := "RESET_SETTINGS"
  const LoadSettingsAction := "LOAD_SETTINGS"

  /** The six preferences that are mirrored in `localStorage`, which are also
      the `validKeys` of `importSettings`. */
  const StoredKeys: seq<string> := ["theme", "language", "autoSave", "notifications", "compactMode", "sidebarCollapsed"]

  /** The `SET_*` action for each stored preference. */
  function SetterFor(key: string): (action: Option<string>)
    ensures action.Some? <==> key in StoredKeys
  {
    if key == "theme" then Some(SetThemeAction)
    else if key == "language" then Some(SetLanguageAction)
    else if key == "autoSave" then Some(SetAutoSaveAction)
    else if key == "notifications" then Some(SetNotificationsAction)
    else if key == "compactMode" then Some(SetCompactModeAction)
    else if key == "sidebarCollapsed" then Some(SetSidebarCollapsedAction)
    else None
  }

  /** The preference a `SET_*` action writes, read back from the action type. */
  function SetField(kind: string): (key: Option<string>)
    ensures key.Some? ==> key.value in StoredKeys && SetterFor(key.value) == Some(kind)
    ensures forall k :: k in StoredKeys && SetterFor(k) == Some(kind) ==> key == Some(k)
  {
    if kind == SetThemeAction then Some("theme")
    else if kind == SetLanguageAction then Some("language")
    else if kind == SetAutoSaveAction then Some("autoSave")
    else if kind == SetNotificationsAction then Some("notifications")
    else if kind == SetCompactModeAction then Some("compactMode")
    else if kind == SetSidebarCollapsedAction then Some("sidebarCollapsed")
    else None
  }

  /** The sub-configuration an `UPDATE_*_CONFIG` action merges into. */
  function ConfigField(kind: string): (key: Option<string>)
    ensures key.Some? ==> key.value in {"llmConfig", "wechatConfig", "crawlConfig"}
  {
    if kind == UpdateLlmConfigAction then Some("llmConfig")
    else if kind == UpdateWeChatConfigAction then Some("wechatConfig")
    else if kind == UpdateCrawlConfigAction then Some("crawlConfig")
    else None
  }

  function LlmDefaults(): Object {
    map["provider" := Str("openai"), "apiKey" := Str(""), "baseUrl" := Str("https://api.openai.com/v1"),
        "model" := Str("gpt-4"), "temperature" := Num(0.7)]
  }

  function WeChatDefaults(): Object {
    map["appId" := Str(""), "appSecret" := Str(""), "token" := Str("")]
  }

  function CrawlDefaults(): Object {
    map["sources" := Arr([]), "schedule" := Str("daily"), "autoRewrite" := Bool(true), "delay" := Num(2.0)]
  }

  /** `localStorage.getItem(key) || fallback` for a text preference. */
  function StoredText(storage: Storage, key: string, fallback: string): Value {
    if key in storage && storage[key] != Str("") then storage[key] else Str(fallback)
  }

  /** `JSON.parse(localStorage.getItem(key) || fallback)` for a flag. */
  function StoredFlag(storage: Storage, key: string, fallback: bool): Value {
    if key in storage then storage[key] else Bool(fallback)
  }

  /** `initialState`, read once from `localStorage` when the module loads. */
  function InitialState(storage: Storage): (s: Object)
    ensures s.Keys == {"theme", "language", "autoSave", "notifications", "compactMode", "sidebarCollapsed",
                       "llmConfig", "wechatConfig", "crawlConfig", "loading"}
    ensures s["loading"] == Bool(false)
    ensures s["llmConfig"] == Obj(LlmDefaults()) && s["wechatConfig"] == Obj(WeChatDefaults()) && s["crawlConfig"] == Obj(CrawlDefaults())
  {
    map[
      "theme" := StoredText(storage, "theme", "light"),
      "language" := StoredText(storage, "language", "zh-CN"),
      "autoSave" := StoredFlag(storage, "autoSave", true),
      "notifications" := StoredFlag(storage, "notifications", true),
      "compactMode" := StoredFlag(storage, "compactMode", false),
      "sidebarCollapsed" := StoredFlag(storage, "sidebarCollapsed", false),
      "llmConfig" := Obj(LlmDefaults()),
      "wechatConfig" := Obj(WeChatDefaults()),
      "crawlConfig" := Obj(CrawlDefaults()),
      "loading" := Bool(false)]
  }

  /** `{ ...state.k }`: the fields of the property, none when it is missing. */
  function Fields(state: Object, k: string): Object {
    if k in state then SpreadFields(state[k]) else map[]
  }

  /** `settingsReducer`: the next state and what is left in `localStorage`. */
  function Reduce(initial: Object, state: Object, storage: Storage, action: Action): (Object, Storage) {
    var t := action.kind;
    if SetField(t).Some? then
      var k := SetField(t).value;
      (state[k := action.payload], storage[k := action.payload])
    else if ConfigField(t).Some? then
      var k := ConfigField(t).value;
      (state[k := Obj(Fields(state, k) + SpreadFields(action.payload))], storage)
    else if t == SetLoadingAction then
      (state["loading" := action.payload], storage)
    else if t == LoadSettingsAction then
      (state + SpreadFields(action.payload), storage)
    else if t == ResetSettingsAction then
      (Reset(initial, state), storage - set k | k in StoredKeys)
    else
      (state, storage)
  }

  /** The `RESET_SETTINGS` state: `initialState` with the three configurations
      kept from the current state. */
  function Reset(initial: Object, state: Object): Object {
    // `llmConfig: state.llmConfig` creates the property even when it is undefined (here `Null`)
    initial + map k | k in ConfigKeys :: if k in state then state[k] else Null
  }

  const ConfigKeys: set<string> := {"llmConfig", "wechatConfig", "crawlConfig"}

  /** Each `SET_*` action changes only its own field, in the state and in
      `localStorage`. */
  lemma {:induction false} SetChangesOnlyItsField(initial: Object, state: Object, storage: Storage, key: string, v: Value)
    requires key in StoredKeys
    ensures var r := Reduce(initial, state, storage, Action(SetterFor(key).value, v));
      && r == (state[key := v], storage[key := v])
      && r.0[key] == v && r.1[key] == v
      && (forall k :: k != key ==> (k in r.0 <==> k in state) && (k in state ==> r.0[k] == state[k]))
      && (forall k :: k != key ==> (k in r.1 <==> k in storage) && (k in storage ==> r.1[k] == storage[k]))
  {
  }

  /** `UPDATE_*_CONFIG` overwrites exactly the payload's keys inside its own
      sub-configuration; other keys there, and every other property, are kept. */
  lemma {:induction false} UpdateMergesConfig(initial: Object, state: Object, storage: Storage, kind: string, payload: Object)
    requires ConfigField(kind).Some?
    ensures var key := ConfigField(kind).value;
      var r := Reduce(initial, state, storage, Action(kind, Obj(payload)));
      && r.1 == storage
      && r.0[key].Obj?
      && (forall f :: f in payload ==> f in r.0[key].fields && r.0[key].fields[f] == payload[f])
      && (forall f :: f !in payload ==> (f in r.0[key].fields <==> f in Fields(state, key))
                                        && (f in Fields(state, key) ==> r.0[key].fields[f] == Fields(state, key)[f]))
      && (forall k :: k != key ==> (k in r.0 <==> k in state) && (k in state ==> r.0[k] == state[k]))
  {
    assert SetField(kind).None?;
  }

  /** `LOAD_SETTINGS` is a shallow merge of the payload; unknown actions
      change nothing. */
  lemma {:induction false} LoadAndUnknown(initial: Object, state: Object, storage: Storage, payload: Object, other: Action)
    requires SetField(other.kind).None? && ConfigField(other.kind).None?
    requires other.kind !in {SetLoadingAction, LoadSettingsAction, ResetSettingsAction}
    ensures Reduce(initial, state, storage, Action(LoadSettingsAction, Obj(payload))) == (state + payload, storage)
    ensures Reduce(initial, state, storage, other) == (state, storage)
  {
    assert SetField(LoadSettingsAction).None?;
  }

  /** `RESET_SETTINGS` gives `initialState` except for the three kept
      configurations, clears the stored preferences, and a second reset
      changes nothing more. */
  lemma {:induction false} ResetKeepsConfigs(initial: Object, state: Object, storage: Storage, payload: Value)
    requires initial.Keys >= ConfigKeys && state.Keys >= ConfigKeys
    ensures var r := Reduce(initial, state, storage, Action(ResetSettingsAction, payload));
      && r.0.Keys == initial.Keys
      && (forall k :: k in initial && k !in ConfigKeys ==> r.0[k] == initial[k])
      && r.0["llmConfig"] == state["llmConfig"] && r.0["wechatConfig"] == state["wechatConfig"]
      && r.0["crawlConfig"] == state["crawlConfig"]
      && (forall k :: k in StoredKeys ==> k !in r.1)
      && Reduce(initial, r.0, r.1, Action(ResetSettingsAction, payload)) == r
  {
    var t := ResetSettingsAction;
    assert SetField(t).None? && ConfigField(t).None?;
    var s := Reset(initial, state);
    var cleared := storage - set k | k in StoredKeys;
    assert Reduce(initial, state, storage, Action(t, payload)) == (s, cleared);
    assert s.Keys == initial.Keys;
    assert Reset(initial, s) == s;
    assert cleared - (set k | k in StoredKeys) == cleared;
  }

  /** Where `initialState` takes each stored preference from. */
  lemma {:induction false} InitialStateReads(storage: Storage)
    ensures var s := InitialState(storage);
      && s["theme"] == StoredText(storage, "theme", "light") && s["language"] == StoredText(storage, "language", "zh-CN")
      && s["autoSave"] == StoredFlag(storage, "autoSave", true) && s["notifications"] == StoredFlag(storage, "notifications", true)
      && s["compactMode"] == StoredFlag(storage, "compactMode", false)
      && s["sidebarCollapsed"] == StoredFlag(storage, "sidebarCollapsed", false)
  {
  }

  /** A preference set through its action is what `initialState` reads back
      after a reload (an empty theme or language string falls back to the
      default). */
  lemma {:induction false} PreferenceSurvivesReload(initial: Object, state: Object, storage: Storage, key: string, v: Value)
    requires key in StoredKeys && (key == "theme" || key == "language" ==> v.Str? && v != Str(""))
    ensures InitialState(Reduce(initial, state, storage, Action(SetterFor(key).value, v)).1)[key] == v
  {
    var stored := storage[key := v];
    assert Reduce(initial, state, storage, Action(SetterFor(key).value, v)).1 == stored by {
      SetChangesOnlyItsField(initial, state, storage, key, v);
    }
    InitialStateReads(stored);
  }

  /** After `RESET_SETTINGS` a reload gives every preference its default. */
  lemma {:induction false} ResetReloadsDefaults(initial: Object, state: Object, storage: Storage, payload: Value)
    ensures var cleared := Reduce(initial, state, storage, Action(ResetSettingsAction, payload)).1;
      && InitialState(cleared)["theme"] == Str("light") && InitialState(cleared)["language"] == Str("zh-CN")
      && InitialState(cleared)["autoSave"] == Bool(true) && InitialState(cleared)["notifications"] == Bool(true)
      && InitialState(cleared)["compactMode"] == Bool(false) && InitialState(cleared)["sidebarCollapsed"] == Bool(false)
  {
    var cleared := storage - set k | k in StoredKeys;
    assert Reduce(initial, state, storage, Action(ResetSettingsAction, payload)).1 == cleared by {
      assert SetField(ResetSettingsAction).None? && ConfigField(ResetSettingsAction).None?;
    }
    assert forall k :: k in StoredKeys ==> k !in cleared;
    InitialStateReads(cleared);
  }

  // ---------------------------------------------------------------------------
  // updateLLMConfig / updateWeChatConfig / updateCrawlConfig

  /** How the server answers `POST /api/config`: `response.ok`, a refusal, or
      a network error. */
  datatype Reply = Accepted | Refused | NetworkError

  /** What `saveServerConfig` sends: the configuration key and the object
      that is stringified as its value. */
  datatype SaveRequest = SaveRequest(key: string, config: Object)

  /** `saveServerConfig`: nothing is sent without a token. */
  function SaveServerConfig(token: Option<string>, key: string, config: Object, reply: Reply): (r: (bool, Option<SaveRequest>))
    ensures r.1.Some? <==> token.Some? && token.value != ""
    ensures r.1.Some? ==> r.1.value == SaveRequest(key, config)
    ensures r.0 <==> r.1.Some? && reply == Accepted
  {
    if token.None? || token.value == "" then (false, None)
    else (reply == Accepted, Some(SaveRequest(key, config)))
  }

  /** The server key of each sub-configuration. */
  function ServerKey(kind: string): string
    requires ConfigField(kind).Some?
  {
    if kind == UpdateLlmConfigAction then "llm_config"
    else if kind == UpdateWeChatConfigAction then "wechat_config"
    else "crawl_config"
  }

  datatype UpdateResult = UpdateResult(state: Object, storage: Storage, success: bool, sent: Option<SaveRequest>)

  /** `updateLLMConfig` and its two siblings: dispatch the merge, then save
      `{ ...state.xConfig, ...config }` computed from the same state. */
  function UpdateConfig(initial: Object, state: Object, storage: Storage, kind: string, config: Object,
                        token: Option<string>, reply: Reply): UpdateResult
    requires ConfigField(kind).Some?
  {
    var next := Reduce(initial, state, storage, Action(kind, Obj(config)));
    var saved := SaveServerConfig(token, ServerKey(kind), Fields(state, ConfigField(kind).value) + config, reply);
    UpdateResult(next.0, next.1, saved.0, saved.1)
  }

  /** The configuration sent to the server is the one the reducer stores. */
  lemma {:induction false} SentConfigIsStored(initial: Object, state: Object, storage: Storage, kind: string, config: Object,
                           token: Option<string>, reply: Reply)
    requires ConfigField(kind).Some?
    ensures var u := UpdateConfig(initial, state, storage, kind, config, token, reply);
      u.sent.Some? ==> Obj(u.sent.value.config) == u.state[ConfigField(kind).value]
    ensures var u := UpdateConfig(initial, state, storage, kind, config, token, reply);
      u.success ==> u.sent.Some? && u.sent.value.key == ServerKey(kind)
  {
    assert SetField(kind).None?;
  }

  // ---------------------------------------------------------------------------
  // importSettings

  /** What the `FileReader` produced: the parsed JSON, text `JSON.parse`
      refuses, or a read error. */
  datatype SettingsFile = Parsed(settings: Value) | Unparsable | Unreadable

  datatype ImportError = InvalidFormat | ParseError | ReadError

  datatype ImportResult = Imported(state: Object, storage: Storage, settings: Value) | Rejected(error: ImportError)

  /** `validKeys.some(key => settings.hasOwnProperty(key))` */
  predicate HasValidKey(settings: Value) {
    settings.Obj? && exists k :: k in StoredKeys && k in settings.fields
  }

  /** The valid entries of an imported object. */
  function ValidEntries(fields: Object): (m: Object)
    ensures forall k :: k in m <==> k in fields && k in StoredKeys
  {
    map k | k in fields && k in StoredKeys :: fields[k]
  }

  /** `importSettings`: a file without a valid key is rejected; otherwise each
      valid entry is applied through its setter, in whatever order
      `Object.entries` lists them, and every other entry is ignored. */
  method ImportSettings(initial: Object, state: Object, storage: Storage, file: SettingsFile) returns (r: ImportResult)
    ensures file.Unreadable? ==> r == Rejected(ReadError)
    ensures file.Unparsable? ==> r == Rejected(ParseError)
    ensures file.Parsed? && !HasValidKey(file.settings) ==> r == Rejected(InvalidFormat)
    ensures file.Parsed? && HasValidKey(file.settings) ==>
      r == Imported(state + ValidEntries(file.settings.fields), storage + ValidEntries(file.settings.fields), file.settings)
  {
    if file.Unreadable? {
      return Rejected(ReadError);
    }
    if file.Unparsable? {
      return Rejected(ParseError);
    }
    var settings := file.settings;
    if !settings.Obj? {
      return Rejected(InvalidFormat);
    }
    var isValid := false;
    for i := 0 to |StoredKeys|
      invariant isValid <==> exists j :: 0 <= j < i && StoredKeys[j] in settings.fields
    {
      if StoredKeys[i] in settings.fields {
        isValid := true;
      }
    }
    if !isValid {
      return Rejected(InvalidFormat);
    }
    var s, st := state, storage;
    var entries := settings.fields.Keys;
    ghost var applied: set<string> := {};
    while entries != {}
      invariant entries + applied == settings.fields.Keys && entries !! applied
      invariant AppliedOver(s, state, settings.fields, applied)
      invariant AppliedOver(st, storage, settings.fields, applied)
      decreases entries
    {
      var key :| key in entries;
      var value := settings.fields[key];
      var setter := SetterFor(key);
      ApplyOne(s, state, settings.fields, applied, key);
      ApplyOne(st, storage, settings.fields, applied, key);
      if setter.Some? {
        SetChangesOnlyItsField(initial, s, st, key, value);
        var next := Reduce(initial, s, st, Action(setter.value, value));
        s, st := next.0, next.1;
      }
      entries := entries - {key};
      applied := applied + {key};
    }
    AppliedAll(s, state, settings.fields);
    AppliedAll(st, storage, settings.fields);
    r := Imported(s, st, settings);
  }

  /** `m` is `base` with the valid entries among `applied` written over it. */
  ghost predicate AppliedOver(m: map<string, Value>, base: map<string, Value>, fields: Object, applied: set<string>) {
    forall k :: (k in m <==> k in base || (k in applied && k in fields && k in StoredKeys))
      && (k in m ==> m[k] == (if k in applied && k in fields && k in StoredKeys then fields[k] else base[k]))
  }

  lemma {:induction false} ApplyOne(m: map<string, Value>, base: map<string, Value>, fields: Object, applied: set<string>, key: string)
    requires AppliedOver(m, base, fields, applied) && key in fields
    ensures key in StoredKeys ==> AppliedOver(m[key := fields[key]], base, fields, applied + {key})
    ensures key !in StoredKeys ==> AppliedOver(m, base, fields, applied + {key})
  {
  }

  lemma {:induction false} AppliedAll(m: map<string, Value>, base: map<string, Value>, fields: Object)
    requires AppliedOver(m, base, fields, fields.Keys)
    ensures m == base + ValidEntries(fields)
  {
  }
}
