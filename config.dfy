/** The extension's settings: the record kept in memory, its defaults, and the
    key/value object it is saved as and merged from when the extension loads. */
module Config {

  /** The seven settings. `originalOpacity` is a percentage: the avatar's inline
      opacity is this value divided by 100. */
  datatype Settings = Settings(
    enabled: bool,
    expressionMode: bool,
    replaceAll: bool,
    avatarHeight: int,
    mobileHeight: int,
    keepOriginal: bool,
    originalOpacity: int)

  const Defaults: Settings := Settings(
    enabled := true,
    expressionMode := false,
    replaceAll := false,
    avatarHeight := 150,
    mobileHeight := 100,
    keepOriginal := true,
    originalOpacity := 30)

  /** One JSON value of the saved settings object. Keys the extension does not
      know may hold any JSON; `OtherValue` stands for those. */
  datatype Value = BoolValue(b: bool) | IntValue(i: int) | OtherValue(json: string)

  const SettingKeys: set<string> :=
    {"enabled", "expressionMode", "replaceAll", "avatarHeight", "mobileHeight", "keepOriginal", "originalOpacity"}

  /** The object that is serialised when the settings are saved. */
  function ToMap(s: Settings): (m: map<string, Value>)
    ensures m.Keys == SettingKeys
    ensures m["enabled"] == BoolValue(s.enabled) && m["expressionMode"] == BoolValue(s.expressionMode)
    ensures m["replaceAll"] == BoolValue(s.replaceAll) && m["keepOriginal"] == BoolValue(s.keepOriginal)
    ensures m["avatarHeight"] == IntValue(s.avatarHeight) && m["mobileHeight"] == IntValue(s.mobileHeight)
    ensures m["originalOpacity"] == IntValue(s.originalOpacity)
  {
    map[
      "enabled" := BoolValue(s.enabled),
      "expressionMode" := BoolValue(s.expressionMode),
      "replaceAll" := BoolValue(s.replaceAll),
      "avatarHeight" := IntValue(s.avatarHeight),
      "mobileHeight" := IntValue(s.mobileHeight),
      "keepOriginal" := BoolValue(s.keepOriginal),
      "originalOpacity" := IntValue(s.originalOpacity)]
  }

  /** `Object.assign({}, defaults, saved)`: every key of either object is
      present, a saved value wins over a default, and keys the defaults do not
      know are kept. */
  function Merge(defaults: map<string, Value>, saved: map<string, Value>): (r: map<string, Value>)
    ensures r.Keys == defaults.Keys + saved.Keys
    ensures forall k :: k in saved ==> r[k] == saved[k]
    ensures forall k :: k in defaults && k !in saved ==> r[k] == defaults[k]
  {
    defaults + saved
  }

  /** Every known key that the object holds has a value of that setting's kind. */
  predicate Conforms(m: map<string, Value>) {
    && ("enabled" in m ==> m["enabled"].BoolValue?)
    && ("expressionMode" in m ==> m["expressionMode"].BoolValue?)
    && ("replaceAll" in m ==> m["replaceAll"].BoolValue?)
    && ("avatarHeight" in m ==> m["avatarHeight"].IntValue?)
    && ("mobileHeight" in m ==> m["mobileHeight"].IntValue?)
    && ("keepOriginal" in m ==> m["keepOriginal"].BoolValue?)
    && ("originalOpacity" in m ==> m["originalOpacity"].IntValue?)
  }

  /** Reads the settings record back out of an object that holds every key. */
  function FromMap(m: map<string, Value>): Settings
    requires SettingKeys <= m.Keys && Conforms(m)
  {
    Settings(
      m["enabled"].b, m["expressionMode"].b, m["replaceAll"].b,
      m["avatarHeight"].i, m["mobileHeight"].i,
      m["keepOriginal"].b, m["originalOpacity"].i)
  }

  /** The settings after loading a saved object: each setting the saved object
      holds is taken from it, and every other one comes from the defaults. */
  function LoadedSettings(saved: map<string, Value>): (s: Settings)
    requires Conforms(saved)
    ensures s.enabled == if "enabled" in saved then saved["enabled"].b else Defaults.enabled
    ensures s.expressionMode == if "expressionMode" in saved then saved["expressionMode"].b else Defaults.expressionMode
    ensures s.replaceAll == if "replaceAll" in saved then saved["replaceAll"].b else Defaults.replaceAll
    ensures s.avatarHeight == if "avatarHeight" in saved then saved["avatarHeight"].i else Defaults.avatarHeight
    ensures s.mobileHeight == if "mobileHeight" in saved then saved["mobileHeight"].i else Defaults.mobileHeight
    ensures s.keepOriginal == if "keepOriginal" in saved then saved["keepOriginal"].b else Defaults.keepOriginal
    ensures s.originalOpacity == if "originalOpacity" in saved then saved["originalOpacity"].i else Defaults.originalOpacity
  {
    FromMap(Merge(ToMap(Defaults), saved))
  }

  /** Saving the settings and loading them again gives back the same record. */
  lemma SaveThenLoad(s: Settings)
    ensures Conforms(ToMap(s)) && LoadedSettings(ToMap(s)) == s
  {
  }

  /** A saved object whose known keys are all missing loads as the defaults,
      whatever unknown keys it carries. */
  lemma LoadWithoutKnownKeys(saved: map<string, Value>)
    requires saved.Keys !! SettingKeys
    ensures Conforms(saved) && LoadedSettings(saved) == Defaults
  {
  }

  /** The mode toggle: expression mode is flipped and nothing else changes. */
  function FlipMode(s: Settings): (r: Settings)
    ensures r.expressionMode != s.expressionMode
    ensures r.(expressionMode := s.expressionMode) == s
  {
    s.(expressionMode := !s.expressionMode)
  }

  /** Two toggles restore the settings. */
  lemma FlipModeTwice(s: Settings)
    ensures FlipMode(FlipMode(s)) == s
  {
  }
}
