/**
  The settings store (src/stores/settings.ts): four bounded generation
  parameters with per-field setters that ignore out-of-range values, a reset,
  and a load that adopts a stored payload only if all of it validates.
  Reading and parsing the stored text are abstracted: a load receives what
  `JSON.parse` produced, and whether reading or parsing threw.
 */
module Settings {
  import opened Wrappers
  import opened Types

  /** `defaultSettings` */
  const DefaultSettings: AppSettings := AppSettings(0.6, 2000.0, 0.8, 40.0)

  predicate TemperatureInRange(v: real) { 0.0 <= v <= 2.0 }

  predicate MaxOutputTokensInRange(v: real) { 0.0 < v <= 8192.0 }

  predicate TopPInRange(v: real) { 0.0 <= v <= 1.0 }

  predicate TopKInRange(v: real) { 1.0 <= v <= 100.0 }

  /** Every field of `s` lies in its range. */
  predicate IsValid(s: AppSettings) {
    && TemperatureInRange(s.temperature)
    && MaxOutputTokensInRange(s.maxOutputTokens)
    && TopPInRange(s.topP)
    && TopKInRange(s.topK)
  }

  /**
    The value `JSON.parse` produced from the stored text: something other than
    an object (or `null`), or an object whose four properties are each a number
    (`Some`) or missing or of another type (`None`).
   */
  datatype RawSettings =
    | NotAnObject
    | Record(temperature: Option<real>, maxOutputTokens: Option<real>, topP: Option<real>, topK: Option<real>)

  /**
    `isValidSettings`: accepts only an object whose four properties are
    numbers, and such a record exactly when its settings are valid.
   */
  predicate IsValidSettings(raw: RawSettings): (ok: bool)
    ensures ok ==> raw.Record? && raw.temperature.Some? && raw.maxOutputTokens.Some? && raw.topP.Some? && raw.topK.Some?
    ensures forall s :: raw == Serialize(s) ==> (ok <==> IsValid(s))
  {
    && raw.Record?
    && raw.temperature.Some? && TemperatureInRange(raw.temperature.value)
    && raw.maxOutputTokens.Some? && MaxOutputTokensInRange(raw.maxOutputTokens.value)
    && raw.topP.Some? && TopPInRange(raw.topP.value)
    && raw.topK.Some? && TopKInRange(raw.topK.value)
  }

  /** The object `JSON.stringify` writes for `s`. */
  function Serialize(s: AppSettings): (raw: RawSettings) {
    Record(Some(s.temperature), Some(s.maxOutputTokens), Some(s.topP), Some(s.topK))
  }

  /**
    `{ ...defaultSettings, ...parsed }` for a payload that validated: every
    default is overridden, so the payload's own values are adopted.
   */
  function Adopt(raw: RawSettings): (s: AppSettings)
    requires IsValidSettings(raw)
    ensures IsValid(s)
    ensures Serialize(s) == raw
  {
    AppSettings(raw.temperature.value, raw.maxOutputTokens.value, raw.topP.value, raw.topK.value)
  }

  /** Valid settings survive a save and a load unchanged. */
  lemma SaveLoadRoundTrip(s: AppSettings)
    ensures IsValid(s) ==> Adopt(Serialize(s)) == s
  {
  }

  /** The defaults are valid. */
  lemma DefaultsAreValid()
    ensures IsValid(DefaultSettings)
  {
  }

  /** A payload with one field out of range is rejected as a whole. */
  lemma OutOfRangeRejected()
    ensures IsValidSettings(Serialize(AppSettings(0.6, 2000.0, 0.8, 40.0)))
    ensures !IsValidSettings(Serialize(AppSettings(3.0, 2000.0, 0.8, 40.0)))
  {
  }

  datatype SettingsError = SaveSettingsFailed

  class SettingsStore {
    /** `settings` */
    var settings: AppSettings

    constructor ()
      ensures settings == DefaultSettings && IsValid(settings)
    {
      settings := DefaultSettings;
    }

    /** `loadSettings(stored)`; `failed` is whether reading or `JSON.parse` threw. */
    method LoadSettings(stored: Option<RawSettings>, failed: bool)
      modifies this
      ensures failed ==> settings == DefaultSettings
      ensures !failed && stored.Some? && IsValidSettings(stored.value) ==> settings == Adopt(stored.value)
      ensures !failed && (stored.None? || !IsValidSettings(stored.value)) ==> settings == old(settings)
      ensures IsValid(old(settings)) ==> IsValid(settings)
    {
      if failed {
        settings := DefaultSettings;
        return;
      }
      if stored.Some? && IsValidSettings(stored.value) {
        settings := Adopt(stored.value);
      }
    }

    /**
      `saveSettings`: the record written to storage, unless the write fails;
      loading it back gives the current settings.
     */
    method SaveSettings(fail: bool) returns (r: Result<RawSettings, SettingsError>)
      ensures fail ==> r == Err(SaveSettingsFailed)
      ensures !fail ==> r == Ok(Serialize(settings))
      ensures r.Ok? ==> (IsValidSettings(r.value) <==> IsValid(settings))
      ensures r.Ok? && IsValid(settings) ==> Adopt(r.value) == settings
    {
      if fail {
        return Err(SaveSettingsFailed);
      }
      return Ok(Serialize(settings));
    }

    method UpdateTemperature(value: real)
      modifies this
      ensures settings == if TemperatureInRange(value) then old(settings).(temperature := value) else old(settings)
      ensures IsValid(old(settings)) ==> IsValid(settings)
    {
      if TemperatureInRange(value) {
        settings := settings.(temperature := value);
      }
    }

    method UpdateMaxOutputTokens(value: real)
      modifies this
      ensures settings == if MaxOutputTokensInRange(value) then old(settings).(maxOutputTokens := value) else old(settings)
      ensures IsValid(old(settings)) ==> IsValid(settings)
    {
      if MaxOutputTokensInRange(value) {
        settings := settings.(maxOutputTokens := value);
      }
    }

    method UpdateTopP(value: real)
      modifies this
      ensures settings == if TopPInRange(value) then old(settings).(topP := value) else old(settings)
      ensures IsValid(old(settings)) ==> IsValid(settings)
    {
      if TopPInRange(value) {
        settings := settings.(topP := value);
      }
    }

    method UpdateTopK(value: real)
      modifies this
      ensures settings == if TopKInRange(value) then old(settings).(topK := value) else old(settings)
      ensures IsValid(old(settings)) ==> IsValid(settings)
    {
      if TopKInRange(value) {
        settings := settings.(topK := value);
      }
    }

    /** `resetSettings` */
    method ResetSettings()
      modifies this
      ensures settings == DefaultSettings && IsValid(settings)
    {
      settings := DefaultSettings;
    }
  }
}
