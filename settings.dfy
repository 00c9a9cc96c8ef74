/**
 * The settings store: the user's test duration, sound switch and font size, the
 * conversions between the remote API's format and the local one, and the store
 * actions that load, update, save and reset them.
 *
 * The JSON text kept in `localStorage` under 'keyflow_settings' is modelled by its
 * parsed form (`Stored`); the auth token is read from the shared `Storage`.
 */
module Settings {
  import opened Common
  import opened WebStorage
  import opened Toasts

  datatype FontSize = Small | Medium | Large

  /** Local settings. The duration is typed as one of 15, 30, 60, 120 but nothing checks values from the API. */
  datatype Settings = Settings(testDuration: int, soundEnabled: bool, fontSize: FontSize)

  /** The API's settings record; an absent field is `undefined`. */
  datatype ApiSettings = ApiSettings(testDuration: Option<int>, soundEnabled: Option<bool>, fontSize: Option<int>)

  /** A settings response: the record nested under `settings`, or the record itself. */
  datatype SettingsResponse = Nested(settings: ApiSettings) | Flat(data: ApiSettings)

  /** What `JSON.parse` yields for the stored backup: a malformed text, or an object with some of the fields. */
  datatype Stored = Malformed | Fields(testDuration: Option<int>, soundEnabled: Option<bool>, fontSize: Option<FontSize>)

  /** One field of the settings and its new value (`updateSetting(key, value)`). */
  datatype SettingUpdate = SetTestDuration(duration: int) | SetSoundEnabled(enabled: bool) | SetFontSize(size: FontSize)

  const DefaultSettings: Settings := Settings(60, false, Medium)

  const SavedMessage: string := "Settings saved"
  const SaveFailedMessage: string := "Failed to save settings"
  const ResetMessage: string := "Settings reset to defaults"
  const ResetFailedMessage: string := "Failed to reset settings"

  predicate ValidDuration(d: int) {
    d == 15 || d == 30 || d == 60 || d == 120
  }

  /** The font size a numeric API size maps to: absent or 0 is medium; up to 14 small; up to 18 medium; larger is large. */
  function FontSizeOf(px: Option<int>): (f: FontSize)
    ensures !TruthyNumber(px) ==> f == Medium
    ensures TruthyNumber(px) ==> (f == Small <==> px.value <= 14)
    ensures TruthyNumber(px) ==> (f == Medium <==> 14 < px.value <= 18)
    ensures TruthyNumber(px) ==> (f == Large <==> 18 < px.value)
  {
    if TruthyNumber(px) then
      if px.value <= 14 then Small
      else if px.value <= 18 then Medium
      else Large
    else Medium
  }

  /** `apiToLocal`: missing or zero duration becomes 60, missing sound becomes false. */
  function ApiToLocal(api: ApiSettings): (s: Settings)
    ensures s.testDuration == (if TruthyNumber(api.testDuration) then api.testDuration.value else 60)
    ensures s.testDuration != 0
    ensures s.soundEnabled == api.soundEnabled.GetOr(false)
    ensures s.fontSize == FontSizeOf(api.fontSize)
  {
    Settings(
      if TruthyNumber(api.testDuration) then api.testDuration.value else 60,
      api.soundEnabled.GetOr(false),
      FontSizeOf(api.fontSize))
  }

  /** The pixel size `localToApi` sends for a font size. */
  function PixelsOf(f: FontSize): (px: int)
    ensures (px == 14 <==> f == Small) && (px == 16 <==> f == Medium) && (px == 20 <==> f == Large)
    ensures FontSizeOf(Some(px)) == f
  {
    match f
    case Small => 14
    case Medium => 16
    case Large => 20
  }

  /** `localToApi`: the sizes become 14, 16 and 20 pixels; duration and sound are copied. */
  function LocalToApi(s: Settings): (api: ApiSettings)
    ensures api.testDuration == Some(s.testDuration) && api.soundEnabled == Some(s.soundEnabled)
    ensures api.fontSize == Some(PixelsOf(s.fontSize)) && FontSizeOf(api.fontSize) == s.fontSize
  {
    ApiSettings(Some(s.testDuration), Some(s.soundEnabled), Some(PixelsOf(s.fontSize)))
  }

  /** Converting to the API format and back gives the same settings, for every duration but 0 (so every valid one). */
  lemma RoundTrip(s: Settings)
    requires s.testDuration != 0
    ensures ApiToLocal(LocalToApi(s)) == s
  {
  }

  lemma RoundTripValid(s: Settings)
    requires ValidDuration(s.testDuration)
    ensures ApiToLocal(LocalToApi(s)) == s
  {
    RoundTrip(s);
  }

  /** A duration of 0 does not survive the round trip: the API side reads it as missing. */
  lemma ZeroDurationDoesNotRoundTrip(s: Settings)
    requires s.testDuration == 0
    ensures ApiToLocal(LocalToApi(s)).testDuration == 60
  {
  }

  /** Reading an API record, writing it back and reading it again gives the first reading. */
  lemma ApiToLocalNormalises(api: ApiSettings)
    ensures ApiToLocal(LocalToApi(ApiToLocal(api))) == ApiToLocal(api)
  {
    RoundTrip(ApiToLocal(api));
  }

  /** `(response.data)?.settings || response.data` */
  function Unwrap(r: SettingsResponse): ApiSettings {
    match r
    case Nested(inner) => inner
    case Flat(data) => data
  }

  /** `{ ...DEFAULT_SETTINGS, ...saved }`: every field the saved object has overrides the default. */
  function Merge(defaults: Settings, saved: Stored): (s: Settings)
    requires saved.Fields?
    ensures s.testDuration == saved.testDuration.GetOr(defaults.testDuration)
    ensures s.soundEnabled == saved.soundEnabled.GetOr(defaults.soundEnabled)
    ensures s.fontSize == saved.fontSize.GetOr(defaults.fontSize)
  {
    Settings(
      saved.testDuration.GetOr(defaults.testDuration),
      saved.soundEnabled.GetOr(defaults.soundEnabled),
      saved.fontSize.GetOr(defaults.fontSize))
  }

  /** `JSON.stringify(settings)`, as parsed back: every field present. */
  function Persisted(s: Settings): (saved: Stored)
    ensures saved.Fields? && saved.testDuration.Some? && saved.soundEnabled.Some? && saved.fontSize.Some?
  {
    Fields(Some(s.testDuration), Some(s.soundEnabled), Some(s.fontSize))
  }

  /** Whether the response nests the record under `settings` or not, the same settings are read from it. */
  lemma UnwrapEitherShape(api: ApiSettings)
    ensures Unwrap(Nested(api)) == Unwrap(Flat(api)) == api
    ensures ApiToLocal(Unwrap(Nested(api))) == ApiToLocal(Unwrap(Flat(api)))
  {
  }

  /** Saving the settings and loading them back over the defaults gives them back. */
  lemma MergePersisted(s: Settings, defaults: Settings)
    ensures Merge(defaults, Persisted(s)) == s
  {
  }

  /** `settings.value[key] = value`: only the named field changes. */
  function Update(s: Settings, u: SettingUpdate): (r: Settings)
    ensures r.testDuration == (if u.SetTestDuration? then u.duration else s.testDuration)
    ensures r.soundEnabled == (if u.SetSoundEnabled? then u.enabled else s.soundEnabled)
    ensures r.fontSize == (if u.SetFontSize? then u.size else s.fontSize)
  {
    match u
    case SetTestDuration(d) => s.(testDuration := d)
    case SetSoundEnabled(b) => s.(soundEnabled := b)
    case SetFontSize(f) => s.(fontSize := f)
  }

  class SettingsStore {
    var settings: Settings
    var loading: bool
    /** The parsed backup under 'keyflow_settings' in `localStorage`, if there is one. */
    var backup: Option<Stored>

    /**
     * The store starts from the defaults and immediately runs `loadSettings`: with
     * no backup and no token it holds the defaults.
     */
    constructor (backup: Option<Stored>, local: Storage, response: Result<SettingsResponse, string>)
      ensures !loading
      ensures Truthy(local.GetItem(AuthTokenKey)) && response.Ok? ==>
        settings == ApiToLocal(Unwrap(response.value)) && this.backup == Some(Persisted(settings))
      ensures !(Truthy(local.GetItem(AuthTokenKey)) && response.Ok?) ==>
        && settings == (if backup.Some? && backup.value.Fields? then Merge(DefaultSettings, backup.value) else DefaultSettings)
        && this.backup == backup
    {
      settings := DefaultSettings;
      loading := false;
      this.backup := backup;
      new;
      LoadSettings(local, response);
    }

    /**
     * `loadSettings`: a well-formed backup is merged over the defaults (a malformed
     * one is ignored); then, with a token, the API's settings (if the request
     * succeeds) replace them and are written back as the backup.
     */
    method LoadSettings(local: Storage, response: Result<SettingsResponse, string>)
      modifies this
      ensures loading == (old(loading) && !Truthy(local.GetItem(AuthTokenKey)))
      ensures var fromBackup := if old(backup).Some? && old(backup).value.Fields? then Merge(DefaultSettings, old(backup).value) else old(settings);
        if Truthy(local.GetItem(AuthTokenKey)) && response.Ok? then
          settings == ApiToLocal(Unwrap(response.value)) && backup == Some(Persisted(settings))
        else
          settings == fromBackup && backup == old(backup)
    {
      if backup.Some? && backup.value.Fields? {
        settings := Merge(DefaultSettings, backup.value);
      }
      var token := local.GetItem(AuthTokenKey);
      if Truthy(token) {
        loading := true;
        if response.Ok? {
          settings := ApiToLocal(Unwrap(response.value));
          backup := Some(Persisted(settings));
        }
        loading := false;
      }
    }

    /**
     * `saveSettings`: writes the backup; with a token also sends `localToApi(settings)`,
     * returned as `sent`, and reports the outcome of that request as a notice.
     */
    method SaveSettings(local: Storage, requestOk: bool) returns (sent: Option<ApiSettings>, notice: Option<Notice>)
      modifies this`backup
      ensures backup == Some(Persisted(settings))
      ensures Truthy(local.GetItem(AuthTokenKey)) ==>
        && sent == Some(LocalToApi(settings))
        && notice == Some(if requestOk then Notice(Success, SavedMessage) else Notice(Error, SaveFailedMessage))
      ensures !Truthy(local.GetItem(AuthTokenKey)) ==> sent == None && notice == None
    {
      backup := Some(Persisted(settings));
      sent, notice := None, None;
      var token := local.GetItem(AuthTokenKey);
      if Truthy(token) {
        sent := Some(LocalToApi(settings));
        notice := Some(if requestOk then Notice(Success, SavedMessage) else Notice(Error, SaveFailedMessage));
      }
    }

    /** `updateSetting(key, value)`: changes that one field and saves. */
    method UpdateSetting(u: SettingUpdate, local: Storage, requestOk: bool) returns (sent: Option<ApiSettings>, notice: Option<Notice>)
      modifies this`settings, this`backup
      ensures settings == Update(old(settings), u)
      ensures backup == Some(Persisted(settings))
      ensures Truthy(local.GetItem(AuthTokenKey)) ==>
        && sent == Some(LocalToApi(settings))
        && notice == Some(if requestOk then Notice(Success, SavedMessage) else Notice(Error, SaveFailedMessage))
      ensures !Truthy(local.GetItem(AuthTokenKey)) ==> sent == None && notice == None
    {
      settings := Update(settings, u);
      sent, notice := SaveSettings(local, requestOk);
    }

    /**
     * `resetSettings`: with a token, the API's reset settings on success, the defaults
     * on failure; without a token, the defaults, saved locally. Either way the new
     * settings are backed up and a notice reports the outcome.
     */
    method ResetSettings(local: Storage, response: Result<SettingsResponse, string>) returns (notice: Notice)
      modifies this`settings, this`backup, this`loading
      ensures loading == (old(loading) && !Truthy(local.GetItem(AuthTokenKey)))
      ensures backup == Some(Persisted(settings))
      ensures !Truthy(local.GetItem(AuthTokenKey)) ==>
        settings == DefaultSettings && notice == Notice(Success, ResetMessage)
      ensures Truthy(local.GetItem(AuthTokenKey)) && response.Ok? ==>
        settings == ApiToLocal(Unwrap(response.value)) && notice == Notice(Success, ResetMessage)
      ensures Truthy(local.GetItem(AuthTokenKey)) && response.Err? ==>
        settings == DefaultSettings && notice == Notice(Error, ResetFailedMessage)
    {
      var token := local.GetItem(AuthTokenKey);
      if Truthy(token) {
        loading := true;
        if response.Ok? {
          settings := ApiToLocal(Unwrap(response.value));
          backup := Some(Persisted(settings));
          notice := Notice(Success, ResetMessage);
        } else {
          settings := DefaultSettings;
          backup := Some(Persisted(settings));
          notice := Notice(Error, ResetFailedMessage);
        }
        loading := false;
      } else {
        settings := DefaultSettings;
        var sent, saved := SaveSettings(local, true);
        notice := Notice(Success, ResetMessage);
      }
    }
  }
}
