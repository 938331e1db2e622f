/**
 * Per-user preferences (managers/preferences_manager.py): the
 * `UserPreferences` record with its defaults and its dictionary form, the
 * favourite-template list, single-field updates and the five-minute
 * in-memory cache in front of the preference table.
 *
 * The table is a map from user id to a stored record; times are whole
 * seconds of one clock and `now` is passed in where the source reads it.
 */
module PreferencesManager {
  import opened Wrappers
  import opened Json

  const NotificationAll := "all"
  const NotificationImportant := "important"
  const NotificationErrorOnly := "error_only"
  const NotificationNone := "none"

  const ThemeDefault := "default"
  const ThemeDark := "dark"
  const ThemeLight := "light"
  const ThemeColorful := "colorful"

  datatype UserPreferences = UserPreferences(
    userId: int,
    // danmaku
    defaultColor: string,
    defaultPosition: string,
    defaultFontSize: int,
    defaultDuration: int,
    favoriteTemplates: seq<string>,
    // interface
    theme: string,
    language: string,
    notificationLevel: string,
    autoRefreshStatus: bool,
    showStatistics: bool,
    // behaviour
    autoStartQueue: bool,
    defaultPriority: int,
    batchSendInterval: real,
    maxQueueSize: int,
    enableCache: bool,
    // security and privacy
    logOperations: bool,
    shareStatistics: bool,
    autoBackup: bool,
    sessionTimeout: int,
    // advanced
    apiTimeout: int,
    retryAttempts: int,
    rateLimit: int,
    debugMode: bool,
    createdAt: int,
    updatedAt: int)

  /** `UserPreferences(user_id=user)` created at `now`. */
  function Defaults(user: int, now: int): UserPreferences {
    UserPreferences(user, "#FFFFFF", "scroll", 24, 5, [],
      ThemeDefault, "zh-CN", NotificationImportant, true, true,
      false, 3, 1.0, 100, true,
      true, false, true, 3600,
      30, 3, 10, false, now, now)
  }

  // ---------------------------------------------------------------------
  // to_dict / from_dict

  const PrefKeys: set<string> := {
    "user_id", "default_color", "default_position", "default_font_size", "default_duration",
    "favorite_templates", "theme", "language", "notification_level", "auto_refresh_status",
    "show_statistics", "auto_start_queue", "default_priority", "batch_send_interval",
    "max_queue_size", "enable_cache", "log_operations", "share_statistics", "auto_backup",
    "session_timeout", "api_timeout", "retry_attempts", "rate_limit", "debug_mode",
    "created_at", "updated_at"}

  /** A list of names as a JSON array of strings. */
  function Render(names: seq<string>): (r: seq<JsonValue>)
    ensures |r| == |names| && forall i :: 0 <= i < |r| ==> r[i] == JStr(names[i])
  {
    if names == [] then [] else [JStr(names[0])] + Render(names[1..])
  }

  /** A JSON array of strings as a list of names; `None` when an item is not a string. */
  function Names(items: seq<JsonValue>): (r: Option<seq<string>>)
  {
    if items == [] then Some([])
    else if !items[0].JStr? then None
    else match Names(items[1..])
      case Some(rest) => Some([items[0].s] + rest)
      case None => None
  }

  /** Reading back a rendered list gives the list. */
  lemma {:induction false} NamesRender(names: seq<string>)
    ensures Names(Render(names)) == Some(names)
  {
    if names != [] {
      var r := Render(names);
      assert r[0] == JStr(names[0]) && r[1..] == Render(names[1..]);
      NamesRender(names[1..]);
      assert [names[0]] + names[1..] == names;
    }
  }

  /** A list read from an array renders back as that array. */
  lemma {:induction false} RenderNames(items: seq<JsonValue>)
    requires Names(items).Some?
    ensures Render(Names(items).value) == items
  {
    if items != [] {
      RenderNames(items[1..]);
    }
  }

  /** The value `to_dict` writes under `key`, or `None` when `key` is not a field. */
  function FieldValue(p: UserPreferences, key: string, iso: IsoCodec): Option<JsonValue> {
    if key == "user_id" then Some(JInt(p.userId))
    else if key == "default_color" then Some(JStr(p.defaultColor))
    else if key == "default_position" then Some(JStr(p.defaultPosition))
    else if key == "default_font_size" then Some(JInt(p.defaultFontSize))
    else if key == "default_duration" then Some(JInt(p.defaultDuration))
    else if key == "favorite_templates" then Some(JArr(Render(p.favoriteTemplates)))
    else if key == "theme" then Some(JStr(p.theme))
    else if key == "language" then Some(JStr(p.language))
    else if key == "notification_level" then Some(JStr(p.notificationLevel))
    else if key == "auto_refresh_status" then Some(JBool(p.autoRefreshStatus))
    else if key == "show_statistics" then Some(JBool(p.showStatistics))
    else if key == "auto_start_queue" then Some(JBool(p.autoStartQueue))
    else if key == "default_priority" then Some(JInt(p.defaultPriority))
    else if key == "batch_send_interval" then Some(JReal(p.batchSendInterval))
    else if key == "max_queue_size" then Some(JInt(p.maxQueueSize))
    else if key == "enable_cache" then Some(JBool(p.enableCache))
    else if key == "log_operations" then Some(JBool(p.logOperations))
    else if key == "share_statistics" then Some(JBool(p.shareStatistics))
    else if key == "auto_backup" then Some(JBool(p.autoBackup))
    else if key == "session_timeout" then Some(JInt(p.sessionTimeout))
    else if key == "api_timeout" then Some(JInt(p.apiTimeout))
    else if key == "retry_attempts" then Some(JInt(p.retryAttempts))
    else if key == "rate_limit" then Some(JInt(p.rateLimit))
    else if key == "debug_mode" then Some(JBool(p.debugMode))
    else if key == "created_at" then Some(JStr(iso.format(p.createdAt)))
    else if key == "updated_at" then Some(JStr(iso.format(p.updatedAt)))
    else None
  }

  /** `UserPreferences.to_dict`: every field under its own name, the two
      timestamps as ISO texts. */
  function ToDict(p: UserPreferences, iso: IsoCodec): (d: map<string, JsonValue>)
    ensures d.Keys <= PrefKeys
  {
    map key | key in PrefKeys && FieldValue(p, key, iso).Some? :: FieldValue(p, key, iso).value
  }

  /** The favourites field: `[]` when absent or null, the names of an array of strings. */
  function NamesField(d: map<string, JsonValue>): Option<seq<string>> {
    if "favorite_templates" !in d || d["favorite_templates"] == JNull then Some([])
    else match d["favorite_templates"]
      case JArr(items) => Names(items)
      case _ => None
  }

  /** `UserPreferences.from_dict`: `user_id` is required, an unknown key is
      an error, every other field has its default, and an absent or null
      timestamp is `now`. */
  function FromDict(d: map<string, JsonValue>, iso: IsoCodec, now: int): Option<UserPreferences> {
    if !(d.Keys <= PrefKeys) then None else Decode(d, iso, now)
  }

  /** The fields of a dictionary with no unknown key, as preferences. */
  function Decode(d: map<string, JsonValue>, iso: IsoCodec, now: int): Option<UserPreferences> {
    var user := IntField(d, "user_id", None);
    var color := StrField(d, "default_color", Some("#FFFFFF"));
    var position := StrField(d, "default_position", Some("scroll"));
    var fontSize := IntField(d, "default_font_size", Some(24));
    var duration := IntField(d, "default_duration", Some(5));
    var favorites := NamesField(d);
    var theme := StrField(d, "theme", Some(ThemeDefault));
    var language := StrField(d, "language", Some("zh-CN"));
    var notification := StrField(d, "notification_level", Some(NotificationImportant));
    var autoRefresh := BoolField(d, "auto_refresh_status", true);
    var showStats := BoolField(d, "show_statistics", true);
    var autoStart := BoolField(d, "auto_start_queue", false);
    var priority := IntField(d, "default_priority", Some(3));
    var interval := RealField(d, "batch_send_interval", 1.0);
    var maxQueue := IntField(d, "max_queue_size", Some(100));
    var enableCache := BoolField(d, "enable_cache", true);
    var logOps := BoolField(d, "log_operations", true);
    var share := BoolField(d, "share_statistics", false);
    var backup := BoolField(d, "auto_backup", true);
    var session := IntField(d, "session_timeout", Some(3600));
    var api := IntField(d, "api_timeout", Some(30));
    var retries := IntField(d, "retry_attempts", Some(3));
    var rate := IntField(d, "rate_limit", Some(10));
    var debug := BoolField(d, "debug_mode", false);
    var created := TimeField(d, "created_at", iso);
    var updated := TimeField(d, "updated_at", iso);
    if user.None? || color.None? || position.None? || fontSize.None? || duration.None?
       || favorites.None? || theme.None? || language.None? || notification.None?
       || autoRefresh.None? || showStats.None? || autoStart.None? || priority.None?
       || interval.None? || maxQueue.None? || enableCache.None? || logOps.None?
       || share.None? || backup.None? || session.None? || api.None? || retries.None?
       || rate.None? || debug.None? || created.None? || updated.None?
    then None
    else Some(UserPreferences(user.value, color.value, position.value, fontSize.value,
      duration.value, favorites.value, theme.value, language.value, notification.value,
      autoRefresh.value, showStats.value, autoStart.value, priority.value, interval.value,
      maxQueue.value, enableCache.value, logOps.value, share.value, backup.value,
      session.value, api.value, retries.value, rate.value, debug.value,
      if created.value.Some? then created.value.value else now,
      if updated.value.Some? then updated.value.value else now))
  }

  /** A dictionary holding only `user_id` gives the documented defaults. */
  lemma FromDictDefaults(user: int, iso: IsoCodec, now: int)
    ensures FromDict(map["user_id" := JInt(user)], iso, now) == Some(Defaults(user, now))
  {
  }

  /** `d` holds the danmaku fields of `p` as `to_dict` writes them. */
  predicate DanmakuHolds(d: map<string, JsonValue>, p: UserPreferences, iso: IsoCodec) {
    IntField(d, "user_id", None) == Some(p.userId)
    && StrField(d, "default_color", Some("#FFFFFF")) == Some(p.defaultColor)
    && StrField(d, "default_position", Some("scroll")) == Some(p.defaultPosition)
    && IntField(d, "default_font_size", Some(24)) == Some(p.defaultFontSize)
    && IntField(d, "default_duration", Some(5)) == Some(p.defaultDuration)
    && NamesField(d) == Some(p.favoriteTemplates)
  }

  /** The danmaku fields of `to_dict(p)` read back as those of `p`. */
  lemma DanmakuFieldsRoundTrip(p: UserPreferences, iso: IsoCodec)
    ensures DanmakuHolds(ToDict(p, iso), p, iso)
  {
    ToDictAt(p, "user_id", iso, JInt(p.userId));
    ToDictAt(p, "default_color", iso, JStr(p.defaultColor));
    ToDictAt(p, "default_position", iso, JStr(p.defaultPosition));
    ToDictAt(p, "default_font_size", iso, JInt(p.defaultFontSize));
    ToDictAt(p, "default_duration", iso, JInt(p.defaultDuration));
    ToDictAt(p, "favorite_templates", iso, JArr(Render(p.favoriteTemplates)));
    NamesRender(p.favoriteTemplates);
  }

  /** `d` holds the interface fields of `p` as `to_dict` writes them. */
  predicate InterfaceHolds(d: map<string, JsonValue>, p: UserPreferences, iso: IsoCodec) {
    StrField(d, "theme", Some(ThemeDefault)) == Some(p.theme)
    && StrField(d, "language", Some("zh-CN")) == Some(p.language)
    && StrField(d, "notification_level", Some(NotificationImportant)) == Some(p.notificationLevel)
    && BoolField(d, "auto_refresh_status", true) == Some(p.autoRefreshStatus)
    && BoolField(d, "show_statistics", true) == Some(p.showStatistics)
  }

  /** The interface fields of `to_dict(p)` read back as those of `p`. */
  lemma InterfaceFieldsRoundTrip(p: UserPreferences, iso: IsoCodec)
    ensures InterfaceHolds(ToDict(p, iso), p, iso)
  {
    ToDictAt(p, "theme", iso, JStr(p.theme));
    ToDictAt(p, "language", iso, JStr(p.language));
    ToDictAt(p, "notification_level", iso, JStr(p.notificationLevel));
    ToDictAt(p, "auto_refresh_status", iso, JBool(p.autoRefreshStatus));
    ToDictAt(p, "show_statistics", iso, JBool(p.showStatistics));
  }

  /** `d` holds the behaviour fields of `p` as `to_dict` writes them. */
  predicate BehaviourHolds(d: map<string, JsonValue>, p: UserPreferences, iso: IsoCodec) {
    BoolField(d, "auto_start_queue", false) == Some(p.autoStartQueue)
    && IntField(d, "default_priority", Some(3)) == Some(p.defaultPriority)
    && RealField(d, "batch_send_interval", 1.0) == Some(p.batchSendInterval)
    && IntField(d, "max_queue_size", Some(100)) == Some(p.maxQueueSize)
    && BoolField(d, "enable_cache", true) == Some(p.enableCache)
  }

  /** The behaviour fields of `to_dict(p)` read back as those of `p`. */
  lemma BehaviourFieldsRoundTrip(p: UserPreferences, iso: IsoCodec)
    ensures BehaviourHolds(ToDict(p, iso), p, iso)
  {
    ToDictAt(p, "auto_start_queue", iso, JBool(p.autoStartQueue));
    ToDictAt(p, "default_priority", iso, JInt(p.defaultPriority));
    ToDictAt(p, "batch_send_interval", iso, JReal(p.batchSendInterval));
    ToDictAt(p, "max_queue_size", iso, JInt(p.maxQueueSize));
    ToDictAt(p, "enable_cache", iso, JBool(p.enableCache));
  }

  /** `d` holds the privacy fields of `p` as `to_dict` writes them. */
  predicate PrivacyHolds(d: map<string, JsonValue>, p: UserPreferences, iso: IsoCodec) {
    BoolField(d, "log_operations", true) == Some(p.logOperations)
    && BoolField(d, "share_statistics", false) == Some(p.shareStatistics)
    && BoolField(d, "auto_backup", true) == Some(p.autoBackup)
    && IntField(d, "session_timeout", Some(3600)) == Some(p.sessionTimeout)
  }

  /** The privacy fields of `to_dict(p)` read back as those of `p`. */
  lemma PrivacyFieldsRoundTrip(p: UserPreferences, iso: IsoCodec)
    ensures PrivacyHolds(ToDict(p, iso), p, iso)
  {
    ToDictAt(p, "log_operations", iso, JBool(p.logOperations));
    ToDictAt(p, "share_statistics", iso, JBool(p.shareStatistics));
    ToDictAt(p, "auto_backup", iso, JBool(p.autoBackup));
    ToDictAt(p, "session_timeout", iso, JInt(p.sessionTimeout));
  }

  /** `d` holds the advanced fields of `p` as `to_dict` writes them. */
  predicate AdvancedHolds(d: map<string, JsonValue>, p: UserPreferences) {
    IntField(d, "api_timeout", Some(30)) == Some(p.apiTimeout)
    && IntField(d, "retry_attempts", Some(3)) == Some(p.retryAttempts)
    && IntField(d, "rate_limit", Some(10)) == Some(p.rateLimit)
    && BoolField(d, "debug_mode", false) == Some(p.debugMode)
  }

  /** The advanced fields of `to_dict(p)` read back as those of `p`. */
  lemma AdvancedFieldsRoundTrip(p: UserPreferences, iso: IsoCodec)
    ensures AdvancedHolds(ToDict(p, iso), p)
  {
    ToDictAt(p, "api_timeout", iso, JInt(p.apiTimeout));
    ToDictAt(p, "retry_attempts", iso, JInt(p.retryAttempts));
    ToDictAt(p, "rate_limit", iso, JInt(p.rateLimit));
    ToDictAt(p, "debug_mode", iso, JBool(p.debugMode));
  }

  /** `d` holds the timestamps of `p` as `to_dict` writes them. */
  predicate TimesHold(d: map<string, JsonValue>, p: UserPreferences, iso: IsoCodec) {
    TimeField(d, "created_at", iso) == Some(Some(p.createdAt))
    && TimeField(d, "updated_at", iso) == Some(Some(p.updatedAt))
  }

  /** The timestamps of `to_dict(p)` read back as those of `p` when the
      ISO codec round-trips. */
  lemma TimesRoundTrip(p: UserPreferences, iso: IsoCodec)
    requires RoundTrips(iso)
    ensures TimesHold(ToDict(p, iso), p, iso)
  {
    ToDictAt(p, "created_at", iso, JStr(iso.format(p.createdAt)));
    ToDictAt(p, "updated_at", iso, JStr(iso.format(p.updatedAt)));
    var d := ToDict(p, iso);
    TimeFieldRoundTrip(d, "created_at", iso, Some(p.createdAt));
    TimeFieldRoundTrip(d, "updated_at", iso, Some(p.updatedAt));
  }

  /** `to_dict(p)[key]` for a field `key`. */
  lemma ToDictAt(p: UserPreferences, key: string, iso: IsoCodec, v: JsonValue)
    requires key in PrefKeys && FieldValue(p, key, iso) == Some(v)
    ensures key in ToDict(p, iso) && ToDict(p, iso)[key] == v
  {
  }

  /** A dictionary with no unknown key that holds the fields of `p` decodes as `p`. */
  lemma DecodeHolds(d: map<string, JsonValue>, p: UserPreferences, iso: IsoCodec, now: int)
    requires d.Keys <= PrefKeys
    requires DanmakuHolds(d, p, iso) && InterfaceHolds(d, p, iso) && BehaviourHolds(d, p, iso)
    requires PrivacyHolds(d, p, iso) && AdvancedHolds(d, p) && TimesHold(d, p, iso)
    ensures FromDict(d, iso, now) == Some(p)
  {
  }

  /** `from_dict(to_dict(p)) == p` for a codec that reads back what it writes. */
  lemma FromDictToDict(p: UserPreferences, iso: IsoCodec, now: int)
    requires RoundTrips(iso)
    ensures FromDict(ToDict(p, iso), iso, now) == Some(p)
  {
    DanmakuFieldsRoundTrip(p, iso);
    InterfaceFieldsRoundTrip(p, iso);
    BehaviourFieldsRoundTrip(p, iso);
    PrivacyFieldsRoundTrip(p, iso);
    AdvancedFieldsRoundTrip(p, iso);
    TimesRoundTrip(p, iso);
    DecodeHolds(ToDict(p, iso), p, iso, now);
  }

  // ---------------------------------------------------------------------
  // update_preference

  /** The attributes other than the fields that `hasattr` finds on a
      `UserPreferences` and that `setattr` accepts: the class's own methods,
      those `@dataclass` generates, and those inherited from `object`
      (Python 3.11 and later).  Setting one leaves every field as it was. */
  const OtherAttributes: set<string> := {
    "to_dict", "from_dict", "__post_init__",
    "__init__", "__repr__", "__eq__", "__hash__", "__match_args__",
    "__doc__", "__module__", "__annotations__", "__dataclass_fields__", "__dataclass_params__",
    "__delattr__", "__dir__", "__format__", "__ge__", "__getattribute__", "__getstate__",
    "__gt__", "__init_subclass__", "__le__", "__lt__", "__ne__", "__new__", "__reduce__",
    "__reduce_ex__", "__setattr__", "__sizeof__", "__str__", "__subclasshook__"
  }

  /** `setattr(p, key, v)` with `v` as the JSON value of the field's type;
      `None` when `hasattr` is false or `v` does not fit the field.
      `updated_at` takes any value because the save that follows overwrites
      it; a non-field attribute changes no field. */
  function SetField(p: UserPreferences, key: string, v: JsonValue, iso: IsoCodec): (r: Option<UserPreferences>)
    ensures r.Some? ==> key in PrefKeys || key in OtherAttributes
    ensures key in OtherAttributes ==> r == Some(p)
  {
    if key in OtherAttributes then Some(p)
    else if key == "user_id" then (if v.JInt? then Some(p.(userId := v.i)) else None)
    else if key == "default_color" then (if v.JStr? then Some(p.(defaultColor := v.s)) else None)
    else if key == "default_position" then (if v.JStr? then Some(p.(defaultPosition := v.s)) else None)
    else if key == "default_font_size" then (if v.JInt? then Some(p.(defaultFontSize := v.i)) else None)
    else if key == "default_duration" then (if v.JInt? then Some(p.(defaultDuration := v.i)) else None)
    else if key == "favorite_templates" then (if v.JArr? && Names(v.items).Some? then Some(p.(favoriteTemplates := Names(v.items).value)) else None)
    else if key == "theme" then (if v.JStr? then Some(p.(theme := v.s)) else None)
    else if key == "language" then (if v.JStr? then Some(p.(language := v.s)) else None)
    else if key == "notification_level" then (if v.JStr? then Some(p.(notificationLevel := v.s)) else None)
    else if key == "auto_refresh_status" then (if v.JBool? then Some(p.(autoRefreshStatus := v.b)) else None)
    else if key == "show_statistics" then (if v.JBool? then Some(p.(showStatistics := v.b)) else None)
    else if key == "auto_start_queue" then (if v.JBool? then Some(p.(autoStartQueue := v.b)) else None)
    else if key == "default_priority" then (if v.JInt? then Some(p.(defaultPriority := v.i)) else None)
    else if key == "batch_send_interval" then (if v.JReal? then Some(p.(batchSendInterval := v.r)) else None)
    else if key == "max_queue_size" then (if v.JInt? then Some(p.(maxQueueSize := v.i)) else None)
    else if key == "enable_cache" then (if v.JBool? then Some(p.(enableCache := v.b)) else None)
    else if key == "log_operations" then (if v.JBool? then Some(p.(logOperations := v.b)) else None)
    else if key == "share_statistics" then (if v.JBool? then Some(p.(shareStatistics := v.b)) else None)
    else if key == "auto_backup" then (if v.JBool? then Some(p.(autoBackup := v.b)) else None)
    else if key == "session_timeout" then (if v.JInt? then Some(p.(sessionTimeout := v.i)) else None)
    else if key == "api_timeout" then (if v.JInt? then Some(p.(apiTimeout := v.i)) else None)
    else if key == "retry_attempts" then (if v.JInt? then Some(p.(retryAttempts := v.i)) else None)
    else if key == "rate_limit" then (if v.JInt? then Some(p.(rateLimit := v.i)) else None)
    else if key == "debug_mode" then (if v.JBool? then Some(p.(debugMode := v.b)) else None)
    else if key == "created_at" then (if v.JStr? && iso.parse(v.s).Some? then Some(p.(createdAt := iso.parse(v.s).value)) else None)
    else if key == "updated_at" then (Some(p))
    else None
  }

  /** `q` differs from `p` at most in the field named `key`. */
  predicate OnlyField(p: UserPreferences, q: UserPreferences, key: string) {
    && (key != "user_id" ==> q.userId == p.userId)
    && (key != "default_color" ==> q.defaultColor == p.defaultColor)
    && (key != "default_position" ==> q.defaultPosition == p.defaultPosition)
    && (key != "default_font_size" ==> q.defaultFontSize == p.defaultFontSize)
    && (key != "default_duration" ==> q.defaultDuration == p.defaultDuration)
    && (key != "favorite_templates" ==> q.favoriteTemplates == p.favoriteTemplates)
    && (key != "theme" ==> q.theme == p.theme)
    && (key != "language" ==> q.language == p.language)
    && (key != "notification_level" ==> q.notificationLevel == p.notificationLevel)
    && (key != "auto_refresh_status" ==> q.autoRefreshStatus == p.autoRefreshStatus)
    && (key != "show_statistics" ==> q.showStatistics == p.showStatistics)
    && (key != "auto_start_queue" ==> q.autoStartQueue == p.autoStartQueue)
    && (key != "default_priority" ==> q.defaultPriority == p.defaultPriority)
    && (key != "batch_send_interval" ==> q.batchSendInterval == p.batchSendInterval)
    && (key != "max_queue_size" ==> q.maxQueueSize == p.maxQueueSize)
    && (key != "enable_cache" ==> q.enableCache == p.enableCache)
    && (key != "log_operations" ==> q.logOperations == p.logOperations)
    && (key != "share_statistics" ==> q.shareStatistics == p.shareStatistics)
    && (key != "auto_backup" ==> q.autoBackup == p.autoBackup)
    && (key != "session_timeout" ==> q.sessionTimeout == p.sessionTimeout)
    && (key != "api_timeout" ==> q.apiTimeout == p.apiTimeout)
    && (key != "retry_attempts" ==> q.retryAttempts == p.retryAttempts)
    && (key != "rate_limit" ==> q.rateLimit == p.rateLimit)
    && (key != "debug_mode" ==> q.debugMode == p.debugMode)
    && (key != "created_at" ==> q.createdAt == p.createdAt)
    && (key != "updated_at" ==> q.updatedAt == p.updatedAt)
  }

  /** After `setattr(p, key, v)` the record `q` holds `v` under `key`, as
      `to_dict` writes it; `created_at` holds the time its text parses to.
      `updated_at` is left to the save that follows. */
  predicate StoresValue(q: UserPreferences, key: string, v: JsonValue, iso: IsoCodec) {
    && (key in PrefKeys && key != "created_at" && key != "updated_at" ==> FieldValue(q, key, iso) == Some(v))
    && (key == "created_at" ==> v.JStr? && iso.parse(v.s) == Some(q.createdAt))
  }

  /** A successful `setattr` stores the value in the field named and
      changes no other field; a non-field attribute changes nothing. */
  lemma SetFieldStores(p: UserPreferences, key: string, v: JsonValue, iso: IsoCodec)
    requires SetField(p, key, v, iso).Some?
    ensures StoresValue(SetField(p, key, v, iso).value, key, v, iso)
    ensures OnlyField(p, SetField(p, key, v, iso).value, key)
  {
    if key in OtherAttributes {
      AttributesAreNotFields();
    } else if key in {"user_id", "default_color", "default_position", "default_font_size", "default_duration", "favorite_templates"} {
      SetDanmakuField(p, key, v, iso);
    } else if key in {"theme", "language", "notification_level", "auto_refresh_status", "show_statistics"} {
      SetInterfaceField(p, key, v, iso);
    } else if key in {"auto_start_queue", "default_priority", "batch_send_interval", "max_queue_size", "enable_cache"} {
      SetBehaviourField(p, key, v, iso);
    } else if key in {"log_operations", "share_statistics", "auto_backup", "session_timeout"} {
      SetPrivacyField(p, key, v, iso);
    } else if key in {"api_timeout", "retry_attempts", "rate_limit", "debug_mode"} {
      SetAdvancedField(p, key, v, iso);
    } else if key in {"created_at", "updated_at"} {
      SetTimesField(p, key, v, iso);
    }
  }

  lemma AttributesAreNotFields()
    ensures OtherAttributes !! PrefKeys
  {
  }

  lemma SetDanmakuField(p: UserPreferences, key: string, v: JsonValue, iso: IsoCodec)
    requires key in {"user_id", "default_color", "default_position", "default_font_size", "default_duration", "favorite_templates"}
    requires SetField(p, key, v, iso).Some?
    ensures StoresValue(SetField(p, key, v, iso).value, key, v, iso)
    ensures OnlyField(p, SetField(p, key, v, iso).value, key)
  {
    assert key in PrefKeys;
    assert key !in OtherAttributes by { AttributesAreNotFields(); }
    if key == "user_id" {
      assert SetField(p, key, v, iso).value == p.(userId := v.i);
    } else if key == "default_color" {
      assert SetField(p, key, v, iso).value == p.(defaultColor := v.s);
    } else if key == "default_position" {
      assert SetField(p, key, v, iso).value == p.(defaultPosition := v.s);
    } else if key == "default_font_size" {
      assert SetField(p, key, v, iso).value == p.(defaultFontSize := v.i);
    } else if key == "default_duration" {
      assert SetField(p, key, v, iso).value == p.(defaultDuration := v.i);
    } else {
      RenderNames(v.items);
      assert SetField(p, key, v, iso).value == p.(favoriteTemplates := Names(v.items).value);
    }
  }

  lemma SetInterfaceField(p: UserPreferences, key: string, v: JsonValue, iso: IsoCodec)
    requires key in {"theme", "language", "notification_level", "auto_refresh_status", "show_statistics"}
    requires SetField(p, key, v, iso).Some?
    ensures StoresValue(SetField(p, key, v, iso).value, key, v, iso)
    ensures OnlyField(p, SetField(p, key, v, iso).value, key)
  {
    assert key in PrefKeys;
    assert key !in OtherAttributes by { AttributesAreNotFields(); }
    if key == "theme" {
      assert SetField(p, key, v, iso).value == p.(theme := v.s);
    } else if key == "language" {
      assert SetField(p, key, v, iso).value == p.(language := v.s);
    } else if key == "notification_level" {
      assert SetField(p, key, v, iso).value == p.(notificationLevel := v.s);
    } else if key == "auto_refresh_status" {
      assert SetField(p, key, v, iso).value == p.(autoRefreshStatus := v.b);
    } else {
      assert SetField(p, key, v, iso).value == p.(showStatistics := v.b);
    }
  }

  lemma SetBehaviourField(p: UserPreferences, key: string, v: JsonValue, iso: IsoCodec)
    requires key in {"auto_start_queue", "default_priority", "batch_send_interval", "max_queue_size", "enable_cache"}
    requires SetField(p, key, v, iso).Some?
    ensures StoresValue(SetField(p, key, v, iso).value, key, v, iso)
    ensures OnlyField(p, SetField(p, key, v, iso).value, key)
  {
    assert key in PrefKeys;
    assert key !in OtherAttributes by { AttributesAreNotFields(); }
    if key == "auto_start_queue" {
      assert SetField(p, key, v, iso).value == p.(autoStartQueue := v.b);
    } else if key == "default_priority" {
      assert SetField(p, key, v, iso).value == p.(defaultPriority := v.i);
    } else if key == "batch_send_interval" {
      assert SetField(p, key, v, iso).value == p.(batchSendInterval := v.r);
    } else if key == "max_queue_size" {
      assert SetField(p, key, v, iso).value == p.(maxQueueSize := v.i);
    } else {
      assert SetField(p, key, v, iso).value == p.(enableCache := v.b);
    }
  }

  lemma SetPrivacyField(p: UserPreferences, key: string, v: JsonValue, iso: IsoCodec)
    requires key in {"log_operations", "share_statistics", "auto_backup", "session_timeout"}
    requires SetField(p, key, v, iso).Some?
    ensures StoresValue(SetField(p, key, v, iso).value, key, v, iso)
    ensures OnlyField(p, SetField(p, key, v, iso).value, key)
  {
    assert key in PrefKeys;
    assert key !in OtherAttributes by { AttributesAreNotFields(); }
    if key == "log_operations" {
      assert SetField(p, key, v, iso).value == p.(logOperations := v.b);
    } else if key == "share_statistics" {
      assert SetField(p, key, v, iso).value == p.(shareStatistics := v.b);
    } else if key == "auto_backup" {
      assert SetField(p, key, v, iso).value == p.(autoBackup := v.b);
    } else {
      assert SetField(p, key, v, iso).value == p.(sessionTimeout := v.i);
    }
  }

  lemma SetAdvancedField(p: UserPreferences, key: string, v: JsonValue, iso: IsoCodec)
    requires key in {"api_timeout", "retry_attempts", "rate_limit", "debug_mode"}
    requires SetField(p, key, v, iso).Some?
    ensures StoresValue(SetField(p, key, v, iso).value, key, v, iso)
    ensures OnlyField(p, SetField(p, key, v, iso).value, key)
  {
    assert key in PrefKeys;
    assert key !in OtherAttributes by { AttributesAreNotFields(); }
    if key == "api_timeout" {
      assert SetField(p, key, v, iso).value == p.(apiTimeout := v.i);
    } else if key == "retry_attempts" {
      assert SetField(p, key, v, iso).value == p.(retryAttempts := v.i);
    } else if key == "rate_limit" {
      assert SetField(p, key, v, iso).value == p.(rateLimit := v.i);
    } else {
      assert SetField(p, key, v, iso).value == p.(debugMode := v.b);
    }
  }

  lemma SetTimesField(p: UserPreferences, key: string, v: JsonValue, iso: IsoCodec)
    requires key in {"created_at", "updated_at"}
    requires SetField(p, key, v, iso).Some?
    ensures StoresValue(SetField(p, key, v, iso).value, key, v, iso)
    ensures OnlyField(p, SetField(p, key, v, iso).value, key)
  {
    assert key in PrefKeys;
    assert key !in OtherAttributes by { AttributesAreNotFields(); }
    if key == "created_at" {
      assert SetField(p, key, v, iso).value == p.(createdAt := iso.parse(v.s).value);
    } else {
      assert SetField(p, key, v, iso).value == p;
    }
  }

  // ---------------------------------------------------------------------
  // favourite templates

  predicate NoDuplicates(names: seq<string>) {
    forall i, j :: 0 <= i < j < |names| ==> names[i] != names[j]
  }

  /** The favourites after `add_favorite_template(name)`: appended when absent. */
  function AddFavorite(favorites: seq<string>, name: string): seq<string> {
    if name in favorites then favorites else favorites + [name]
  }

  /** Adding holds the name afterwards, keeps the earlier names in their
      places, and never creates a duplicate. */
  lemma AddFavoriteSpec(favorites: seq<string>, name: string)
    ensures var r := AddFavorite(favorites, name);
      name in r && r[..|favorites|] == favorites
      && (forall x :: x in r <==> x in favorites || x == name)
      && (NoDuplicates(favorites) ==> NoDuplicates(r))
  {
    var r := AddFavorite(favorites, name);
    assert r[..|favorites|] == favorites;
  }

  /** `list.remove(name)`: the first occurrence of `name` taken out. */
  function RemoveFirst(favorites: seq<string>, name: string): (r: seq<string>)
  {
    if favorites == [] then []
    else if favorites[0] == name then favorites[1..]
    else [favorites[0]] + RemoveFirst(favorites[1..], name)
  }

  /** Removing takes out one occurrence of the name when there is one, and
      changes nothing otherwise. */
  lemma {:induction false} RemoveFirstSpec(favorites: seq<string>, name: string)
    ensures name in favorites ==>
      multiset(RemoveFirst(favorites, name)) == multiset(favorites) - multiset{name}
    ensures name !in favorites ==> RemoveFirst(favorites, name) == favorites
  {
    if favorites != [] {
      var rest := favorites[1..];
      assert favorites == [favorites[0]] + rest;
      RemoveFirstSpec(rest, name);
    }
  }

  /** On a list without duplicates, removing leaves exactly the other names,
      still without duplicates. */
  lemma {:induction false} RemoveFavoriteSpec(favorites: seq<string>, name: string)
    requires NoDuplicates(favorites)
    ensures var r := RemoveFirst(favorites, name);
      (forall x :: x in r <==> x in favorites && x != name) && NoDuplicates(r)
  {
    if favorites != [] {
      var rest := favorites[1..];
      assert favorites == [favorites[0]] + rest;
      assert favorites[0] !in rest;
      RemoveFavoriteSpec(rest, name);
      if favorites[0] != name {
        var r := RemoveFirst(favorites, name);
        assert r == [favorites[0]] + RemoveFirst(rest, name);
        forall a, b | 0 <= a < b < |r|
          ensures r[a] != r[b]
        {
          if a == 0 {
            assert r[b] in RemoveFirst(rest, name);
          } else {
            assert r[a] == RemoveFirst(rest, name)[a - 1] && r[b] == RemoveFirst(rest, name)[b - 1];
          }
        }
      }
    }
  }

  // ---------------------------------------------------------------------
  // the cache

  /** A cached record and the time it was stored. */
  datatype CacheItem = CacheItem(data: UserPreferences, timestamp: int)

  const CacheTimeout := 300
  const SecondsPerDay := 86400

  /** `timedelta.seconds`: the seconds within the last day of a duration,
      the whole days dropped (for a negative duration too). */
  function SubDaySeconds(delta: int): (r: int)
    ensures 0 <= r < SecondsPerDay
    ensures exists days :: delta == days * SecondsPerDay + r
  {
    var r := delta % SecondsPerDay;
    assert delta == (delta / SecondsPerDay) * SecondsPerDay + r;
    r
  }

  /** The freshness test of `_get_from_cache`:
      `(now - stored).seconds < 300`. */
  predicate Fresh(stored: int, now: int) {
    SubDaySeconds(now - stored) < CacheTimeout
  }

  /** Within a day of storing, an entry is fresh exactly for its first five minutes. */
  lemma FreshWithinADay(stored: int, now: int)
    requires 0 <= now - stored < SecondsPerDay
    ensures Fresh(stored, now) <==> now - stored < CacheTimeout
  {
  }

  /** Because only the sub-day part counts, an entry is fresh again during the
      first five minutes of every later day. */
  lemma FreshRepeatsDaily(stored: int, now: int)
    ensures Fresh(stored, now + SecondsPerDay) == Fresh(stored, now)
  {
    var delta := now - stored;
    var days :| delta == days * SecondsPerDay + SubDaySeconds(delta);
    var days2 :| delta + SecondsPerDay == days2 * SecondsPerDay + SubDaySeconds(delta + SecondsPerDay);
    SubDayUnique(delta + SecondsPerDay, days + 1, SubDaySeconds(delta), days2, SubDaySeconds(delta + SecondsPerDay));
  }

  lemma SubDayUnique(delta: int, d1: int, r1: int, d2: int, r2: int)
    requires 0 <= r1 < SecondsPerDay && 0 <= r2 < SecondsPerDay
    requires delta == d1 * SecondsPerDay + r1 && delta == d2 * SecondsPerDay + r2
    ensures r1 == r2
  {
  }

  /** The cache answers for `user` at `now`. */
  predicate Hit(cache: map<int, CacheItem>, user: int, now: int) {
    user in cache && Fresh(cache[user].timestamp, now)
  }

  /** The record `save_user_preferences` writes: `updated_at` set to `now`. */
  function Saved(p: UserPreferences, now: int): UserPreferences {
    p.(updatedAt := now)
  }

  /** What `get_user_preferences(user)` returns: a fresh cached record, else
      the stored one, else the defaults (saved first). */
  function Current(cache: map<int, CacheItem>, db: map<int, UserPreferences>, user: int, now: int): UserPreferences {
    if Hit(cache, user, now) then cache[user].data
    else if user in db then db[user]
    else Saved(Defaults(user, now), now)
  }

  /** The cache after `get_user_preferences(user)`. */
  function CacheAfterGet(cache: map<int, CacheItem>, db: map<int, UserPreferences>, user: int, now: int): map<int, CacheItem> {
    if Hit(cache, user, now) then cache else cache[user := CacheItem(Current(cache, db, user, now), now)]
  }

  /** The table after `get_user_preferences(user)`: the defaults are stored for a new user. */
  function DbAfterGet(cache: map<int, CacheItem>, db: map<int, UserPreferences>, user: int, now: int): map<int, UserPreferences> {
    if Hit(cache, user, now) || user in db then db else db[user := Saved(Defaults(user, now), now)]
  }

  /** A read leaves the record it returned in the cache, fresh, so a second
      read at the same time answers from the cache with the same record. */
  lemma GetCaches(cache: map<int, CacheItem>, db: map<int, UserPreferences>, user: int, now: int)
    ensures var c := CacheAfterGet(cache, db, user, now);
      Hit(c, user, now) && c[user].data == Current(cache, db, user, now)
      && Current(c, DbAfterGet(cache, db, user, now), user, now) == Current(cache, db, user, now)
  {
    if !Hit(cache, user, now) {
      assert SubDaySeconds(0) == 0;
    }
  }

  /** The cache after saving `saved`, a record that a read for `user` had
      returned.  The read left that very object in the cache under `user`,
      and the save changes it in place, so the entry under `user` holds the
      saved record (with its old timestamp) as well as the fresh entry under
      the record's own `user_id`. */
  function SavedThrough(c: map<int, CacheItem>, user: int, saved: UserPreferences, now: int): (r: map<int, CacheItem>)
    ensures r.Keys == c.Keys + {saved.userId}
    ensures saved.userId in r && r[saved.userId] == CacheItem(saved, now)
    ensures user in c ==> r[user].data == saved
    ensures forall u :: u in c && u != user && u != saved.userId ==> r[u] == c[u]
  {
    (if user in c then c[user := CacheItem(saved, c[user].timestamp)] else c)[saved.userId := CacheItem(saved, now)]
  }

  /** After a change through a read for `user`, the next read for `user`
      answers the saved record, even when the change moved it to another
      `user_id`. */
  lemma ReadAfterSave(c: map<int, CacheItem>, db: map<int, UserPreferences>, user: int, saved: UserPreferences, now: int)
    requires Hit(c, user, now)
    ensures Current(SavedThrough(c, user, saved, now), db, user, now) == saved
  {
    if saved.userId == user {
      assert SubDaySeconds(0) == 0;
    }
  }

  /** `UserPreferencesManager`: the preference table and the cache in front of it. */
  class UserPreferencesManager {
    var db: map<int, UserPreferences>
    var cache: map<int, CacheItem>

    constructor()
      ensures db == map[] && cache == map[]
    {
      db := map[];
      cache := map[];
    }

    /** `_set_cache`. */
    method SetCache(user: int, prefs: UserPreferences, now: int)
      modifies this
      ensures cache == old(cache)[user := CacheItem(prefs, now)] && db == old(db)
    {
      cache := cache[user := CacheItem(prefs, now)];
    }

    /** `_get_from_cache`: the cached record while it is fresh; a stale entry is deleted. */
    method GetFromCache(user: int, now: int) returns (r: Option<UserPreferences>)
      modifies this
      ensures r.Some? <==> Hit(old(cache), user, now)
      ensures r.Some? ==> r.value == old(cache)[user].data
      ensures cache == (if user in old(cache) && !Hit(old(cache), user, now) then old(cache) - {user} else old(cache))
      ensures db == old(db)
    {
      r := None;
      if user in cache {
        var item := cache[user];
        if SubDaySeconds(now - item.timestamp) < CacheTimeout {
          r := Some(item.data);
        } else {
          cache := cache - {user};
        }
      }
    }

    /** `save_user_preferences`: stamps `updated_at`, stores the record under
        its own `user_id` and caches it. */
    method SavePreferences(prefs: UserPreferences, now: int) returns (ok: bool)
      modifies this
      ensures ok
      ensures db == old(db)[prefs.userId := Saved(prefs, now)]
      ensures cache == old(cache)[prefs.userId := CacheItem(Saved(prefs, now), now)]
    {
      var saved := Saved(prefs, now);
      db := db[prefs.userId := saved];
      SetCache(prefs.userId, saved, now);
      ok := true;
    }

    /** The cached object under `user` is changed in place: the entry keeps
        its timestamp and now holds `changed`. */
    method ShareCached(user: int, changed: UserPreferences)
      requires user in cache
      modifies this
      ensures cache == old(cache)[user := CacheItem(changed, old(cache)[user].timestamp)] && db == old(db)
    {
      cache := cache[user := CacheItem(changed, cache[user].timestamp)];
    }

    /** `get_user_preferences`. */
    method GetUserPreferences(user: int, now: int) returns (p: UserPreferences)
      modifies this
      ensures p == Current(old(cache), old(db), user, now)
      ensures cache == CacheAfterGet(old(cache), old(db), user, now)
      ensures db == DbAfterGet(old(cache), old(db), user, now)
    {
      var cached := GetFromCache(user, now);
      if cached.Some? {
        return cached.value;
      }
      if user in db {
        p := db[user];
      } else {
        p := Defaults(user, now);
        var _ := SavePreferences(p, now);
        p := Saved(p, now);
      }
      SetCache(user, p, now);
    }

    /** `update_preference`: false, with nothing saved, when `key` is not a
        field or the value does not fit it. */
    method UpdatePreference(user: int, key: string, value: JsonValue, iso: IsoCodec, now: int) returns (ok: bool)
      modifies this
      ensures var p := Current(old(cache), old(db), user, now);
        var c := CacheAfterGet(old(cache), old(db), user, now);
        var d := DbAfterGet(old(cache), old(db), user, now);
        var s := SetField(p, key, value, iso);
        (ok <==> s.Some?)
        && (!ok ==> cache == c && db == d)
        && (ok ==> db == d[s.value.userId := Saved(s.value, now)]
                   && cache == SavedThrough(c, user, Saved(s.value, now), now))
    {
      var p := GetUserPreferences(user, now);
      GetCaches(old(cache), old(db), user, now);
      var s := SetField(p, key, value, iso);
      if s.None? {
        return false;
      }
      ShareCached(user, Saved(s.value, now));
      ok := SavePreferences(s.value, now);
    }

    /** `add_favorite_template`: true; saves only when the name was absent. */
    method AddFavoriteTemplate(user: int, name: string, now: int) returns (ok: bool)
      modifies this
      ensures var p := Current(old(cache), old(db), user, now);
        var c := CacheAfterGet(old(cache), old(db), user, now);
        var d := DbAfterGet(old(cache), old(db), user, now);
        var q := Saved(p.(favoriteTemplates := AddFavorite(p.favoriteTemplates, name)), now);
        ok
        && (name in p.favoriteTemplates ==> cache == c && db == d)
        && (name !in p.favoriteTemplates ==>
              db == d[p.userId := q] && cache == SavedThrough(c, user, q, now))
    {
      var p := GetUserPreferences(user, now);
      GetCaches(old(cache), old(db), user, now);
      if name !in p.favoriteTemplates {
        var q := p.(favoriteTemplates := p.favoriteTemplates + [name]);
        ShareCached(user, Saved(q, now));
        ok := SavePreferences(q, now);
      } else {
        ok := true;
      }
    }

    /** `remove_favorite_template`: true; saves only when the name was present. */
    method RemoveFavoriteTemplate(user: int, name: string, now: int) returns (ok: bool)
      modifies this
      ensures var p := Current(old(cache), old(db), user, now);
        var c := CacheAfterGet(old(cache), old(db), user, now);
        var d := DbAfterGet(old(cache), old(db), user, now);
        var q := Saved(p.(favoriteTemplates := RemoveFirst(p.favoriteTemplates, name)), now);
        ok
        && (name !in p.favoriteTemplates ==> cache == c && db == d)
        && (name in p.favoriteTemplates ==>
              db == d[p.userId := q] && cache == SavedThrough(c, user, q, now))
    {
      var p := GetUserPreferences(user, now);
      GetCaches(old(cache), old(db), user, now);
      if name in p.favoriteTemplates {
        var q := p.(favoriteTemplates := RemoveFirst(p.favoriteTemplates, name));
        ShareCached(user, Saved(q, now));
        ok := SavePreferences(q, now);
      } else {
        ok := true;
      }
    }
  }
}
