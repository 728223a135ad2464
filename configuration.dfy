/** `TPAReactNativeConfiguration`: turns the untyped configuration object passed to
    `initialize` into the SDK's configuration, starting from the builder's defaults and
    applying one setter per key that is present. */
module Configuration {
  import opened Wrappers
  import opened ReadableValues

  datatype CrashHandling = Disabled | AlwaysAsk | AlwaysSend
  datatype LoggingDestination = None | Console | Remote | Both
  datatype LogLevel = Debug | Info | Warning | Error
  datatype FeedbackInvocation = InvocationDisabled | InvocationEnabled | EventShake

  /** A builder field: `Default` while its setter has not been called (the SDK then uses
      its own default, which is not part of this model), `Set(v)` once it has. */
  datatype Setting<T> = Default | Set(value: T)

  /** The SDK configuration as the builder has it when `build()` is called. */
  datatype TpaConfiguration = TpaConfiguration(
    projectUuid: string,
    url: string,
    crashHandling: Setting<CrashHandling>,
    loggingDestination: Setting<LoggingDestination>,
    minimumLogLevelConsole: Setting<LogLevel>,
    minimumLogLevelRemote: Setting<LogLevel>,
    feedbackInvocation: Setting<FeedbackInvocation>,
    analyticsEnabled: Setting<bool>,
    debug: Setting<bool>,
    nonFatalIssuesEnabled: Setting<bool>,
    automaticUpdateCheckEnabled: Setting<bool>)

  /** `new TpaConfiguration.Builder(projectUuid, url)`: no setter applied yet. */
  function NewBuilder(projectUuid: string, url: string): (b: TpaConfiguration)
    ensures b.projectUuid == projectUuid && b.url == url
    ensures b.crashHandling == Default && b.loggingDestination == Default
    ensures b.minimumLogLevelConsole == Default && b.minimumLogLevelRemote == Default
    ensures b.feedbackInvocation == Default && b.analyticsEnabled == Default && b.debug == Default
    ensures b.nonFatalIssuesEnabled == Default && b.automaticUpdateCheckEnabled == Default
  {
    TpaConfiguration(projectUuid, url, Default, Default, Default, Default, Default, Default, Default, Default, Default)
  }

  const AutomaticUpdateCheckEnabled := "automatic"

  const CrashHandlingKey := "crashHandling"
  const LoggingDestinationKey := "loggingDestination"
  const MinimumLogLevelConsoleKey := "minimumLogLevelConsole"
  const MinimumLogLevelRemoteKey := "minimumLogLevelRemote"
  const FeedbackInvocationKey := "feedbackInvocation"
  const IsAnalyticsEnabledKey := "isAnalyticsEnabled"
  const TpaDebugLogKey := "tpaDebugLog"
  const IsNonFatalIssuesEnabledKey := "isNonFatalIssuesEnabled"
  const UpdateNotificationKey := "updateNotification"

  // The names the JavaScript API documents for each option.

  function CrashHandlingName(c: CrashHandling): string {
    match c
    case Disabled => "disabled"
    case AlwaysAsk => "alwaysAsk"
    case AlwaysSend => "alwaysSend"
  }

  function LoggingDestinationName(d: LoggingDestination): string {
    match d
    case None => "none"
    case Console => "console"
    case Remote => "remote"
    case Both => "both"
  }

  function LogLevelName(l: LogLevel): string {
    match l
    case Debug => "debug"
    case Info => "info"
    case Warning => "warning"
    case Error => "error"
  }

  function FeedbackInvocationName(f: FeedbackInvocation): string {
    match f
    case InvocationDisabled => "disabled"
    case InvocationEnabled => "enabled"
    case EventShake => "shake"
  }

  /** `getCrashHandling`: the option whose documented name is `js`; null or any other
      string falls back to `Disabled`. */
  function GetCrashHandling(js: Nullable<string>): (r: CrashHandling)
    ensures forall c :: js == NonNull(CrashHandlingName(c)) ==> r == c
    ensures r == Disabled || js == NonNull(CrashHandlingName(r))
  {
    if js.Null? then Disabled
    else match js.value
      case "disabled" => Disabled
      case "alwaysAsk" => AlwaysAsk
      case "alwaysSend" => AlwaysSend
      case _ => Disabled
  }

  /** `getLoggingDestination`: the destination named by `js`; null or any other string
      falls back to `Console`. */
  function GetLoggingDestination(js: Nullable<string>): (r: LoggingDestination)
    ensures forall d :: js == NonNull(LoggingDestinationName(d)) ==> r == d
    ensures r == Console || js == NonNull(LoggingDestinationName(r))
  {
    if js.Null? then Console
    else match js.value
      case "none" => None
      case "console" => Console
      case "remote" => Remote
      case "both" => Both
      case _ => Console
  }

  /** `getLogLevel`: the level named by `js`; null or any other string falls back to `Debug`. */
  function GetLogLevel(js: Nullable<string>): (r: LogLevel)
    ensures forall l :: js == NonNull(LogLevelName(l)) ==> r == l
    ensures r == Debug || js == NonNull(LogLevelName(r))
  {
    if js.Null? then Debug
    else match js.value
      case "debug" => Debug
      case "info" => Info
      case "warning" => Warning
      case "error" => Error
      case _ => Debug
  }

  /** `getFeedbackInvocation`: the mode named by `js`; null or any other string falls back
      to `InvocationDisabled`. */
  function GetFeedbackInvocation(js: Nullable<string>): (r: FeedbackInvocation)
    ensures forall f :: js == NonNull(FeedbackInvocationName(f)) ==> r == f
    ensures r == InvocationDisabled || js == NonNull(FeedbackInvocationName(r))
  {
    if js.Null? then InvocationDisabled
    else match js.value
      case "disabled" => InvocationDisabled
      case "enabled" => InvocationEnabled
      case "shake" => EventShake
      case _ => InvocationDisabled
  }

  /** `hasKey(key)` followed by `getString(key)`: `Default` when the key is absent,
      otherwise what the getter returns or the exception it raises. */
  function StringSetting(cfg: ReadableMap, key: string): (r: Result<Setting<Nullable<string>>>)
    ensures r.Success? <==> StringOk(cfg, key)
    ensures r.Success? ==> (r.value.Set? <==> key in cfg)
    ensures r.Success? && key in cfg ==> r.value.value == StringAt(cfg, key)
  {
    if key in cfg then
      var s :- GetString(cfg, key);
      Success(Set(s))
    else Success(Default)
  }

  /** `hasKey(key)` followed by `getBoolean(key)`. */
  function BooleanSetting(cfg: ReadableMap, key: string): (r: Result<Setting<bool>>)
    ensures r.Success? <==> BooleanOk(cfg, key)
    ensures r.Success? ==> (r.value.Set? <==> key in cfg)
    ensures r.Success? && key in cfg ==> r.value.value == GetBoolean(cfg, key).value
  {
    if key in cfg then
      var b :- GetBoolean(cfg, key);
      Success(Set(b))
    else Success(Default)
  }

  /** A value read from the configuration, passed through the lookup that converts it. */
  function MapSetting<T, U>(s: Setting<T>, f: T -> U): Setting<U> {
    match s
    case Default => Default
    case Set(v) => Set(f(v))
  }

  /** A builder field after its guarded setter: the setter is called only when the key was
      present, otherwise the field keeps what the builder had. */
  function SetIfPresent<T>(current: Setting<T>, read: Setting<T>): Setting<T> {
    if read.Set? then read else current
  }

  /** `key`, if present, holds null or a string, so `getString` does not raise. */
  predicate StringOk(cfg: ReadableMap, key: string) {
    key in cfg ==> GetString(cfg, key).Success?
  }

  /** `key`, if present, holds a boolean, so `getBoolean` does not raise. */
  predicate BooleanOk(cfg: ReadableMap, key: string) {
    key in cfg ==> GetBoolean(cfg, key).Success?
  }

  /** None of the typed getters `parseConfiguration` applies raises. */
  predicate WellTyped(cfg: ReadableMap) {
    && StringOk(cfg, CrashHandlingKey)
    && StringOk(cfg, LoggingDestinationKey)
    && StringOk(cfg, MinimumLogLevelConsoleKey)
    && StringOk(cfg, MinimumLogLevelRemoteKey)
    && StringOk(cfg, FeedbackInvocationKey)
    && BooleanOk(cfg, IsAnalyticsEnabledKey)
    && BooleanOk(cfg, TpaDebugLogKey)
    && BooleanOk(cfg, IsNonFatalIssuesEnabledKey)
    && StringOk(cfg, UpdateNotificationKey)
  }

  /** The exception parsing `cfg` raises, if any: a typed getter applied to a value of the
      wrong kind, or else `.equals` called on a null `updateNotification`. */
  function ConfigurationError(cfg: ReadableMap): Nullable<Exception> {
    if !WellTyped(cfg) then NonNull(UnexpectedNativeType)
    else if UpdateNotificationKey in cfg && cfg[UpdateNotificationKey].NullValue? then NonNull(NullPointer)
    else Null
  }

  /** The string a well-typed string key holds, null included. */
  function StringAt(cfg: ReadableMap, key: string): Nullable<string>
    requires key in cfg && GetString(cfg, key).Success?
  {
    GetString(cfg, key).value
  }

  /** The configuration, field by field: each field is set, through its lookup, exactly when
      its key is present, and keeps the builder's default otherwise. */
  function Overlay(projectUuid: string, url: string, cfg: ReadableMap): TpaConfiguration
    requires ConfigurationError(cfg).Null?
  {
    TpaConfiguration(
      projectUuid, url,
      if CrashHandlingKey in cfg then Set(GetCrashHandling(StringAt(cfg, CrashHandlingKey))) else Default,
      if LoggingDestinationKey in cfg then Set(GetLoggingDestination(StringAt(cfg, LoggingDestinationKey))) else Default,
      if MinimumLogLevelConsoleKey in cfg then Set(GetLogLevel(StringAt(cfg, MinimumLogLevelConsoleKey))) else Default,
      if MinimumLogLevelRemoteKey in cfg then Set(GetLogLevel(StringAt(cfg, MinimumLogLevelRemoteKey))) else Default,
      if FeedbackInvocationKey in cfg then Set(GetFeedbackInvocation(StringAt(cfg, FeedbackInvocationKey))) else Default,
      if IsAnalyticsEnabledKey in cfg then Set(GetBoolean(cfg, IsAnalyticsEnabledKey).value) else Default,
      if TpaDebugLogKey in cfg then Set(GetBoolean(cfg, TpaDebugLogKey).value) else Default,
      if IsNonFatalIssuesEnabledKey in cfg then Set(GetBoolean(cfg, IsNonFatalIssuesEnabledKey).value) else Default,
      if UpdateNotificationKey in cfg then Set(cfg[UpdateNotificationKey].s == AutomaticUpdateCheckEnabled) else Default)
  }

  /** What `parseConfiguration` produces for an optional configuration object. */
  function Parsed(projectUuid: string, url: string, configuration: Nullable<ReadableMap>): Result<TpaConfiguration> {
    match configuration
    case Null => Success(NewBuilder(projectUuid, url))
    case NonNull(cfg) =>
      match ConfigurationError(cfg)
      case NonNull(e) => Failure(e)
      case Null => Success(Overlay(projectUuid, url, cfg))
  }

  /** `TPAReactNativeConfiguration`: the two required values, fixed at construction. */
  class TPAReactNativeConfiguration {
    const url: string
    const projectUuid: string

    constructor (url: string, projectUuid: string)
      ensures this.url == url && this.projectUuid == projectUuid
    {
      this.url := url;
      this.projectUuid := projectUuid;
    }

    /** `parseConfiguration`: a builder from the required values, then one guarded setter
        per recognised key, in the source's order. */
    method ParseConfiguration(configuration: Nullable<ReadableMap>) returns (r: Result<TpaConfiguration>)
      ensures configuration.Null? ==> r == Success(NewBuilder(projectUuid, url))
      ensures configuration.NonNull? ==> (r.Failure? <==> ConfigurationError(configuration.value).NonNull?)
      ensures configuration.NonNull? && r.Failure? ==> NonNull(r.error) == ConfigurationError(configuration.value)
      ensures configuration.NonNull? && r.Success? ==>
                ConfigurationError(configuration.value).Null? && r.value == Overlay(projectUuid, url, configuration.value)
      ensures r == Parsed(projectUuid, url, configuration)
    {
      var builder := NewBuilder(projectUuid, url);
      if configuration.Null? {
        return Success(builder);
      }
      var cfg := configuration.value;

      var crashHandling :- StringSetting(cfg, CrashHandlingKey);
      builder := builder.(crashHandling := SetIfPresent(builder.crashHandling, MapSetting(crashHandling, GetCrashHandling)));

      var loggingDestination :- StringSetting(cfg, LoggingDestinationKey);
      builder := builder.(loggingDestination := SetIfPresent(builder.loggingDestination, MapSetting(loggingDestination, GetLoggingDestination)));

      var minimumLogLevelConsole :- StringSetting(cfg, MinimumLogLevelConsoleKey);
      builder := builder.(minimumLogLevelConsole := SetIfPresent(builder.minimumLogLevelConsole, MapSetting(minimumLogLevelConsole, GetLogLevel)));

      var minimumLogLevelRemote :- StringSetting(cfg, MinimumLogLevelRemoteKey);
      builder := builder.(minimumLogLevelRemote := SetIfPresent(builder.minimumLogLevelRemote, MapSetting(minimumLogLevelRemote, GetLogLevel)));

      var feedbackInvocation :- StringSetting(cfg, FeedbackInvocationKey);
      builder := builder.(feedbackInvocation := SetIfPresent(builder.feedbackInvocation, MapSetting(feedbackInvocation, GetFeedbackInvocation)));

      var analyticsEnabled :- BooleanSetting(cfg, IsAnalyticsEnabledKey);
      builder := builder.(analyticsEnabled := SetIfPresent(builder.analyticsEnabled, analyticsEnabled));

      var debug :- BooleanSetting(cfg, TpaDebugLogKey);
      builder := builder.(debug := SetIfPresent(builder.debug, debug));

      var nonFatalIssuesEnabled :- BooleanSetting(cfg, IsNonFatalIssuesEnabledKey);
      builder := builder.(nonFatalIssuesEnabled := SetIfPresent(builder.nonFatalIssuesEnabled, nonFatalIssuesEnabled));

      var updateNotification :- StringSetting(cfg, UpdateNotificationKey);
      if updateNotification == Set(Null) {
        return Failure(NullPointer);  // `getString(..)` returned null and `.equals` is called on it
      }
      var automatic := MapSetting(updateNotification, (s: Nullable<string>) => s == NonNull(AutomaticUpdateCheckEnabled));
      builder := builder.(automaticUpdateCheckEnabled := SetIfPresent(builder.automaticUpdateCheckEnabled, automatic));

      return Success(builder);
    }
  }

  /** Each setter is applied iff its key is present: a parsed configuration differs from the
      bare builder in exactly the fields whose keys the object holds. */
  lemma SetterAppliedIffKeyPresent(projectUuid: string, url: string, cfg: ReadableMap)
    requires Parsed(projectUuid, url, NonNull(cfg)).Success?
    ensures var c := Parsed(projectUuid, url, NonNull(cfg)).value;
      && c.projectUuid == projectUuid && c.url == url
      && (c.crashHandling.Set? <==> CrashHandlingKey in cfg)
      && (c.loggingDestination.Set? <==> LoggingDestinationKey in cfg)
      && (c.minimumLogLevelConsole.Set? <==> MinimumLogLevelConsoleKey in cfg)
      && (c.minimumLogLevelRemote.Set? <==> MinimumLogLevelRemoteKey in cfg)
      && (c.feedbackInvocation.Set? <==> FeedbackInvocationKey in cfg)
      && (c.analyticsEnabled.Set? <==> IsAnalyticsEnabledKey in cfg)
      && (c.debug.Set? <==> TpaDebugLogKey in cfg)
      && (c.nonFatalIssuesEnabled.Set? <==> IsNonFatalIssuesEnabledKey in cfg)
      && (c.automaticUpdateCheckEnabled.Set? <==> UpdateNotificationKey in cfg)
  {
  }

  /** Parsing succeeds exactly when every present key holds a value of the kind its getter
      expects and `updateNotification`, if present, is not null. */
  lemma ParseSucceedsIffWellTyped(projectUuid: string, url: string, cfg: ReadableMap)
    ensures Parsed(projectUuid, url, NonNull(cfg)).Success? <==>
              WellTyped(cfg) && !(UpdateNotificationKey in cfg && cfg[UpdateNotificationKey].NullValue?)
  {
  }

  /** An empty configuration object gives the same configuration as none at all. */
  lemma EmptyConfigurationIsBare(projectUuid: string, url: string)
    ensures Parsed(projectUuid, url, NonNull(map[])) == Parsed(projectUuid, url, Null)
  {
  }

  /** An unrecognised crash-handling string is not an error: the setter is still called,
      with the value "disabled" would have given. */
  lemma UnknownCrashHandlingActsAsDisabled(projectUuid: string, url: string, cfg: ReadableMap, s: string)
    requires CrashHandlingKey in cfg && cfg[CrashHandlingKey] == StringValue(s)
    requires forall c :: s != CrashHandlingName(c)
    requires Parsed(projectUuid, url, NonNull(cfg)).Success?
    ensures Parsed(projectUuid, url, NonNull(cfg)).value.crashHandling
         == Set(GetCrashHandling(NonNull(CrashHandlingName(Disabled))))
  {
  }

  /** The automatic update check is switched on iff `updateNotification` is exactly "automatic". */
  lemma AutomaticUpdateIffExactMatch(projectUuid: string, url: string, cfg: ReadableMap)
    requires UpdateNotificationKey in cfg
    requires Parsed(projectUuid, url, NonNull(cfg)).Success?
    ensures Parsed(projectUuid, url, NonNull(cfg)).value.automaticUpdateCheckEnabled
         == Set(cfg[UpdateNotificationKey] == StringValue(AutomaticUpdateCheckEnabled))
  {
  }

  /** The console and remote minimum levels go through the same lookup, so the same string
      configures the same level for both. */
  lemma LogMinimumsShareOneLookup(projectUuid: string, url: string, cfg: ReadableMap)
    requires MinimumLogLevelConsoleKey in cfg && MinimumLogLevelRemoteKey in cfg
    requires cfg[MinimumLogLevelConsoleKey] == cfg[MinimumLogLevelRemoteKey]
    requires Parsed(projectUuid, url, NonNull(cfg)).Success?
    ensures Parsed(projectUuid, url, NonNull(cfg)).value.minimumLogLevelConsole
         == Parsed(projectUuid, url, NonNull(cfg)).value.minimumLogLevelRemote
  {
  }
}
