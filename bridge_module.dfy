/** `TPAThePerfectAppModule`, the Android native module: the log-level switch, and the
    module's own state, which is the timing table that `initialize` replaces and the
    timing methods forward to. */
module BridgeModule {
  import opened Wrappers
  import opened ReadableValues
  import opened TimingEvents
  import opened Configuration
  import opened Deconstruct

  /** One call to the SDK logger (`TPA.log.d`, `.i`, `.w` or `.e`) with its tag and message. */
  datatype LogCall = LogCall(level: LogLevel, tag: string, message: string)

  /** `log(logLevel, message)`: the SDK log calls it makes. A null or unrecognised level makes
      none; each of the four level names makes exactly one, at that level, with an empty tag. */
  function Log(logLevel: Nullable<string>, message: string): (calls: seq<LogCall>)
    ensures |calls| <= 1
    ensures calls != [] ==> logLevel == NonNull(LogLevelName(calls[0].level)) && calls[0] == LogCall(calls[0].level, "", message)
    ensures forall l :: logLevel == NonNull(LogLevelName(l)) ==> calls == [LogCall(l, "", message)]
  {
    match logLevel
    case Null => []
    case NonNull(level) =>
      match level
      case "debug" => [LogCall(Debug, "", message)]
      case "info" => [LogCall(Info, "", message)]
      case "warning" => [LogCall(Warning, "", message)]
      case "error" => [LogCall(Error, "", message)]
      case _ => []
  }

  /** The log switch and the configuration's minimum-level lookup read the same four names:
      whenever `log` makes a call, its level is the one `getLogLevel` gives for that string. */
  lemma LogAgreesWithLogLevelLookup(logLevel: Nullable<string>, message: string)
    requires Log(logLevel, message) != []
    ensures Log(logLevel, message)[0].level == GetLogLevel(logLevel)
  {
  }

  /** The module's state: the timing table, null until the first `initialize`; and, as
      ghost state, the configurations handed to the SDK's `initialize`. */
  class TPAThePerfectAppModule {
    var reactNativeTimingEvents: ReactNativeTimingEvents?
    ghost var sdkInitializations: seq<TpaConfiguration>

    /** A new module has no timing table yet. */
    constructor ()
      ensures reactNativeTimingEvents == null && sdkInitializations == []
    {
      reactNativeTimingEvents := null;
      sdkInitializations := [];
    }

    /** `initialize(url, projectUuid, configuration)`: parse the configuration and hand it to
        the SDK, then replace the timing table with a fresh, empty one. If parsing raises,
        nothing after it happens. */
    method Initialize(url: string, projectUuid: string, configuration: Nullable<ReadableMap>)
      returns (r: Result<TpaConfiguration>)
      modifies this
      ensures r == Parsed(projectUuid, url, configuration)
      ensures r.Success? ==> sdkInitializations == old(sdkInitializations) + [r.value]
      ensures r.Success? ==> reactNativeTimingEvents != null && fresh(reactNativeTimingEvents)
      ensures r.Success? ==> reactNativeTimingEvents.timingEvents == map[] && reactNativeTimingEvents.trace == []
      ensures r.Failure? ==> unchanged(this)
    {
      var parser := new TPAReactNativeConfiguration(url, projectUuid);
      var parsed :- parser.ParseConfiguration(configuration);
      sdkInitializations := sdkInitializations + [parsed];
      reactNativeTimingEvents := new ReactNativeTimingEvents();
      return Success(parsed);
    }

    /** `startTimingEvent`: forwards to the table; `longValue` is Java's `Double.longValue()`,
        `handle` the SDK's answer. Before any `initialize` the table is null and the call raises. */
    method StartTimingEvent(identifier: string, startTimestamp: Double, category: string, name: string,
                            longValue: Double -> Long, handle: Handle)
      returns (r: Result<()>)
      modifies reactNativeTimingEvents
      ensures r.Success? <==> reactNativeTimingEvents != null
      ensures r.Failure? ==> r.error == NullPointer
      ensures r.Success? ==>
                reactNativeTimingEvents.timingEvents ==
                  old(reactNativeTimingEvents.timingEvents)[identifier := Entry(handle, longValue(startTimestamp))]
      ensures r.Success? ==>
                reactNativeTimingEvents.trace == old(reactNativeTimingEvents.trace) + [StartTiming(category, name, handle)]
    {
      if reactNativeTimingEvents == null {
        return Failure(NullPointer);
      }
      reactNativeTimingEvents.StartTimingEvent(identifier, longValue(startTimestamp), category, name, handle);
      return Success(());
    }

    /** `trackTimingEvent`: forwards to the table without tags. */
    method TrackTimingEvent(identifier: string, endTimestamp: Double, longValue: Double -> Long)
      returns (r: Result<()>)
      modifies reactNativeTimingEvents
      ensures r.Success? <==> reactNativeTimingEvents != null
      ensures r.Failure? ==> r.error == NullPointer
      ensures r.Success? ==> reactNativeTimingEvents.timingEvents == old(reactNativeTimingEvents.timingEvents) - {identifier}
      ensures r.Success? && identifier !in old(reactNativeTimingEvents.timingEvents) ==>
                reactNativeTimingEvents.trace == old(reactNativeTimingEvents.trace)
      ensures r.Success? && identifier in old(reactNativeTimingEvents.timingEvents) ==>
                reactNativeTimingEvents.trace == old(reactNativeTimingEvents.trace) +
                  [TrackCall(old(reactNativeTimingEvents.timingEvents)[identifier], longValue(endTimestamp), Null)]
    {
      if reactNativeTimingEvents == null {
        return Failure(NullPointer);
      }
      reactNativeTimingEvents.TrackTimingEvent(identifier, longValue(endTimestamp), Null);
      return Success(());
    }

    /** `trackTimingEventWithTags`: flattens the tags with the tags copy and forwards them.
        A null table or a null tag map raises. */
    method TrackTimingEventWithTags(identifier: string, endTimestamp: Double, tags: Nullable<ReadableMap>,
                                    longValue: Double -> Long, formatDouble: Double -> string)
      returns (r: Result<()>)
      modifies reactNativeTimingEvents
      ensures r.Success? <==> reactNativeTimingEvents != null && tags.NonNull?
      ensures r.Failure? ==> r.error == NullPointer
      ensures r.Failure? && reactNativeTimingEvents != null ==> unchanged(reactNativeTimingEvents)
      ensures r.Success? ==> reactNativeTimingEvents.timingEvents == old(reactNativeTimingEvents.timingEvents) - {identifier}
      ensures r.Success? && identifier !in old(reactNativeTimingEvents.timingEvents) ==>
                reactNativeTimingEvents.trace == old(reactNativeTimingEvents.trace)
      ensures r.Success? && identifier in old(reactNativeTimingEvents.timingEvents) ==>
                reactNativeTimingEvents.trace == old(reactNativeTimingEvents.trace) +
                  [TrackCall(old(reactNativeTimingEvents.timingEvents)[identifier], longValue(endTimestamp),
                             NonNull(TagsOf(tags.value, formatDouble)))]
    {
      var deconstructed :- DeconstructTags(tags, formatDouble);
      if reactNativeTimingEvents == null {
        return Failure(NullPointer);
      }
      reactNativeTimingEvents.TrackTimingEvent(identifier, longValue(endTimestamp), NonNull(deconstructed));
      return Success(());
    }

    /** An event started before a successful `initialize` can no longer be tracked: the track
        call finds the new, empty table and makes no SDK call. */
    method StartInitializeTrack(identifier: string, startTimestamp: Double, endTimestamp: Double,
                                category: string, name: string, longValue: Double -> Long, handle: Handle,
                                url: string, projectUuid: string, configuration: Nullable<ReadableMap>)
      requires reactNativeTimingEvents != null
      requires Parsed(projectUuid, url, configuration).Success?
      modifies this, reactNativeTimingEvents
      ensures reactNativeTimingEvents != null
      ensures reactNativeTimingEvents.timingEvents == map[] && reactNativeTimingEvents.trace == []
    {
      var started := StartTimingEvent(identifier, startTimestamp, category, name, longValue, handle);
      var initialized := Initialize(url, projectUuid, configuration);
      var tracked := TrackTimingEvent(identifier, endTimestamp, longValue);
    }
  }
}
