# TPA React Native bridge — a Dafny model

This project models the deterministic core of the React Native bridge for the TPA analytics
and crash-reporting SDK. Everything else in that bridge forwards calls, one to one, to the
closed SDK (`io.tpa.tpalib`). The model covers four pieces:

* **The timing-event table** (`ReactNativeTimingEvents`). It maps an identifier chosen in
  JavaScript to the SDK's timing handle and the start timestamp. `startTimingEvent` stores or
  overwrites an entry. `trackTimingEvent` removes the entry and, only if there was one, reports
  the duration, with tags when they are given. The table is a Dafny class whose `map` field
  its methods update in place. A ghost trace records the SDK calls it makes, so that "no SDK
  call" and "nothing else changes" can be stated.
* **The configuration parser** (`TPAReactNativeConfiguration`). It starts from the builder's
  defaults and applies one setter for each key present in the untyped configuration object.
  Enum options go through four total string-to-enum lookups, each with a fallback value. The
  automatic update check is an exact match against `"automatic"`. Builder fields are
  `Setting`s: `Default` until their setter runs, and the SDK's own defaults are not modelled.
* **The native module** (`TPAThePerfectAppModule`). It has three value deconstructors:
  * a general recursive copy of a `ReadableMap`/`ReadableArray`;
  * the same copy for arrays, which inserts with `ArrayList.add(i, ..)`;
  * a flattening of a tag map into strings.

  It also has the four-way `log` switch, and the module state: `initialize` replaces the
  timing table, and the timing methods forward to it. Each deconstructor is a loop, written
  as a Dafny method and proved equal to a specification function. The properties
  are lemmas about those functions.
* **The JavaScript module** (`index.js`). It covers:
  * the timing-identifier generator, a loop that appends ten random fragments to
    `category-name-timestamp-`;
  * the module-level `logDebug` flag, which `initialize` updates and `exitWithFatalError` reads;
  * the arguments built by the two non-fatal issue reports (dropping the first stack line, and
    the default reason `name: message`);
  * the `log.*` wrappers.

The dynamic values React Native passes are a datatype with one case per `ReadableType`, plus
`Unsupported`. `ReadableType` has exactly six kinds, so `Unsupported` stands for a hypothetical
further kind: it is how the model reaches the `default` branches of the general copy, which no
current value reaches. In the tags copy, maps and arrays do reach `default`. A Java exception is
the failure case of a `Result`. The exceptions are a null dereference, an index past a list's
size, a typed getter applied to a value of another kind, and a JavaScript `TypeError`.

Files: `wrappers.dfy` (Nullable, Exception, Result), `readable.dfy` (dynamic values and the
`getString`/`getBoolean` getters), `timing_events.dfy`, `configuration.dfy`, `deconstruct.dfy`,
`bridge_module.dfy`, `js_bridge.dfy`.

Three behaviours of the code worth noting:

* A configuration value of the wrong kind makes `getString`/`getBoolean` raise; it is not
  silently defaulted. A present but null `updateNotification` raises at `.equals`.
* In the array copy, a skipped element is not always harmless. The positional `add(i, ..)`
  raises if a kept element follows a skipped one. Only a hypothetical seventh `ReadableType`
  (`Unsupported`) is skipped there, so no current value takes this path.
* An unrecognised or null logging destination falls back to `CONSOLE` in the Android
  lookup, although the JSDoc comment in `index.js` names `'none'` as the default.

## Model

| member | source | states |
|---|---|---|
| ReadableValues.GetString | android/src/main/java/com/reactlibrary/configuration/TPAReactNativeConfiguration.java:57-73 | React Native's `getString`: succeeds iff the key is present with a null or string value; null exactly for a null entry, otherwise the entry's string; a missing key or any other kind raises |
| ReadableValues.GetBoolean | android/src/main/java/com/reactlibrary/configuration/TPAReactNativeConfiguration.java:77-85 | React Native's `getBoolean`: succeeds iff the key is present with a boolean value, and returns that boolean; null, any other kind or a missing key raises |
| TimingEvents.WrapLong | android/src/main/java/com/reactlibrary/timingevents/ReactNativeTimingEvents.java:44 | Java `long` subtraction: unchanged when the exact result fits in a long, otherwise congruent to it modulo 2^64 |
| TimingEvents.GetDuration | android/src/main/java/com/reactlibrary/timingevents/ReactNativeTimingEvents.java:43-45 | the duration is \|end − start\| whenever that fits in a long, and always for two non-negative timestamps; it is 0 exactly when start equals end |
| TimingEvents.DurationSymmetric | android/src/main/java/com/reactlibrary/timingevents/ReactNativeTimingEvents.java:43-45 | the duration does not depend on the order of start and end |
| TimingEvents.DurationWrapsWhenDistanceExceedsLong | android/src/main/java/com/reactlibrary/timingevents/ReactNativeTimingEvents.java:44 | for any two timestamps more than a long apart the subtraction wraps: the duration is negative, the distance less 2^64 |
| TimingEvents.DurationFromMinLongToZero | android/src/main/java/com/reactlibrary/timingevents/ReactNativeTimingEvents.java:44 | the extreme case: from `Long.MIN_VALUE` to 0, in either order, the duration is `Long.MIN_VALUE` |
| TimingEvents.TrackCall | android/src/main/java/com/reactlibrary/timingevents/ReactNativeTimingEvents.java:35-39 | the tagged SDK call is made iff tags are non-null, the untagged one iff they are null; both carry the entry's handle and its duration to the end timestamp |
| TimingEvents.ReactNativeTimingEvents.constructor | android/src/main/java/com/reactlibrary/timingevents/ReactNativeTimingEvents.java:24-26 | a new table is empty and has made no SDK call |
| TimingEvents.ReactNativeTimingEvents.StartTimingEvent | android/src/main/java/com/reactlibrary/timingevents/ReactNativeTimingEvents.java:28-30 | the identifier now maps to (new handle, start timestamp), every other identifier's entry is unchanged, and exactly one SDK start call is recorded |
| TimingEvents.ReactNativeTimingEvents.TrackTimingEvent | android/src/main/java/com/reactlibrary/timingevents/ReactNativeTimingEvents.java:32-41 | the identifier is absent afterwards and all other entries are unchanged; an absent identifier makes no SDK call, and a present one makes exactly one track call, built from the removed entry |
| TimingEvents.ReactNativeTimingEvents.StartTwiceThenTrack | android/src/main/java/com/reactlibrary/timingevents/ReactNativeTimingEvents.java:29 | starting the same identifier twice keeps only the second handle and timestamp, which the track call then uses |
| Configuration.NewBuilder | android/src/main/java/com/reactlibrary/configuration/TPAReactNativeConfiguration.java:50 | the builder holds the project UUID and URL, and every one of the nine settings is still `Default` |
| Configuration.GetCrashHandling | android/src/main/java/com/reactlibrary/configuration/TPAReactNativeConfiguration.java:95-110 | each documented name gives its option; null or any other string gives `Disabled`; total |
| Configuration.GetLoggingDestination | android/src/main/java/com/reactlibrary/configuration/TPAReactNativeConfiguration.java:112-129 | each documented name gives its destination; null or any other string gives `Console`; total |
| Configuration.GetLogLevel | android/src/main/java/com/reactlibrary/configuration/TPAReactNativeConfiguration.java:131-148 | each documented name gives its level; null or any other string gives `Debug`; total |
| Configuration.GetFeedbackInvocation | android/src/main/java/com/reactlibrary/configuration/TPAReactNativeConfiguration.java:150-165 | "disabled", "enabled" and "shake" give their modes; null or any other string gives `InvocationDisabled`; total |
| Configuration.StringSetting | android/src/main/java/com/reactlibrary/configuration/TPAReactNativeConfiguration.java:56-57 | a guarded `getString`: nothing read when the key is absent, the string (or null) when it holds one, an exception for any other kind |
| Configuration.BooleanSetting | android/src/main/java/com/reactlibrary/configuration/TPAReactNativeConfiguration.java:76-77 | a guarded `getBoolean`: nothing read when the key is absent, the boolean when it holds one, an exception otherwise |
| Configuration.TPAReactNativeConfiguration.constructor | android/src/main/java/com/reactlibrary/configuration/TPAReactNativeConfiguration.java:23-26 | the parser keeps the URL and project UUID it is given |
| Configuration.TPAReactNativeConfiguration.ParseConfiguration | android/src/main/java/com/reactlibrary/configuration/TPAReactNativeConfiguration.java:49-93 | a null configuration gives the bare builder; otherwise parsing fails exactly when a getter raises or `updateNotification` is null, with that exception; on success each field is set through its lookup when its key is present and keeps its default when it is absent |
| Configuration.SetterAppliedIffKeyPresent | android/src/main/java/com/reactlibrary/configuration/TPAReactNativeConfiguration.java:56-90 | each of the nine settings is applied iff its key is present |
| Configuration.ParseSucceedsIffWellTyped | android/src/main/java/com/reactlibrary/configuration/TPAReactNativeConfiguration.java:56-90 | parsing succeeds iff every present key holds a value of its getter's kind and `updateNotification` is not null |
| Configuration.EmptyConfigurationIsBare | android/src/main/java/com/reactlibrary/configuration/TPAReactNativeConfiguration.java:50-54 | an empty configuration object gives the same result as a null one |
| Configuration.UnknownCrashHandlingActsAsDisabled | android/src/main/java/com/reactlibrary/configuration/TPAReactNativeConfiguration.java:56-58 | an unrecognised crash-handling string still calls the setter, with the value that "disabled" gives |
| Configuration.AutomaticUpdateIffExactMatch | android/src/main/java/com/reactlibrary/configuration/TPAReactNativeConfiguration.java:88-90 | the automatic update check is set to true iff the value is exactly "automatic" |
| Configuration.LogMinimumsShareOneLookup | android/src/main/java/com/reactlibrary/configuration/TPAReactNativeConfiguration.java:64-70 | the console and remote minimum levels use the same lookup: equal strings give equal levels |
| Deconstruct.ListAdd | android/src/main/java/com/reactlibrary/TPAThePerfectAppModule.java:220 | `ArrayList.add(i, x)`: succeeds iff 0 ≤ i ≤ size; then `x` is at i, earlier elements stay, later ones shift up by one |
| Deconstruct.FirstSkipped | android/src/main/java/com/reactlibrary/TPAThePerfectAppModule.java:216-240 | the index of the first element the array copy skips: every earlier element is kept |
| Deconstruct.Copy | android/src/main/java/com/reactlibrary/TPAThePerfectAppModule.java:186-208 | the kind-for-kind copy of one entry: scalars unchanged, maps and arrays stay maps and arrays, the result contains no unsupported kind, and only an out-of-range insert can fail |
| Deconstruct.CopyMap | android/src/main/java/com/reactlibrary/TPAThePerfectAppModule.java:176-212 | the copy has exactly the input's supported keys, each mapped to the copy of its value; unsupported keys are dropped; it fails iff a nested copy fails |
| Deconstruct.CopyArray | android/src/main/java/com/reactlibrary/TPAThePerfectAppModule.java:214-243 | it succeeds iff no supported element follows the first skipped one and every copy before it succeeds; the result is then the copies of the elements before the first skip, in order |
| Deconstruct.ConvertEntry | android/src/main/java/com/reactlibrary/TPAThePerfectAppModule.java:186-208 | the `switch` on the entry's kind computes `Copy` |
| Deconstruct.DeconstructMap | android/src/main/java/com/reactlibrary/TPAThePerfectAppModule.java:176-212 | a null map gives an empty map; otherwise the iterator loop computes `CopyMap`, whatever order the keys come in |
| Deconstruct.DeconstructArray | android/src/main/java/com/reactlibrary/TPAThePerfectAppModule.java:214-243 | the indexed loop with positional inserts computes `CopyArray` |
| Deconstruct.BooleanText | android/src/main/java/com/reactlibrary/TPAThePerfectAppModule.java:256 | `String.valueOf(boolean)` is "true" exactly for true and "false" otherwise |
| Deconstruct.TagValue | android/src/main/java/com/reactlibrary/TPAThePerfectAppModule.java:252-264 | a kept value becomes a null tag iff it is null; a boolean becomes "true" or "false" by its value, a number its formatted text, a string itself |
| Deconstruct.TagsOf | android/src/main/java/com/reactlibrary/TPAThePerfectAppModule.java:248-273 | tag keys are a subset of the input's keys. A key is kept iff its value is null, boolean, number or string: null stays null, booleans become "true"/"false", numbers are formatted, strings pass through. Map, array and unsupported keys are absent |
| Deconstruct.DeconstructTags | android/src/main/java/com/reactlibrary/TPAThePerfectAppModule.java:245-277 | a null tag map raises, since there is no null guard; otherwise the loop computes `TagsOf` |
| Deconstruct.CopyIdentity | android/src/main/java/com/reactlibrary/TPAThePerfectAppModule.java:199-203 | on a tree of supported kinds only, the copy is the identity |
| Deconstruct.CopyIdempotent | android/src/main/java/com/reactlibrary/TPAThePerfectAppModule.java:231-235 | copying a copy gives the same copy |
| Deconstruct.CopyMapIdentity | android/src/main/java/com/reactlibrary/TPAThePerfectAppModule.java:176-212 | a map of supported values is copied unchanged |
| Deconstruct.CopyMapOfFixedPoints | android/src/main/java/com/reactlibrary/TPAThePerfectAppModule.java:199-200 | a map whose values copy to themselves copies to itself |
| Deconstruct.CopyArrayOfFixedPoints | android/src/main/java/com/reactlibrary/TPAThePerfectAppModule.java:231-235 | an array whose elements copy to themselves copies to itself |
| Deconstruct.ArrayPositionsPreserved | android/src/main/java/com/reactlibrary/TPAThePerfectAppModule.java:216-236 | when every element is supported and copies, the array copy keeps the length, and element i is the copy of input element i |
| Deconstruct.SkipThenKeptFails | android/src/main/java/com/reactlibrary/TPAThePerfectAppModule.java:237-240 | a skipped element followed by a supported one makes the array copy raise `IndexOutOfBounds`; only the hypothetical `Unsupported` kind is skipped |
| Deconstruct.TagsExample | android/src/main/java/com/reactlibrary/TPAThePerfectAppModule.java:251-273 | `{a: true, b: 3.5, c: "x", d: null, e: {nested: 1}}` flattens to `{a: "true", b: "3.5", c: "x", d: null}` |
| BridgeModule.Log | android/src/main/java/com/reactlibrary/TPAThePerfectAppModule.java:142-161 | a null or unrecognised level makes no log call; each of the four level names makes exactly one call, at that level, with an empty tag |
| BridgeModule.LogAgreesWithLogLevelLookup | android/src/main/java/com/reactlibrary/TPAThePerfectAppModule.java:147-160 | the level `log` uses for a string is the one the configuration's `getLogLevel` gives for it |
| BridgeModule.TPAThePerfectAppModule.constructor | android/src/main/java/com/reactlibrary/TPAThePerfectAppModule.java:37-42 | a new module has no timing table |
| BridgeModule.TPAThePerfectAppModule.Initialize | android/src/main/java/com/reactlibrary/TPAThePerfectAppModule.java:51-53 | the parsed configuration goes to the SDK and the timing table becomes a fresh, empty one; if parsing raises, nothing changes |
| BridgeModule.TPAThePerfectAppModule.StartTimingEvent | android/src/main/java/com/reactlibrary/TPAThePerfectAppModule.java:110-112 | before any `initialize` this raises a null dereference; otherwise the table's start, at the truncated timestamp |
| BridgeModule.TPAThePerfectAppModule.TrackTimingEvent | android/src/main/java/com/reactlibrary/TPAThePerfectAppModule.java:115-117 | a null table raises; otherwise the table's track without tags |
| BridgeModule.TPAThePerfectAppModule.TrackTimingEventWithTags | android/src/main/java/com/reactlibrary/TPAThePerfectAppModule.java:120-122 | a null table or a null tag map raises; otherwise the table's track with the flattened tags |
| BridgeModule.TPAThePerfectAppModule.StartInitializeTrack | android/src/main/java/com/reactlibrary/TPAThePerfectAppModule.java:53 | an event started before a successful `initialize` cannot be tracked after it: the new table is left empty and makes no SDK call |
| JsBridge.LooselyNull | index.js:289 | `x == null` holds exactly for the values a `= null` default turns into null, that is undefined and null |
| JsBridge.Truthy | index.js:303 | undefined and null are falsy, a boolean is itself, a string is truthy iff non-empty, a number iff neither zero nor NaN, an object always |
| JsBridge.GetProperty | index.js:290 | a property read on undefined or null raises a `TypeError`; a missing property is undefined |
| JsBridge.DefaultNull | index.js:268 | a default parameter `= null` replaces only an undefined argument |
| JsBridge.TemplateText | index.js:290 | a string interpolates as itself |
| JsBridge.DecimalString | index.js:21 | `${timestamp}` writes at least one decimal digit, with no leading zero |
| JsBridge.DecimalRoundTrip | index.js:21 | the decimal text of a timestamp reads back as that timestamp |
| JsBridge.DecimalStringInjective | index.js:21 | different timestamps are written differently |
| JsBridge.FirstNonDigit | index.js:21 | the result is the length of the leading run of digits: every character before it is a digit, and the character at it, if any, is not |
| JsBridge.IdentifierPrefix | index.js:21 | the prefix starts with `category-name-`, ends with `-`, and holds the timestamp's decimal text between them |
| JsBridge.FirstNonDigitAfterDigits | index.js:21 | a run of digits ends at the `-` that follows it |
| JsBridge.GenerateTimingEventIdentifier | index.js:20-26 | the identifier is `category-name-timestamp-` followed by exactly the ten fragments, in order |
| JsBridge.IdentifierDeterminesTimestamp | index.js:21 | two identifiers for the same category and name agree only if their timestamps agree |
| JsBridge.Split | index.js:270 | `split('\n')` gives at least one piece, none containing a newline, and at least two exactly when the text has a newline |
| JsBridge.Join | index.js:272 | `join('\n')`: no pieces give "", one piece gives itself, and with two or more the text starts with the first piece and a newline |
| JsBridge.JoinSplit | index.js:270-272 | joining the split pieces with newlines gives back the text |
| JsBridge.SplitJoin | index.js:270-272 | splitting newline-free pieces joined with newlines gives back the pieces |
| JsBridge.SplitAfterLine | index.js:270-271 | the pieces of `line + "\n" + rest` are `line`, then the pieces of `rest` |
| JsBridge.DropFirstLine | index.js:270-272 | a stack with no newline becomes the empty string |
| JsBridge.DropFirstLineIsRest | index.js:270-272 | removing the first line keeps exactly what follows the first newline |
| JsBridge.ForwardedLinesAreTail | index.js:270-272 | the forwarded lines are the captured lines after the first, in order |
| JsBridge.ReportNonFatalIssue | index.js:268-273 | the stack is forwarded without its first line, an absent stack as "", and an undefined reason or user-info map as null |
| JsBridge.ReportNonFatalIssueWithError | index.js:288-293 | an undefined or null error raises a `TypeError`. A reason that is neither null nor undefined is forwarded unchanged; otherwise the reason is `${error.name}: ${error.message}`. The error's own stack is forwarded |
| JsBridge.DefaultReasonFromError | index.js:289-291 | for an error whose name and message are strings, an undefined or null reason becomes exactly "name: message" |
| JsBridge.WrapperLevelString | index.js:329-353 | each wrapper's level string is the level's own name, which the configuration's level lookup maps back to that level |
| JsBridge.LogWrapper | index.js:328-354 | each `log.*` wrapper makes one native log call with the message unchanged |
| JsBridge.WrappersReachNativeLevels | index.js:329 | each wrapper's level string is one the native `log` switch recognises, and it logs once at the wrapper's own level |
| JsBridge.TpaJs.constructor | index.js:28 | `logDebug` starts as false |
| JsBridge.TpaJs.Initialize | index.js:112-118 | `logDebug` takes `configuration.tpaDebugLog` only when the configuration is neither null nor undefined and that property is defined; otherwise it keeps its value. The native `initialize` is always called |
| JsBridge.TpaJs.StartTimingEvent | index.js:221-226 | the returned identifier and the timestamp are the ones passed to the native start call |
| JsBridge.TpaJs.ExitWithFatalError | index.js:302-309 | an undefined error with a truthy `logDebug` forwards nothing. Otherwise an undefined or null error raises a `TypeError`, and any other error forwards "name: message" with the error |

## Left out

- The closed SDK (`TPA.*`, `TPACrossPlatformIssueReporting`, `TPACrossPlatformLifeCycle`) and
  the `TpaConfiguration.Builder` internals and defaults. SDK handles are opaque numbers passed
  in as parameters. SDK calls are entries of ghost traces. Builder defaults are the `Default`
  case of a setting.
- Floating point. A `Double` is an opaque 64-bit pattern. `Double.longValue()` and
  `String.valueOf(double)` are function parameters of the members that use them. So is
  JavaScript's number-to-text conversion, as are the texts of the `Math.random() * 10`
  fragments.
- The clock and randomness. `Date.now()` is a non-negative integer parameter. Its text is
  plain decimal digits for every value; JavaScript switches to exponent notation only from
  10^21, far above any `Date.now()` value (at most 8.64 × 10^15). The native
  `getNewTimingEventIdentifier` (a random UUID) is not modelled.
- `new Error('').stack` is a parameter, and undefined when absent. `parseErrorStack` is not
  modelled: the native fatal-error call records the error it would parse. The `console.warn`
  in `exitWithFatalError` is not modelled.
- Lifecycle and UI plumbing: `getCurrentActivity`, `initLifecycle`, `checkForUpdate` and
  `startFeedback`. The untagged and tagged screen and event tracking methods are plain
  forwards, except that their tags go through the tags copy modelled here.
- `reportNonFatalIssue` on the native side only forwards; its `userInfo` goes through the
  general copy modelled here.
- The iOS and Windows sources and `index.d.ts` contain no logic.
- Exception classes are simplified:
  - React Native's getter errors (`UnexpectedNativeTypeException`, or a
    `NoSuchKeyException` for a missing key) are one `UnexpectedNativeType`;
  - a failed `ArrayList.add` is `IndexOutOfBounds`.
- JavaScript values are undefined, null, booleans, numbers, strings and plain objects. The model
  leaves out functions, symbols, properties of primitives (such as a string's `length`), and
  objects with their own `toString`. Template literals render an object as `[object Object]`.
- Concurrency: the React bridge calls these methods one at a time.
- Java arguments that may be null are modelled as non-null values: the `log` message, the
  timing identifier, the `url` and `projectUuid` passed to `initialize`, and the boxed `Double`
  timestamps of the native `startTimingEvent`, `trackTimingEvent` and
  `trackTimingEventWithTags`. A null timing identifier would be a valid `HashMap` key; a null
  timestamp would raise at `.longValue()`.
- TimingEvents.GetDuration: |end − start| is proved only when the distance fits in a Java
  `long`; beyond that the `long` subtraction wraps, as `DurationWrapsWhenDistanceExceedsLong`
  shows.
- Deconstruct.DeconstructMap: the iterator's key order is not modelled. Every order gives the
  same result, because the output is a map and every failure is the same exception.
