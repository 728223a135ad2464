/** The JavaScript side of the bridge (`index.js`): the timing-identifier generator, the
    module-level `logDebug` flag that `initialize` updates and `exitWithFatalError` reads,
    the argument construction of the non-fatal issue reports, and the `log.*` wrappers.
    What the module sends to the native side is recorded as a ghost trace of `NativeCall`s. */
module JsBridge {
  import opened Wrappers
  import opened ReadableValues
  import opened Configuration
  import opened BridgeModule

  /** A JavaScript value, as far as the helpers look at it. Objects are their properties,
      own or inherited, by name. */
  datatype JsValue =
    | Undefined
    | JsNull
    | JsBoolean(b: bool)
    | JsNumber(d: Double)
    | JsString(s: string)
    | JsObject(properties: map<string, JsValue>)

  /** What the JavaScript module hands to the native module. */
  datatype NativeCall =
    | NativeInitialize(url: string, projectUuid: string, configuration: JsValue)
    | NativeStartTimingEvent(identifier: string, startTimestamp: nat, category: string, name: string)
    | NativeReportNonFatalIssue(stackTrace: JsValue, reason: JsValue, userInfo: JsValue)
    | NativeExitWithFatalError(message: string, parsedStackOf: JsValue)
    | NativeLog(logLevel: string, message: string)

  /** `v.key`: reading a property of undefined or null raises a TypeError; a property an
      object lacks, or any property of a primitive, is undefined. */
  function GetProperty(v: JsValue, key: string): (r: Result<JsValue>)
    ensures r.Failure? <==> v.Undefined? || v.JsNull?
    ensures r.Failure? ==> r.error == TypeError
    ensures r.Success? && r.value != Undefined ==> v.JsObject? && key in v.properties && v.properties[key] == r.value
    ensures v.JsObject? && key in v.properties ==> r == Success(v.properties[key])
  {
    match v
    case Undefined => Failure(TypeError)
    case JsNull => Failure(TypeError)
    case JsObject(properties) => Success(if key in properties then properties[key] else Undefined)
    case _ => Success(Undefined)
  }

  /** A default parameter (`reason = null`): it replaces only an undefined argument. */
  function DefaultNull(v: JsValue): (r: JsValue)
    ensures r.Undefined? == false
    ensures v.Undefined? ==> r == JsNull
    ensures !v.Undefined? ==> r == v
  {
    if v.Undefined? then JsNull else v
  }

  /** `x == null`: loose equality with null holds for null and undefined only, which are
      exactly the values a `= null` default turns into null. */
  function LooselyNull(v: JsValue): (b: bool)
    ensures b <==> DefaultNull(v) == JsNull
  {
    v.Undefined? || v.JsNull?
  }

  predicate IsNaN(d: Double) {
    (d.bits >> 52) & 0x7FF == 0x7FF && d.bits & 0xF_FFFF_FFFF_FFFF != 0
  }

  predicate IsZero(d: Double) {
    d.bits & 0x7FFF_FFFF_FFFF_FFFF == 0
  }

  /** JavaScript truthiness: loosely null values, `false`, zero, NaN and the empty string
      are falsy; every other value, objects included, is truthy. */
  function Truthy(v: JsValue): (b: bool)
    ensures LooselyNull(v) ==> !b
    ensures v.JsBoolean? ==> b == v.b
    ensures v.JsString? ==> (b <==> v.s != "")
    ensures v.JsNumber? ==> (b <==> !IsZero(v.d) && !IsNaN(v.d))
    ensures v.JsObject? ==> b
  {
    match v
    case Undefined => false
    case JsNull => false
    case JsBoolean(b) => b
    case JsNumber(d) => !IsZero(d) && !IsNaN(d)
    case JsString(s) => s != ""
    case JsObject(_) => true
  }

  /** The text a template literal `${v}` inserts; `formatNumber` is JavaScript's number-to-string
      conversion. Objects use the default `Object.prototype.toString`. */
  function TemplateText(v: JsValue, formatNumber: Double -> string): (s: string)
    ensures v.JsString? ==> s == v.s
  {
    match v
    case Undefined => "undefined"
    case JsNull => "null"
    case JsBoolean(b) => if b then "true" else "false"
    case JsNumber(d) => formatNumber(d)
    case JsString(s) => s
    case JsObject(_) => "[object Object]"
  }

  // ---- Decimal text of Date.now() ----

  predicate IsDigit(c: char) {
    '0' <= c <= '9'
  }

  function DigitChar(d: nat): (c: char)
    requires d < 10
    ensures IsDigit(c) && c as int - '0' as int == d
  {
    ('0' as int + d) as char
  }

  /** The decimal text of a non-negative integer, as `${n}` writes a millisecond timestamp. */
  function DecimalString(n: nat): (s: string)
    decreases n
    ensures |s| >= 1
    ensures forall i :: 0 <= i < |s| ==> IsDigit(s[i])
    ensures s[0] == '0' ==> n == 0
  {
    if n < 10 then [DigitChar(n)] else DecimalString(n / 10) + [DigitChar(n % 10)]
  }

  /** The number a string of decimal digits denotes. */
  function DecimalValue(s: string): nat
    requires forall i :: 0 <= i < |s| ==> IsDigit(s[i])
  {
    if s == [] then 0
    else
      assert IsDigit(s[|s| - 1]);
      DecimalValue(s[..|s| - 1]) * 10 + (s[|s| - 1] as int - '0' as int)
  }

  /** The decimal text reads back as the number it was written from. */
  lemma {:induction false} DecimalRoundTrip(n: nat)
    ensures DecimalValue(DecimalString(n)) == n
    decreases n
  {
    if n >= 10 {
      var s := DecimalString(n);
      assert s[..|s| - 1] == DecimalString(n / 10);
      DecimalRoundTrip(n / 10);
    }
  }

  /** Different timestamps are written as different texts. */
  lemma DecimalStringInjective(m: nat, n: nat)
    requires DecimalString(m) == DecimalString(n)
    ensures m == n
  {
    DecimalRoundTrip(m);
    DecimalRoundTrip(n);
  }

  // ---- Timing identifiers ----

  /** The strings of `parts` one after the other. */
  function Concat(parts: seq<string>): (s: string)
    ensures parts == [] ==> s == ""
  {
    if parts == [] then "" else Concat(parts[..|parts| - 1]) + parts[|parts| - 1]
  }

  /** The number of random fragments appended to an identifier. */
  const FragmentCount := 10

  /** `${category}-${name}-${startTimestamp}-` */
  function IdentifierPrefix(category: string, name: string, startTimestamp: nat): (r: string)
    ensures category + "-" + name + "-" <= r
    ensures |r| == |category| + |name| + |DecimalString(startTimestamp)| + 3 && r[|r| - 1] == '-'
    ensures r[|category| + |name| + 2..|r| - 1] == DecimalString(startTimestamp)
  {
    category + "-" + name + "-" + DecimalString(startTimestamp) + "-"
  }

  /** `generateTimingEventIdentifier`: the prefix, then ten fragments appended one per loop
      iteration; `randomText(i)` is the text of the i-th `Math.random() * 10`. */
  method GenerateTimingEventIdentifier(category: string, name: string, startTimestamp: nat, randomText: int -> string)
    returns (identifier: string)
    ensures identifier == IdentifierPrefix(category, name, startTimestamp) + Concat(seq(FragmentCount, i => randomText(i)))
    ensures IdentifierPrefix(category, name, startTimestamp) <= identifier
  {
    identifier := IdentifierPrefix(category, name, startTimestamp);
    ghost var prefix := identifier;
    for i := 0 to FragmentCount
      invariant identifier == prefix + Concat(seq(i, j => randomText(j)))
    {
      assert seq(i + 1, j => randomText(j))[..i] == seq(i, j => randomText(j));
      identifier := identifier + randomText(i);
    }
  }

  /** The length of the run of digits at the start of `s`. */
  function FirstNonDigit(s: string): (n: nat)
    ensures n <= |s|
    ensures forall i :: 0 <= i < n ==> IsDigit(s[i])
    ensures n < |s| ==> !IsDigit(s[n])
  {
    if s == [] || !IsDigit(s[0]) then 0 else 1 + FirstNonDigit(s[1..])
  }

  /** A run of digits ends where a non-digit follows it. */
  lemma {:induction false} FirstNonDigitAfterDigits(digits: string, rest: string)
    requires forall i :: 0 <= i < |digits| ==> IsDigit(digits[i])
    requires rest != [] && !IsDigit(rest[0])
    ensures FirstNonDigit(digits + rest) == |digits|
  {
    if digits != [] {
      assert (digits + rest)[1..] == digits[1..] + rest;
      FirstNonDigitAfterDigits(digits[1..], rest);
    }
  }

  /** The timestamp's digits follow the category and the name in the identifier, so two
      identifiers for the same category and name but different timestamps differ. */
  lemma IdentifierDeterminesTimestamp(category: string, name: string, t1: nat, t2: nat, f1: string, f2: string)
    requires IdentifierPrefix(category, name, t1) + f1 == IdentifierPrefix(category, name, t2) + f2
    ensures t1 == t2
  {
    var head := category + "-" + name + "-";
    var d1, d2 := DecimalString(t1), DecimalString(t2);
    var s := IdentifierPrefix(category, name, t1) + f1;
    assert s == head + d1 + "-" + f1;
    assert s == head + d2 + "-" + f2;
    var k := |head|;
    // The digits run from k up to the first non-digit, which is the '-' after them.
    var r1, r2 := "-" + f1, "-" + f2;
    assert s[k..] == d1 + r1;
    assert s[k..] == d2 + r2;
    FirstNonDigitAfterDigits(d1, r1);
    FirstNonDigitAfterDigits(d2, r2);
    assert (d1 + r1)[..|d1|] == d1;
    assert (d2 + r2)[..|d2|] == d2;
    DecimalStringInjective(t1, t2);
  }

  // ---- Stack-trace lines ----

  /** `s.split('\n')`: the pieces between newlines; a string without one is a single piece. */
  function Split(s: string): (parts: seq<string>)
    ensures |parts| >= 1
    ensures '\n' in s <==> |parts| >= 2
    ensures forall i :: 0 <= i < |parts| ==> '\n' !in parts[i]
  {
    if s == [] then [""]
    else
      var rest := Split(s[1..]);
      if s[0] == '\n' then [""] + rest else [[s[0]] + rest[0]] + rest[1..]
  }

  /** `parts.join('\n')`: the pieces in order, a newline between each two. */
  function Join(parts: seq<string>): (r: string)
    ensures parts == [] ==> r == ""
    ensures |parts| == 1 ==> r == parts[0]
    ensures |parts| >= 2 ==> |r| > |parts[0]| && r[..|parts[0]|] == parts[0] && r[|parts[0]|] == '\n'
  {
    if parts == [] then ""
    else if |parts| == 1 then parts[0]
    else parts[0] + "\n" + Join(parts[1..])
  }

  /** Splitting at newlines and joining with newlines gives back the string. */
  lemma {:induction false} JoinSplit(s: string)
    ensures Join(Split(s)) == s
  {
    if s != [] {
      JoinSplit(s[1..]);
      var rest := Split(s[1..]);
      if s[0] != '\n' {
        assert Split(s)[1..] == rest[1..];
        if |rest| > 1 {
          assert Join(rest) == rest[0] + "\n" + Join(rest[1..]);
        }
      }
    }
  }

  /** Putting a character in front of the first piece puts it in front of the joined text. */
  lemma {:induction false} JoinConsChar(c: char, parts: seq<string>)
    requires |parts| >= 1
    ensures Join([[c] + parts[0]] + parts[1..]) == [c] + Join(parts)
  {
    var q := [[c] + parts[0]] + parts[1..];
    assert |q| == |parts| && q[0] == [c] + parts[0] && q[1..] == parts[1..];
    if |parts| == 1 {
      assert Join(q) == q[0];
    } else {
      var rest := Join(parts[1..]);
      assert Join(parts) == parts[0] + "\n" + rest;
      assert Join(q) == q[0] + "\n" + rest;
      assert ([c] + parts[0]) + "\n" + rest == [c] + (parts[0] + "\n" + rest);
    }
  }

  /** Joining newline-free pieces and splitting again gives back the pieces. */
  lemma {:induction false} SplitJoin(parts: seq<string>)
    requires |parts| >= 1
    requires forall i :: 0 <= i < |parts| ==> '\n' !in parts[i]
    ensures Split(Join(parts)) == parts
    decreases |parts|, |parts[0]|
  {
    var p := parts[0];
    if p == [] {
      if |parts| > 1 {
        SplitJoin(parts[1..]);
        assert Join(parts) == "\n" + Join(parts[1..]);
        assert ("\n" + Join(parts[1..]))[1..] == Join(parts[1..]);
      }
    } else {
      var tail := [p[1..]] + parts[1..];
      assert forall i :: 0 <= i < |tail| ==> '\n' !in tail[i] by {
        forall i | 0 <= i < |tail| ensures '\n' !in tail[i] {
          if i == 0 { assert forall c :: c in p[1..] ==> c in p; } else { assert tail[i] == parts[i]; }
        }
      }
      SplitJoin(tail);
      assert p == [p[0]] + p[1..];
      JoinConsChar(p[0], tail);
      assert [[p[0]] + tail[0]] + tail[1..] == parts;
      assert Join(parts)[1..] == Join(tail);
      assert p[0] in p;
      assert tail[1..] == parts[1..];
    }
  }

  /** `trace.split('\n')`, `shift()`, `join('\n')`: the stack without its first line. */
  function DropFirstLine(s: string): (r: string)
    ensures '\n' !in s ==> r == ""
  {
    Join(Split(s)[1..])
  }

  /** Splitting a first line off: the line, then the pieces of what follows its newline. */
  lemma {:induction false} SplitAfterLine(line: string, rest: string)
    requires '\n' !in line
    ensures Split(line + "\n" + rest) == [line] + Split(rest)
  {
    var s := line + "\n" + rest;
    if line == [] {
      assert s[1..] == rest;
    } else {
      assert s[1..] == line[1..] + "\n" + rest;
      assert '\n' !in line[1..] by {
        assert forall c :: c in line[1..] ==> c in line;
      }
      SplitAfterLine(line[1..], rest);
      assert [line[0]] + line[1..] == line;
    }
  }

  /** Dropping the first line of a stack with a newline keeps exactly what follows the
      first newline. */
  lemma DropFirstLineIsRest(line: string, rest: string)
    requires '\n' !in line
    ensures DropFirstLine(line + "\n" + rest) == rest
  {
    SplitAfterLine(line, rest);
    assert Split(line + "\n" + rest)[1..] == Split(rest);
    JoinSplit(rest);
  }

  /** The lines forwarded by `reportNonFatalIssue` are the captured lines after the first,
      in order. */
  lemma ForwardedLinesAreTail(s: string)
    requires '\n' in s
    ensures Split(DropFirstLine(s)) == Split(s)[1..]
  {
    SplitJoin(Split(s)[1..]);
  }

  // ---- Non-fatal issues ----

  /** `reportNonFatalIssue(reason = null, userInfoMap = null)`: the native call it makes, given
      the stack of a freshly created error (`capturedStack`, undefined where the engine gives
      none). The first line of the captured stack is dropped. */
  function ReportNonFatalIssue(reason: JsValue, userInfoMap: JsValue, capturedStack: Nullable<string>): (call: NativeCall)
    ensures call.NativeReportNonFatalIssue?
    ensures capturedStack.Null? ==> call.stackTrace == JsString("")
    ensures capturedStack.NonNull? ==> call.stackTrace == JsString(DropFirstLine(capturedStack.value))
    ensures call.reason == DefaultNull(reason) && call.userInfo == DefaultNull(userInfoMap)
  {
    // `new Error('').stack || ''`: an absent or empty stack becomes the empty string.
    var trace := if capturedStack.NonNull? then capturedStack.value else "";
    NativeReportNonFatalIssue(JsString(DropFirstLine(trace)), DefaultNull(reason), DefaultNull(userInfoMap))
  }

  /** `reportNonFatalIssueWithError(error, reason = null, userInfoMap = null)`: a missing reason
      becomes `${error.name}: ${error.message}`; the error's own stack is forwarded. An undefined
      or null error raises a TypeError at the first property read. */
  function ReportNonFatalIssueWithError(error: JsValue, reason: JsValue, userInfoMap: JsValue,
                                        formatNumber: Double -> string): (r: Result<NativeCall>)
    ensures r.Failure? <==> LooselyNull(error)
    ensures r.Failure? ==> r.error == TypeError
    ensures r.Success? ==> r.value.NativeReportNonFatalIssue?
    ensures r.Success? && !LooselyNull(reason) ==> r.value.reason == reason
    ensures r.Success? && LooselyNull(reason) ==>
              r.value.reason == JsString(TemplateText(GetProperty(error, "name").value, formatNumber) + ": " +
                                         TemplateText(GetProperty(error, "message").value, formatNumber))
    ensures r.Success? ==> r.value.stackTrace == GetProperty(error, "stack").value
    ensures r.Success? ==> r.value.userInfo == DefaultNull(userInfoMap)
  {
    // Each path reads a property of `error` first, so a null or undefined error raises there.
    if LooselyNull(error) then Failure(TypeError)
    else
      var reason := DefaultNull(reason);
      var reason := if reason == JsNull then
          JsString(TemplateText(GetProperty(error, "name").value, formatNumber) + ": " +
                   TemplateText(GetProperty(error, "message").value, formatNumber))
        else reason;
      Success(NativeReportNonFatalIssue(GetProperty(error, "stack").value, reason, DefaultNull(userInfoMap)))
  }

  /** With a reason given, the generated text never replaces it; with an error whose name and
      message are strings, a missing reason is exactly "name: message". */
  lemma DefaultReasonFromError(error: map<string, JsValue>, name: string, message: string,
                               userInfoMap: JsValue, formatNumber: Double -> string)
    requires "name" in error && error["name"] == JsString(name)
    requires "message" in error && error["message"] == JsString(message)
    ensures ReportNonFatalIssueWithError(JsObject(error), Undefined, userInfoMap, formatNumber).value.reason
         == JsString(name + ": " + message)
    ensures ReportNonFatalIssueWithError(JsObject(error), JsNull, userInfoMap, formatNumber).value.reason
         == JsString(name + ": " + message)
  {
  }

  // ---- log.* wrappers ----

  /** The level string each `log.*` wrapper passes to the native `log`. */
  function WrapperLevelString(wrapper: LogLevel): (s: string)
    ensures s == LogLevelName(wrapper)
    ensures GetLogLevel(NonNull(s)) == wrapper
  {
    match wrapper
    case Debug => "debug"
    case Info => "info"
    case Warning => "warning"
    case Error => "error"
  }

  /** `TPA.log.debug(message)` and its three siblings. */
  function LogWrapper(wrapper: LogLevel, message: string): (call: NativeCall)
    ensures call.NativeLog? && call.message == message
  {
    NativeLog(WrapperLevelString(wrapper), message)
  }

  /** Every wrapper's string is one the native switch recognises, and it logs at the
      wrapper's own level exactly once. */
  lemma WrappersReachNativeLevels(wrapper: LogLevel, message: string)
    ensures Log(NonNull(LogWrapper(wrapper, message).logLevel), message) == [LogCall(wrapper, "", message)]
  {
  }

  // ---- Module state ----

  /** The module-level state of `index.js`: the `logDebug` flag (initially false), and as
      ghost state the calls made to the native module. */
  class TpaJs {
    var logDebug: JsValue
    ghost var nativeCalls: seq<NativeCall>

    constructor ()
      ensures logDebug == JsBoolean(false) && nativeCalls == []
    {
      logDebug := JsBoolean(false);
      nativeCalls := [];
    }

    /** `initialize`: take `configuration.tpaDebugLog` as the new flag only when the
        configuration is neither null nor undefined and the property is defined; then forward. */
    method Initialize(url: string, projectUuid: string, configuration: JsValue)
      modifies this
      ensures LooselyNull(configuration) ==> logDebug == old(logDebug)
      ensures !LooselyNull(configuration) && GetProperty(configuration, TpaDebugLogKey).value.Undefined? ==>
                logDebug == old(logDebug)
      ensures !LooselyNull(configuration) && !GetProperty(configuration, TpaDebugLogKey).value.Undefined? ==>
                logDebug == GetProperty(configuration, TpaDebugLogKey).value
      ensures nativeCalls == old(nativeCalls) + [NativeInitialize(url, projectUuid, configuration)]
    {
      if configuration != JsNull && configuration != Undefined {
        var tpaDebugLog := GetProperty(configuration, TpaDebugLogKey).value;
        if tpaDebugLog != Undefined {
          logDebug := tpaDebugLog;
        }
      }
      nativeCalls := nativeCalls + [NativeInitialize(url, projectUuid, configuration)];
    }

    /** `startTimingEvent(category, name)`: stamp the start with `now` (`Date.now()`), build
        the identifier, start the native event with both, and return the identifier. */
    method StartTimingEvent(category: string, name: string, now: nat, randomText: int -> string)
      returns (identifier: string)
      modifies this
      ensures identifier == IdentifierPrefix(category, name, now) + Concat(seq(FragmentCount, i => randomText(i)))
      ensures nativeCalls == old(nativeCalls) + [NativeStartTimingEvent(identifier, now, category, name)]
      ensures logDebug == old(logDebug)
    {
      identifier := GenerateTimingEventIdentifier(category, name, now, randomText);
      nativeCalls := nativeCalls + [NativeStartTimingEvent(identifier, now, category, name)];
    }

    /** `exitWithFatalError(error)`: with debug logging on, an undefined error only produces a
        warning; otherwise the error's "name: message" and its parsed stack go to the native
        side, and an undefined or null error raises a TypeError on the way. */
    method ExitWithFatalError(error: JsValue, formatNumber: Double -> string) returns (r: Result<()>)
      modifies this
      ensures logDebug == old(logDebug)
      ensures error.Undefined? && Truthy(logDebug) ==> r.Success? && nativeCalls == old(nativeCalls)
      ensures !(error.Undefined? && Truthy(logDebug)) && LooselyNull(error) ==>
                r == Failure(TypeError) && nativeCalls == old(nativeCalls)
      ensures !LooselyNull(error) ==> r.Success?
      ensures !LooselyNull(error) ==>
                nativeCalls == old(nativeCalls) + [NativeExitWithFatalError(
                  TemplateText(GetProperty(error, "name").value, formatNumber) + ": " +
                  TemplateText(GetProperty(error, "message").value, formatNumber), error)]
    {
      if error == Undefined && Truthy(logDebug) {
        return Success(());
      }
      if LooselyNull(error) {
        return Failure(TypeError);  // `error.name` on undefined or null
      }
      var name := GetProperty(error, "name").value;
      var message := GetProperty(error, "message").value;
      nativeCalls := nativeCalls + [NativeExitWithFatalError(
        TemplateText(name, formatNumber) + ": " + TemplateText(message, formatNumber), error)];
      return Success(());
    }
  }
}
