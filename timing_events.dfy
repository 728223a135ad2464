/** The timing-event table of the Android bridge: it correlates a caller-chosen identifier
    with the handle the SDK issued when the event started and the start timestamp, so that
    a later "track" can compute the elapsed time and report it against that handle. */
module TimingEvents {
  import opened Wrappers

  const MinLong: int := -0x8000_0000_0000_0000
  const MaxLong: int := 0x7FFF_FFFF_FFFF_FFFF

  /** A Java `long`. */
  type Long = x: int | MinLong <= x <= MaxLong

  /** The opaque handle `TPA.startTimingEvent(category, name)` returns. */
  type Handle = nat

  /** Tags as the bridge passes them to the SDK: string keys, string values that may be null. */
  type Tags = map<string, Nullable<string>>

  /** `TimingEventWrapper`: the SDK handle and the start timestamp of one event. */
  datatype Entry = Entry(handle: Handle, startTimestamp: Long)

  /** The SDK calls this table makes, in the order it makes them. */
  datatype SdkCall =
    | StartTiming(category: string, name: string, handle: Handle)
    | TrackTiming(handle: Handle, duration: Long)
    | TrackTimingWithTags(handle: Handle, duration: Long, tags: Tags)

  function Abs(x: int): nat {
    if x < 0 then -x else x
  }

  /** Two's-complement wrap-around of Java `long` subtraction. */
  function WrapLong(x: int): (r: Long)
    ensures MinLong <= x <= MaxLong ==> r == x
    ensures (x - r) % 0x1_0000_0000_0000_0000 == 0
  {
    (x - MinLong) % 0x1_0000_0000_0000_0000 + MinLong
  }

  /** `getDuration`: the distance between the two timestamps, computed in `long` arithmetic.
      It is |end - start| whenever that distance fits in a `long`, which is always the case
      for two non-negative timestamps such as `Date.now()` values. */
  function GetDuration(start: Long, end: Long): (d: Long)
    ensures Abs(end - start) <= MaxLong ==> d == Abs(end - start)
    ensures 0 <= start && 0 <= end ==> d == Abs(end - start)
    ensures d == 0 <==> start == end
  {
    if start > end then WrapLong(start - end) else WrapLong(end - start)
  }

  /** The duration does not depend on which of the two timestamps is the later one. */
  lemma DurationSymmetric(start: Long, end: Long)
    ensures GetDuration(start, end) == GetDuration(end, start)
  {
  }

  /** Outside the range of `Date.now()` the `long` subtraction wraps: any two timestamps
      further apart than `MaxLong` give a negative duration, the distance less 2^64. */
  lemma DurationWrapsWhenDistanceExceedsLong(start: Long, end: Long)
    requires Abs(end - start) > MaxLong
    ensures GetDuration(start, end) < 0
    ensures GetDuration(start, end) == Abs(end - start) - 0x1_0000_0000_0000_0000
  {
  }

  /** The extreme case: from `Long.MIN_VALUE` to 0, in either order, the duration is
      `Long.MIN_VALUE` itself. */
  lemma DurationFromMinLongToZero()
    ensures GetDuration(MinLong, 0) == MinLong && GetDuration(0, MinLong) == MinLong
  {
    DurationWrapsWhenDistanceExceedsLong(MinLong, 0);
    DurationWrapsWhenDistanceExceedsLong(0, MinLong);
  }

  /** The SDK call `trackTimingEvent` makes for a stored entry: the tagged variant exactly
      when tags are present, both reporting the entry's handle and the duration up to `end`. */
  function TrackCall(e: Entry, end: Long, tags: Nullable<Tags>): (c: SdkCall)
    ensures c.TrackTimingWithTags? <==> tags.NonNull?
    ensures c.TrackTiming? <==> tags.Null?
    ensures c.handle == e.handle && c.duration == GetDuration(e.startTimestamp, end)
    ensures c.TrackTimingWithTags? ==> c.tags == tags.value
  {
    match tags
    case Null => TrackTiming(e.handle, GetDuration(e.startTimestamp, end))
    case NonNull(t) => TrackTimingWithTags(e.handle, GetDuration(e.startTimestamp, end), t)
  }

  /** `ReactNativeTimingEvents`: the in-flight events, keyed by identifier. The ghost
      `trace` records every SDK call the table has made. */
  class ReactNativeTimingEvents {
    var timingEvents: map<string, Entry>
    ghost var trace: seq<SdkCall>

    /** A new table holds no events and has made no SDK call. */
    constructor ()
      ensures timingEvents == map[] && trace == []
    {
      timingEvents := map[];
      trace := [];
    }

    /** Ask the SDK for a handle for (category, name) and store it with the start timestamp
        under `identifier`, replacing any entry stored there before. `handle` is what the SDK
        returned. */
    method StartTimingEvent(identifier: string, startTimestamp: Long, category: string, name: string, handle: Handle)
      modifies this
      ensures timingEvents == old(timingEvents)[identifier := Entry(handle, startTimestamp)]
      ensures forall id :: id != identifier ==> (id in timingEvents <==> id in old(timingEvents))
      ensures forall id :: id != identifier && id in timingEvents ==> timingEvents[id] == old(timingEvents)[id]
      ensures trace == old(trace) + [StartTiming(category, name, handle)]
    {
      trace := trace + [StartTiming(category, name, handle)];
      timingEvents := timingEvents[identifier := Entry(handle, startTimestamp)];
    }

    /** Remove the entry for `identifier`; only if there was one, report its duration to the
        SDK, with tags when they are present. */
    method TrackTimingEvent(identifier: string, endTimestamp: Long, tags: Nullable<Tags>)
      modifies this
      ensures timingEvents == old(timingEvents) - {identifier}
      ensures identifier !in timingEvents
      ensures forall id :: id != identifier ==> (id in timingEvents <==> id in old(timingEvents))
      ensures forall id :: id in timingEvents ==> timingEvents[id] == old(timingEvents)[id]
      ensures identifier !in old(timingEvents) ==> trace == old(trace)
      ensures identifier in old(timingEvents) ==>
                trace == old(trace) + [TrackCall(old(timingEvents)[identifier], endTimestamp, tags)]
    {
      if identifier in timingEvents {
        var timingEvent := timingEvents[identifier];
        timingEvents := timingEvents - {identifier};
        trace := trace + [TrackCall(timingEvent, endTimestamp, tags)];
      } else {
        timingEvents := timingEvents - {identifier};
      }
    }

    /** Starting the same identifier twice before tracking it: only the second start's
        handle and timestamp are used by the track call, and the identifier is gone after. */
    method StartTwiceThenTrack(identifier: string, category: string, name: string,
                               first: Handle, firstStart: Long, second: Handle, secondStart: Long,
                               endTimestamp: Long, tags: Nullable<Tags>)
      modifies this
      ensures timingEvents == old(timingEvents) - {identifier}
      ensures trace == old(trace) + [StartTiming(category, name, first), StartTiming(category, name, second),
                                     TrackCall(Entry(second, secondStart), endTimestamp, tags)]
    {
      StartTimingEvent(identifier, firstStart, category, name, first);
      StartTimingEvent(identifier, secondStart, category, name, second);
      TrackTimingEvent(identifier, endTimestamp, tags);
    }
  }
}
