/**
  The interval of footage a retrieval asks for (`src/cameraMediaRetrieval.js`).
  Times are milliseconds. The HTTP calls are not part of this model: what they
  answer is an input of the recovery step.
*/
module CameraMedia {
  import opened Wrappers

  const MIN_WINDOW_SECONDS := 5
  const MAX_WINDOW_SECONDS := 600

  /** A time field of the raw event: not there, there but unparseable, or an instant. */
  datatype Stamp = Missing | Unreadable | At(ms: int)

  datatype RawEvent = RawEvent(
    assetId: Option<string>, vehicleId: Option<string>,
    startMs: Stamp, endMs: Stamp, time: Stamp,
    happenedAtTime: Stamp, createdAtTime: Stamp, updatedAtTime: Stamp)

  datatype Window = Window(vehicleId: string, startMs: int, endMs: int)

  function ClampSeconds(value: Option<int>, min: int, max: int, fallback: int): (r: int)
    requires min <= fallback <= max
    ensures min <= r <= max
  {
    if value.None? then fallback
    else if value.value < min then min
    else if value.value > max then max
    else value.value
  }

  /** `a ?? b ?? ...`: the first field that is there, even if it cannot be parsed. */
  function FirstPresent(stamps: seq<Stamp>): Stamp {
    if stamps == [] then Missing
    else if stamps[0].Missing? then FirstPresent(stamps[1..])
    else stamps[0]
  }

  /** `x || y` on the two places a vehicle id may be; an empty id is falsy. */
  function VehicleOf(raw: RawEvent): Option<string> {
    if raw.assetId.Some? && raw.assetId.value != "" then raw.assetId
    else if raw.vehicleId.Some? && raw.vehicleId.value != "" then raw.vehicleId
    else None
  }

  function StartField(raw: RawEvent): Stamp {
    FirstPresent([raw.startMs, raw.time, raw.happenedAtTime, raw.createdAtTime])
  }

  function EndField(raw: RawEvent): Stamp {
    FirstPresent([raw.endMs, raw.time, raw.happenedAtTime, raw.updatedAtTime, raw.createdAtTime])
  }

  /** The instants between which the event happened, when it reports any. */
  function EventSpan(raw: RawEvent): Option<(int, int)> {
    var s, e := StartField(raw), EndField(raw);
    if !s.At? && !e.At? then None
    else
      var first := if s.At? then s.ms else e.ms;
      var last := if e.At? then e.ms else s.ms;
      Some((first, if last > first then last else first))
  }

  function BuildRetrievalWindow(raw: Option<RawEvent>, beforeSeconds: Option<int>,
                                afterSeconds: Option<int>): Option<Window>
  {
    if raw.None? || VehicleOf(raw.value).None? then None
    else
      var before := ClampSeconds(beforeSeconds, 0, MAX_WINDOW_SECONDS, 15);
      var after := ClampSeconds(afterSeconds, MIN_WINDOW_SECONDS, MAX_WINDOW_SECONDS, 45);
      match EventSpan(raw.value)
      case None => None
      case Some((first, last)) =>
        var start := first - before * 1000;
        var end := last + after * 1000;
        var end := if end - start < MIN_WINDOW_SECONDS * 1000 then start + MIN_WINDOW_SECONDS * 1000 else end;
        var end := if end - start > MAX_WINDOW_SECONDS * 1000 then start + MAX_WINDOW_SECONDS * 1000 else end;
        Some(Window(VehicleOf(raw.value).value, start, end))
  }

  /** Never empty, never runaway. */
  ghost predicate Genuine(w: Window) {
    w.vehicleId != "" && MIN_WINDOW_SECONDS * 1000 <= w.endMs - w.startMs <= MAX_WINDOW_SECONDS * 1000
  }

  /** A genuine window on the event's own vehicle that holds the event's start, or its end when no start can be read. */
  ghost predicate Covers(w: Window, raw: Option<RawEvent>) {
    && Genuine(w) && raw.Some?
    && Some(w.vehicleId) == VehicleOf(raw.value)
    && (StartField(raw.value).At? ==> w.startMs <= StartField(raw.value).ms <= w.endMs)
    && (!StartField(raw.value).At? ==>
          EndField(raw.value).At? && w.startMs <= EndField(raw.value).ms <= w.endMs)
  }

  /** The window is never empty nor runaway, is on the event's own vehicle, and holds the event's start. */
  lemma WindowHoldsTheEvent(raw: RawEvent, before: Option<int>, after: Option<int>)
    ensures BuildRetrievalWindow(Some(raw), before, after).None?
            <==> VehicleOf(raw).None? || (!StartField(raw).At? && !EndField(raw).At?)
    ensures var w := BuildRetrievalWindow(Some(raw), before, after);
            w.Some? ==> Covers(w.value, Some(raw))
  {}

  /**
    The whole event is inside the window exactly when it fits in ten minutes
    together with the padding before it: the padding after it is what is cut.
    With the largest padding before, not a moment after the start is asked for.
  */
  lemma WindowCoversWholeEvent(raw: RawEvent, before: Option<int>, after: Option<int>)
    ensures var w := BuildRetrievalWindow(Some(raw), before, after);
            var padding := ClampSeconds(before, 0, MAX_WINDOW_SECONDS, 15);
            w.Some? ==>
              var (first, last) := EventSpan(raw).value;
              && (w.value.endMs >= last <==> padding * 1000 + (last - first) <= MAX_WINDOW_SECONDS * 1000)
              && (w.value.endMs > first <==> padding < MAX_WINDOW_SECONDS)
  {}

  // ---- Where the window lies ---------------------------------------------------------------

  /** An event happened from its own start to its own end; other times stand in for what it does not report. */
  lemma OwnTimesComeFirst(raw: RawEvent)
    ensures raw.startMs.At? ==> EventSpan(raw).Some? && EventSpan(raw).value.0 == raw.startMs.ms
    ensures raw.startMs.At? && raw.endMs.At? && raw.startMs.ms <= raw.endMs.ms
            ==> EventSpan(raw) == Some((raw.startMs.ms, raw.endMs.ms))
    ensures raw.startMs.At? && raw.endMs.At? && raw.endMs.ms < raw.startMs.ms
            ==> EventSpan(raw) == Some((raw.startMs.ms, raw.startMs.ms))
    ensures raw.startMs.Missing? && raw.endMs.Missing? && raw.time.At?
            ==> EventSpan(raw) == Some((raw.time.ms, raw.time.ms))
    ensures raw.startMs.Missing? && raw.endMs.Missing? && raw.time.Missing? && raw.happenedAtTime.At?
            ==> EventSpan(raw) == Some((raw.happenedAtTime.ms, raw.happenedAtTime.ms))
    ensures raw.startMs.Missing? && raw.endMs.Missing? && raw.time.Missing? && raw.happenedAtTime.Missing?
            && raw.createdAtTime.At? && raw.updatedAtTime.At? && raw.createdAtTime.ms <= raw.updatedAtTime.ms
            ==> EventSpan(raw) == Some((raw.createdAtTime.ms, raw.updatedAtTime.ms))
    // a time that is there but cannot be read is not replaced by another
    ensures raw.startMs.Unreadable? && raw.endMs.At? ==> EventSpan(raw) == Some((raw.endMs.ms, raw.endMs.ms))
    ensures raw.startMs.Unreadable? && raw.endMs.Unreadable? ==> EventSpan(raw).None?
  {
    FirstOfThree(raw.time, raw.happenedAtTime, [raw.createdAtTime]);
    FirstOfThree(raw.time, raw.happenedAtTime, [raw.updatedAtTime, raw.createdAtTime]);
    var others := [raw.time, raw.happenedAtTime] + [raw.createdAtTime];
    assert [raw.startMs, raw.time, raw.happenedAtTime, raw.createdAtTime][1..] == others;
    var later := [raw.time, raw.happenedAtTime] + [raw.updatedAtTime, raw.createdAtTime];
    assert [raw.endMs, raw.time, raw.happenedAtTime, raw.updatedAtTime, raw.createdAtTime][1..] == later;
  }

  lemma FirstOfThree(a: Stamp, b: Stamp, rest: seq<Stamp>)
    ensures FirstPresent([a, b] + rest) == if !a.Missing? then a else if !b.Missing? then b else FirstPresent(rest)
    ensures rest != [] && !rest[0].Missing? ==> FirstPresent(rest) == rest[0]
  {
    assert ([a, b] + rest)[1..] == [b] + rest && ([b] + rest)[1..] == rest;
  }

  /** The vehicle is the event's asset, and otherwise its vehicle. */
  lemma AssetComesFirst(raw: RawEvent)
    ensures raw.assetId.Some? && raw.assetId.value != "" ==> VehicleOf(raw) == raw.assetId
    ensures raw.assetId in {None, Some("")} && raw.vehicleId.Some? && raw.vehicleId.value != ""
            ==> VehicleOf(raw) == raw.vehicleId
    ensures raw.assetId in {None, Some("")} && raw.vehicleId in {None, Some("")} ==> VehicleOf(raw) == None
  {}

  /** With paddings in range the window begins and ends with them, but for the cut at ten minutes. */
  lemma WindowIsPadded(raw: RawEvent, before: int, after: int)
    requires 0 <= before <= 600 && 5 <= after <= 600
    ensures var w := BuildRetrievalWindow(Some(raw), Some(before), Some(after));
            w.Some? ==>
              var (first, last) := EventSpan(raw).value;
              && w.value.startMs == first - 1000 * before
              && w.value.endMs == (if last + 1000 * after <= w.value.startMs + 600000 then last + 1000 * after
                                   else w.value.startMs + 600000)
  {}

  /** Other paddings count as the nearest in range, and none as 15 seconds before and 45 after. */
  lemma PaddingIsClamped(raw: Option<RawEvent>, before: Option<int>, after: Option<int>)
    ensures BuildRetrievalWindow(raw, None, after) == BuildRetrievalWindow(raw, Some(15), after)
    ensures BuildRetrievalWindow(raw, before, None) == BuildRetrievalWindow(raw, before, Some(45))
    ensures before.Some? && before.value < 0
            ==> BuildRetrievalWindow(raw, before, after) == BuildRetrievalWindow(raw, Some(0), after)
    ensures before.Some? && before.value > 600
            ==> BuildRetrievalWindow(raw, before, after) == BuildRetrievalWindow(raw, Some(600), after)
    ensures after.Some? && after.value < 5
            ==> BuildRetrievalWindow(raw, before, after) == BuildRetrievalWindow(raw, before, Some(5))
    ensures after.Some? && after.value > 600
            ==> BuildRetrievalWindow(raw, before, after) == BuildRetrievalWindow(raw, before, Some(600))
  {
    hide EventSpan, VehicleOf;
  }
}
