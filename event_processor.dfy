/**
  The render protocol shared by the kernels: a block of frames is rendered in
  contiguous segments, and the timestamped events of the block are applied
  between segments at the sample time they name.

  The event list (a linked list in the host) is a sequence read through a
  cursor. The calls the processor makes into its kernel (parameter events,
  MIDI events, frame rendering) are recorded as a trace of `Action`s; the
  kernel executes that trace. Which calls are made, and in what order,
  depends only on the event times and the frame count, so recording the
  schedule first and executing it afterwards makes the same calls in the
  same order as interleaving them.
 */
module EventProcessor {
  import opened Numeric

  /** The parameter addresses of the phaser; any other address is Unrecognized. */
  datatype ParameterAddress = Rate | Depth | Intensity | DryMix | WetMix | Odd90 | Unrecognized(raw: int)

  datatype ParameterEvent = ParameterEvent(address: ParameterAddress, value: real, rampDurationSampleFrames: nat)

  datatype MidiEvent = MidiEvent(cable: int, data: seq<int>)

  /** The payload of a render event, by event type. */
  datatype EventBody =
    | Parameter(parameter: ParameterEvent)
    | ParameterRamp(parameter: ParameterEvent)
    | Midi(midi: MidiEvent)
    | Other(eventType: int)

  datatype RenderEvent = RenderEvent(sampleTime: int, body: EventBody)

  /** A call from the processor into its kernel. `index` is the position of the event in the list. */
  datatype Action =
    | RenderFrames(frameCount: nat, offset: nat)
    | ApplyParameter(index: nat, parameter: ParameterEvent)
    | ApplyMidi(index: nat, midi: MidiEvent)

  /**
    The call made for event i, by kind: parameter and ramp events go to the
    parameter handler, MIDI events to the MIDI handler, others are skipped.
   */
  function Dispatch(events: seq<RenderEvent>, i: nat): (acts: seq<Action>)
    requires i < |events|
    ensures |acts| <= 1
    ensures acts == [] <==> events[i].body.Other?
    ensures (events[i].body.Parameter? || events[i].body.ParameterRamp?) ==> acts == [ApplyParameter(i, events[i].body.parameter)]
    ensures events[i].body.Midi? ==> acts == [ApplyMidi(i, events[i].body.midi)]
  {
    match events[i].body
    case Parameter(p) => [ApplyParameter(i, p)]
    case ParameterRamp(p) => [ApplyParameter(i, p)]
    case Midi(m) => [ApplyMidi(i, m)]
    case Other(_) => []
  }

  /** The calls made for events lo .. hi - 1, in list order. */
  function DispatchRange(events: seq<RenderEvent>, lo: nat, hi: nat): (acts: seq<Action>)
    requires lo <= hi <= |events|
    ensures |acts| <= hi - lo
    decreases hi - lo
  {
    if hi == lo then [] else DispatchRange(events, lo, hi - 1) + Dispatch(events, hi - 1)
  }

  /**
    The position of the first event at or after `cursor` whose time is later
    than `now`, or the end of the list.
   */
  function EventsUntil(now: int, events: seq<RenderEvent>, cursor: nat): (next: nat)
    requires cursor <= |events|
    ensures cursor <= next <= |events|
    ensures forall i :: cursor <= i < next ==> events[i].sampleTime <= now
    ensures next == |events| || events[next].sampleTime > now
    ensures cursor < |events| && events[cursor].sampleTime <= now ==> cursor < next
    decreases |events| - cursor
  {
    if cursor == |events| || events[cursor].sampleTime > now then cursor
    else EventsUntil(now, events, cursor + 1)
  }

  /** Every event from `cursor` on falls at or before `limit`: the host's promise about a block. */
  ghost predicate WithinBlock(events: seq<RenderEvent>, cursor: nat, limit: int) {
    forall i :: cursor <= i < |events| ==> events[i].sampleTime <= limit
  }

  /** The frames from `now` to the time of event `cursor`; none when the event is already due. */
  function SegmentLength(now: int, events: seq<RenderEvent>, cursor: nat): (segment: nat)
    requires cursor < |events|
    ensures now + segment >= events[cursor].sampleTime
    ensures segment == 0 || now + segment == events[cursor].sampleTime
  {
    MaxInt(events[cursor].sampleTime - now, 0)
  }

  /**
    Applies, in list order, every event from `cursor` whose time is at or
    before `now`; returns the first event later than `now` and the calls made.
   */
  method RenderEventsUntil(now: int, events: seq<RenderEvent>, cursor: nat) returns (next: nat, trace: seq<Action>)
    requires cursor <= |events|
    ensures next == EventsUntil(now, events, cursor)
    ensures trace == DispatchRange(events, cursor, next)
  {
    next := cursor;
    trace := [];
    while next < |events| && events[next].sampleTime <= now
      invariant cursor <= next <= |events|
      invariant EventsUntil(now, events, next) == EventsUntil(now, events, cursor)
      invariant trace == DispatchRange(events, cursor, next)
      decreases |events| - next
    {
      trace := trace + Dispatch(events, next);
      next := next + 1;
    }
  }

  /**
    The render loop of a block of `frameCount` frames starting at sample time
    `start`. The host promises that no event lies beyond the block; without
    that promise the unsigned frame counter of the loop would wrap.

    The segments render exactly `frameCount` frames, contiguously from offset
    0. When the block is nonempty every event is dispatched once, in list
    order, after as many frames as `Applied` names; an empty block makes no
    calls at all.
   */
  method Render(start: int, frameCount: nat, events: seq<RenderEvent>) returns (trace: seq<Action>)
    requires WithinBlock(events, 0, start + frameCount)
    ensures Frames(trace) == frameCount
    ensures Contiguous(trace, 0)
    ensures frameCount > 0 ==> Schedule(trace, 0) == Applied(events, 0, |events|, start)
    ensures frameCount == 0 ==> trace == []
  {
    var now := start;
    var framesRemaining: nat := frameCount;
    var cursor: nat := 0;
    trace := [];
    while framesRemaining > 0
      invariant framesRemaining <= frameCount && cursor <= |events|
      invariant Progress(events, start, frameCount, framesRemaining, now, cursor, trace)
      invariant frameCount > 0 && framesRemaining == 0 ==> cursor == |events|
      invariant frameCount == 0 ==> trace == []
      decreases |events| - cursor, framesRemaining
    {
      if cursor == |events| {
        var last := [RenderFrames(framesRemaining, frameCount - framesRemaining)];
        FinalSegment(events, start, frameCount, framesRemaining, now, trace, last);
        trace := trace + last;
        return;
      }
      var framesThisSegment := SegmentLength(now, events, cursor);
      var segment: seq<Action> := [];
      if framesThisSegment > 0 {
        segment := [RenderFrames(framesThisSegment, frameCount - framesRemaining)];
      }
      var next, dispatched := RenderEventsUntil(now + framesThisSegment, events, cursor);
      var trace' := trace + segment + dispatched;
      Advance(events, start, frameCount, framesRemaining, now, cursor, trace, framesThisSegment, segment, next, dispatched, trace');
      framesRemaining := framesRemaining - framesThisSegment;
      now := now + framesThisSegment;
      trace := trace';
      cursor := next;
    }
  }

  /**
    What the render loop keeps: the events still ahead lie within the block,
    the clock has advanced by the frames rendered and reads the latest time
    of the events applied, and the trace so far renders those frames
    contiguously and applies events 0 .. cursor - 1 as `Applied` says.
   */
  ghost predicate Progress(events: seq<RenderEvent>, start: int, frameCount: nat, remaining: nat, now: int, cursor: nat,
                           trace: seq<Action>)
    requires remaining <= frameCount && cursor <= |events|
  {
    && WithinBlock(events, cursor, now + remaining)
    && now == Clock(events, start, cursor) && now - start == frameCount - remaining
    && Frames(trace) == frameCount - remaining && Contiguous(trace, 0)
    && Schedule(trace, 0) == Applied(events, 0, cursor, start)
  }

  /** One turn of the render loop keeps its invariant. */
  lemma Advance(events: seq<RenderEvent>, start: int, frameCount: nat, remaining: nat, now: int, cursor: nat,
                trace: seq<Action>, length: nat, segment: seq<Action>, next: nat, dispatched: seq<Action>,
                trace': seq<Action>)
    requires remaining <= frameCount && cursor < |events| && remaining > 0
    requires Progress(events, start, frameCount, remaining, now, cursor, trace)
    requires length == SegmentLength(now, events, cursor) && next == EventsUntil(now + length, events, cursor)
    requires segment == if length > 0 then [RenderFrames(length, frameCount - remaining)] else []
    requires dispatched == DispatchRange(events, cursor, next)
    requires trace' == trace + segment + dispatched
    ensures length <= remaining && cursor < next
    ensures Progress(events, start, frameCount, remaining - length, now + length, next, trace')
    ensures length == remaining ==> next == |events|
  {
    var done := frameCount - remaining;
    var mid := done + length;
    Turn(events, start, remaining, now, cursor, length, next);
    SegmentShape(segment, done, length);
    DispatchRangeFrames(events, cursor, next);
    DispatchRangeContiguous(events, cursor, next, mid);
    DispatchRangeSchedule(events, start, cursor, next, now + length, dispatched, mid);
    AppliedSplit(events, 0, cursor, next, start);
    ExtendFrames(trace, segment, dispatched, trace', done, mid);
    ExtendSchedule(trace, segment, dispatched, trace', done, mid, Applied(events, 0, cursor, start),
      Applied(events, cursor, next, start), Applied(events, 0, next, start));
  }

  /**
    One turn of the render loop within a block the host keeps its promise
    about: the segment fits in the frames left, at least one event is
    consumed, the clock then reads the time of the events applied, and the
    rest of the block ends with the last event.
   */
  lemma Turn(events: seq<RenderEvent>, start: int, remaining: nat, now: int, cursor: nat, segment: nat, next: nat)
    requires cursor < |events| && remaining > 0
    requires WithinBlock(events, cursor, now + remaining) && now == Clock(events, start, cursor)
    requires segment == SegmentLength(now, events, cursor) && next == EventsUntil(now + segment, events, cursor)
    ensures segment <= remaining && cursor < next
    ensures WithinBlock(events, next, now + segment + (remaining - segment))
    ensures now + segment == Clock(events, start, next)
    ensures segment == remaining ==> next == |events|
  {
    assert events[cursor].sampleTime <= now + remaining;
    BatchClock(events, start, cursor, next, now + segment);
  }

  // ---------------------------------------------------------------------------
  // Properties of a trace

  /** The number of frames the RenderFrames actions of a trace render. */
  function Frames(trace: seq<Action>): nat {
    if trace == [] then 0
    else (if trace[0].RenderFrames? then trace[0].frameCount else 0) + Frames(trace[1..])
  }

  lemma {:induction false} FramesAppend(a: seq<Action>, b: seq<Action>)
    ensures Frames(a + b) == Frames(a) + Frames(b)
    decreases |a|
  {
    if a != [] {
      assert (a + b)[1..] == a[1..] + b;
      FramesAppend(a[1..], b);
    } else {
      assert a + b == b;
    }
  }

  /**
    The RenderFrames actions of a trace, read from offset `base`, are
    nonempty and contiguous: each starts where the frames before it end.
   */
  ghost predicate Contiguous(trace: seq<Action>, base: nat) {
    if trace == [] then true
    else if trace[0].RenderFrames? then
      trace[0].offset == base && trace[0].frameCount > 0 && Contiguous(trace[1..], base + trace[0].frameCount)
    else Contiguous(trace[1..], base)
  }

  lemma {:induction false} ContiguousAppend(a: seq<Action>, b: seq<Action>, base: nat, mid: nat)
    requires mid == base + Frames(a) && Contiguous(a, base) && Contiguous(b, mid)
    ensures Contiguous(a + b, base)
    decreases |a|
  {
    if a != [] {
      assert (a + b)[1..] == a[1..] + b;
      var base' := if a[0].RenderFrames? then base + a[0].frameCount else base;
      ContiguousAppend(a[1..], b, base', mid);
    } else {
      assert a + b == b;
    }
  }

  /**
    The calls of a trace other than RenderFrames, each paired with the number
    of frames rendered before it (counting from `base`).
   */
  function Schedule(trace: seq<Action>, base: nat): seq<(Action, nat)> {
    if trace == [] then []
    else if trace[0].RenderFrames? then Schedule(trace[1..], base + trace[0].frameCount)
    else [(trace[0], base)] + Schedule(trace[1..], base)
  }

  lemma {:induction false} ScheduleAppend(a: seq<Action>, b: seq<Action>, base: nat, mid: nat)
    requires mid == base + Frames(a)
    ensures Schedule(a + b, base) == Schedule(a, base) + Schedule(b, mid)
    decreases |a|
  {
    if a == [] {
      assert a + b == b;
    } else {
      assert (a + b)[1..] == a[1..] + b;
      var base' := if a[0].RenderFrames? then base + a[0].frameCount else base;
      ScheduleAppend(a[1..], b, base', mid);
    }
  }

  /** A segment of `length` frames at offset `base` (none when `length` is 0). */
  lemma SegmentShape(segment: seq<Action>, base: nat, length: nat)
    requires segment == if length > 0 then [RenderFrames(length, base)] else []
    ensures Frames(segment) == length && Contiguous(segment, base) && Schedule(segment, base) == []
  {
    if length > 0 { assert segment[1..] == []; }
  }

  /** The calls for a range of events render no frames. */
  lemma {:induction false} DispatchRangeFrames(events: seq<RenderEvent>, lo: nat, hi: nat)
    requires lo <= hi <= |events|
    ensures Frames(DispatchRange(events, lo, hi)) == 0
    decreases hi - lo
  {
    if hi > lo {
      var d := Dispatch(events, hi - 1);
      DispatchRangeFrames(events, lo, hi - 1);
      assert Frames(d) == 0 by {
        if d != [] { assert d[1..] == []; }
      }
      FramesAppend(DispatchRange(events, lo, hi - 1), d);
    }
  }

  /** The calls for a range of events hold no RenderFrames, so they fit at any offset. */
  lemma {:induction false} DispatchRangeContiguous(events: seq<RenderEvent>, lo: nat, hi: nat, base: nat)
    requires lo <= hi <= |events|
    ensures Contiguous(DispatchRange(events, lo, hi), base)
    decreases hi - lo
  {
    if hi > lo {
      var d := Dispatch(events, hi - 1);
      var prefix := DispatchRange(events, lo, hi - 1);
      DispatchRangeContiguous(events, lo, hi - 1, base);
      DispatchRangeFrames(events, lo, hi - 1);
      assert Contiguous(d, base) by {
        if d != [] { assert d[1..] == []; }
      }
      ContiguousAppend(prefix, d, base, base);
    }
  }

  /** Appending a segment and the calls after it keeps a trace contiguous and counts the segment's frames. */
  lemma ExtendFrames(trace: seq<Action>, segment: seq<Action>, dispatched: seq<Action>, trace': seq<Action>,
                     done: nat, mid: nat)
    requires trace' == trace + segment + dispatched
    requires Frames(trace) == done && Contiguous(trace, 0)
    requires mid == done + Frames(segment) && Contiguous(segment, done)
    requires Frames(dispatched) == 0 && Contiguous(dispatched, mid)
    ensures Frames(trace') == mid && Contiguous(trace', 0)
  {
    FramesAppend(trace, segment);
    FramesAppend(trace + segment, dispatched);
    ContiguousAppend(trace, segment, 0, done);
    ContiguousAppend(trace + segment, dispatched, 0, mid);
  }

  /** Appending a segment and the calls after it appends those calls' entries to the schedule. */
  lemma ExtendSchedule(trace: seq<Action>, segment: seq<Action>, dispatched: seq<Action>, trace': seq<Action>,
                       done: nat, mid: nat, before: seq<(Action, nat)>, batch: seq<(Action, nat)>, after: seq<(Action, nat)>)
    requires trace' == trace + segment + dispatched
    requires Frames(trace) == done && mid == done + Frames(segment) && Schedule(segment, done) == []
    requires Schedule(trace, 0) == before && Schedule(dispatched, mid) == batch && after == before + batch
    ensures Schedule(trace', 0) == after
  {
    FramesAppend(trace, segment);
    ScheduleAppend(trace, segment, 0, done);
    assert Schedule(trace + segment, 0) == before by {
      assert before + [] == before;
    }
    ScheduleAppend(trace + segment, dispatched, 0, mid);
  }

  /** The last segment of a block, after every event is applied, completes it. */
  lemma FinalSegment(events: seq<RenderEvent>, start: int, frameCount: nat, remaining: nat, now: int,
                     trace: seq<Action>, last: seq<Action>)
    requires 0 < remaining <= frameCount
    requires Progress(events, start, frameCount, remaining, now, |events|, trace)
    requires last == [RenderFrames(remaining, frameCount - remaining)]
    ensures Frames(trace + last) == frameCount && Contiguous(trace + last, 0)
    ensures Schedule(trace + last, 0) == Applied(events, 0, |events|, start)
  {
    var done := frameCount - remaining;
    SegmentShape(last, done, remaining);
    FramesAppend(trace, last);
    ContiguousAppend(trace, last, 0, done);
    ScheduleAppend(trace, last, 0, done);
  }

  // ---------------------------------------------------------------------------
  // When each event is applied

  /** The latest time among events 0 .. i. */
  function LatestTime(events: seq<RenderEvent>, i: nat): int
    requires i < |events|
  {
    if i == 0 then events[0].sampleTime else MaxInt(LatestTime(events, i - 1), events[i].sampleTime)
  }

  lemma {:induction false} LatestTimeAtLeast(events: seq<RenderEvent>, j: nat, i: nat)
    requires j <= i < |events|
    ensures events[j].sampleTime <= LatestTime(events, i)
    decreases i
  {
    if j < i {
      LatestTimeAtLeast(events, j, i - 1);
    }
  }

  lemma {:induction false} LatestTimeAtMost(events: seq<RenderEvent>, i: nat, bound: int)
    requires i < |events|
    requires forall j :: 0 <= j <= i ==> events[j].sampleTime <= bound
    ensures LatestTime(events, i) <= bound
    decreases i
  {
    if i > 0 {
      LatestTimeAtMost(events, i - 1, bound);
    }
  }

  lemma {:induction false} LatestTimeMonotonic(events: seq<RenderEvent>, j: nat, i: nat)
    requires j <= i < |events|
    ensures LatestTime(events, j) <= LatestTime(events, i)
    decreases i
  {
    if j < i {
      LatestTimeMonotonic(events, j, i - 1);
    }
  }

  /** In a list sorted by time, the latest time up to event i is event i's own. */
  lemma SortedLatestTime(events: seq<RenderEvent>, i: nat)
    requires i < |events|
    requires forall j, k :: 0 <= j <= k < |events| ==> events[j].sampleTime <= events[k].sampleTime
    ensures LatestTime(events, i) == events[i].sampleTime
  {
    LatestTimeAtLeast(events, i, i);
    LatestTimeAtMost(events, i, events[i].sampleTime);
  }

  /** The calls for events lo .. hi - 1, each paired with the frames rendered before it. */
  function Applied(events: seq<RenderEvent>, lo: nat, hi: nat, start: int): seq<(Action, nat)>
    requires lo <= hi <= |events|
    decreases hi - lo
  {
    if hi == lo then [] else Applied(events, lo, hi - 1, start) + Entry(events, hi - 1, start)
  }

  /**
    The call for event i, if any, paired with the frames rendered before it:
    the event waits until the block reaches the latest time among events
    0 .. i, and an event due before the block's start waits for nothing.
   */
  function Entry(events: seq<RenderEvent>, i: nat, start: int): seq<(Action, nat)>
    requires i < |events|
  {
    var d := Dispatch(events, i);
    if d == [] then [] else [(d[0], MaxInt(0, LatestTime(events, i) - start) as nat)]
  }

  /** The clock of the render loop once the events before `cursor` are applied. */
  function Clock(events: seq<RenderEvent>, start: int, cursor: nat): (c: int)
    requires cursor <= |events|
    ensures c >= start
  {
    if cursor == 0 then start else MaxInt(start, LatestTime(events, cursor - 1))
  }

  /**
    When the clock moves to `now'`, the later of its reading and the time of
    event `cursor`, and events cursor .. hi - 1 are all due by then, the
    clock reads `now'` once they are applied.
   */
  lemma BatchClock(events: seq<RenderEvent>, start: int, cursor: nat, hi: nat, now': int)
    requires cursor < hi <= |events|
    requires now' == MaxInt(Clock(events, start, cursor), events[cursor].sampleTime)
    requires forall i :: cursor <= i < hi ==> events[i].sampleTime <= now'
    ensures Clock(events, start, hi) == now'
  {
    forall j | 0 <= j <= hi - 1
      ensures events[j].sampleTime <= now'
    {
      if j < cursor {
        LatestTimeAtLeast(events, j, cursor - 1);
      }
    }
    LatestTimeAtMost(events, hi - 1, now');
    LatestTimeAtLeast(events, cursor, hi - 1);
    if cursor > 0 {
      LatestTimeMonotonic(events, cursor - 1, hi - 1);
    }
  }

  lemma ScheduleSnoc(a: seq<Action>, d: seq<Action>, base: nat, sa: seq<(Action, nat)>, sd: seq<(Action, nat)>)
    requires Frames(a) == 0 && Schedule(a, base) == sa && Schedule(d, base) == sd
    ensures Schedule(a + d, base) == sa + sd
  {
    ScheduleAppend(a, d, base, base);
  }

  /** The events of one batch are applied together, after the frame count the Applied schedule names. */
  lemma {:induction false} DispatchRangeSchedule(events: seq<RenderEvent>, start: int, cursor: nat, hi: nat, now': int,
                                                 acts: seq<Action>, base: nat)
    requires cursor <= hi <= |events| && base == now' - start
    requires cursor < |events| && now' == MaxInt(Clock(events, start, cursor), events[cursor].sampleTime)
    requires forall i :: cursor <= i < hi ==> events[i].sampleTime <= now'
    requires acts == DispatchRange(events, cursor, hi)
    ensures Schedule(acts, base) == Applied(events, cursor, hi, start)
    decreases hi - cursor
  {
    if hi > cursor {
      var d := Dispatch(events, hi - 1);
      var prefix := DispatchRange(events, cursor, hi - 1);
      BatchClock(events, start, cursor, hi, now');
      var tail := Entry(events, hi - 1, start);
      assert Schedule(d, base) == tail by {
        if d != [] { assert d[1..] == []; }
      }
      DispatchRangeSchedule(events, start, cursor, hi - 1, now', prefix, base);
      DispatchRangeFrames(events, cursor, hi - 1);
      ScheduleSnoc(prefix, d, base, Applied(events, cursor, hi - 1, start), tail);
    }
  }

  lemma {:induction false} AppliedSplit(events: seq<RenderEvent>, lo: nat, mid: nat, hi: nat, start: int)
    requires lo <= mid <= hi <= |events|
    ensures Applied(events, lo, hi, start) == Applied(events, lo, mid, start) + Applied(events, mid, hi, start)
    decreases hi - mid
  {
    if hi > mid {
      AppliedSplit(events, lo, mid, hi - 1, start);
    }
  }

  // ---------------------------------------------------------------------------
  // Buffers and the processor's own state

  /**
    An AudioBufferList: one sample buffer per channel (null when the host
    leaves it to the unit) and each buffer's byte size.
   */
  class BufferList {
    var data: seq<array?<real>>
    var byteSizes: seq<nat>

    constructor (data: seq<array?<real>>, byteSizes: seq<nat>)
      ensures this.data == data && this.byteSizes == byteSizes
    {
      this.data := data;
      this.byteSizes := byteSizes;
    }
  }

  /** A sample pointer: a buffer and the index of the first sample it points at. */
  datatype SamplePointer = SamplePointer(buffer: array?<real>, offset: nat)

  /** sizeof(AUValue) * (processed + frames), computed as the host's unsigned 32-bit arithmetic does. */
  function ByteSize(processed: nat, frames: nat): (size: nat)
    ensures size < 0x1_0000_0000
    ensures 4 * (processed + frames) < 0x1_0000_0000 ==> size == 4 * (processed + frames)
  {
    (4 * ((processed + frames) % 0x1_0000_0000)) % 0x1_0000_0000
  }

  /** `target` with samples lo .. lo + n - 1 taken from `source`, as memcpy leaves it. */
  function CopyInto(target: seq<real>, source: seq<real>, lo: nat, n: nat): (r: seq<real>)
    requires lo + n <= |target| && lo + n <= |source|
    ensures |r| == |target|
    ensures forall k :: 0 <= k < |r| ==> r[k] == if lo <= k < lo + n then source[k] else target[k]
  {
    target[..lo] + source[lo..lo + n] + target[lo + n..]
  }

  /**
    A bypassed channel's output samples: the input's copied over frames
    lo .. lo + n - 1, or left as they are when input and output are one buffer.
   */
  function BypassCopy(source: array<real>, target: array<real>, sourceSamples: seq<real>, targetSamples: seq<real>,
                      lo: nat, n: nat): (r: seq<real>)
    requires lo + n <= |targetSamples| && lo + n <= |sourceSamples|
    ensures |r| == |targetSamples|
    ensures forall k :: 0 <= k < |r| ==>
              r[k] == if source != target && lo <= k < lo + n then sourceSamples[k] else targetSamples[k]
  {
    if source == target then targetSamples else CopyInto(targetSamples, sourceSamples, lo, n)
  }

  /**
    The output buffers an in-place render uses: the first |output.data|
    input buffers, one per output channel.
   */
  method UseInputBuffers(output: BufferList, input: BufferList)
    requires |output.data| <= |input.data|
    modifies output`data
    ensures output.data == old(input.data[..|output.data|])
  {
    ghost var shared := input.data[..|output.data|];
    for i := 0 to |output.data|
      invariant |output.data| == |shared| && input.data[..|output.data|] == shared
      invariant forall j :: 0 <= j < i ==> output.data[j] == shared[j]
    {
      output.data := output.data[i := input.data[i]];
    }
  }

  /**
    The processor's state: the bypass flag, the buffer lists of the current
    render call and the per-channel sample pointers handed to the kernel.
   */
  class KernelEventProcessor {
    var bypassed: bool
    var inputs: BufferList?
    var outputs: BufferList?
    var ins: seq<SamplePointer>
    var outs: seq<SamplePointer>

    /** Not bypassed, with no buffers attached. */
    constructor ()
      ensures !bypassed && inputs == null && outputs == null && ins == [] && outs == []
    {
      bypassed := false;
      inputs := null;
      outputs := null;
      ins := [];
      outs := [];
    }

    method SetBypass(bypass: bool)
      modifies this`bypassed
      ensures bypassed == bypass
    {
      bypassed := bypass;
    }

    /**
      Attaches the buffer lists of a render call and points one input and one
      output pointer per input channel at the start of its buffers; attaching
      the lists already attached changes nothing.
     */
    method SetBuffers(inputs: BufferList, outputs: BufferList)
      requires |inputs.data| <= |outputs.data|
      modifies this`inputs, this`outputs, this`ins, this`outs
      ensures old(this.inputs) == inputs && old(this.outputs) == outputs ==> unchanged(this)
      ensures this.inputs == inputs && this.outputs == outputs
      ensures !(old(this.inputs) == inputs && old(this.outputs) == outputs) ==>
                && |ins| == |inputs.data| == |outs|
                && (forall c :: 0 <= c < |ins| ==> ins[c] == SamplePointer(inputs.data[c], 0))
                && (forall c :: 0 <= c < |outs| ==> outs[c] == SamplePointer(outputs.data[c], 0))
    {
      if inputs == this.inputs && outputs == this.outputs {
        return;
      }
      this.inputs := inputs;
      this.outputs := outputs;
      ins := [];
      outs := [];
      for channel := 0 to |inputs.data|
        invariant this.inputs == inputs && this.outputs == outputs && |ins| == channel == |outs|
        invariant forall c :: 0 <= c < channel ==> ins[c] == SamplePointer(inputs.data[c], 0)
        invariant forall c :: 0 <= c < channel ==> outs[c] == SamplePointer(outputs.data[c], 0)
      {
        ins := ins + [SamplePointer(inputs.data[channel], 0)];
        outs := outs + [SamplePointer(outputs.data[channel], 0)];
      }
    }

    /** Detaches the buffer lists and drops the sample pointers. */
    method ClearBuffers()
      modifies this`inputs, this`outputs, this`ins, this`outs
      ensures inputs == null && outputs == null && ins == [] && outs == []
    {
      inputs := null;
      outputs := null;
      ins := [];
      outs := [];
    }

    /**
      What rendering needs of the attached lists: one pointer pair per input
      channel, an output buffer (and byte size) for each, and every buffer
      present.
     */
    ghost predicate Attached()
      reads this, inputs, outputs
    {
      && inputs != null && outputs != null
      && |ins| == |outs| == |inputs.data| <= |outputs.data| == |outputs.byteSizes|
      && forall c :: 0 <= c < |inputs.data| ==> inputs.data[c] != null && outputs.data[c] != null
    }

    /**
      No output buffer of an input channel is shared with another channel,
      as input or as output: each channel's buffers are its own or, in place,
      one buffer serving as both.
     */
    ghost predicate Separated()
      reads this, inputs, outputs
      requires Attached()
    {
      forall c, d :: 0 <= c < |inputs.data| && 0 <= d < |inputs.data| && c != d ==>
        outputs.data[c] != outputs.data[d] && outputs.data[c] != inputs.data[d]
    }

    /** Whether every attached buffer holds samples processed .. processed + frames - 1. */
    ghost predicate Holds(processed: nat, frames: nat)
      reads this, inputs, outputs
      requires Attached()
    {
      forall c :: 0 <= c < |inputs.data| ==>
        processed + frames <= inputs.data[c].Length && processed + frames <= outputs.data[c].Length
    }

    /** The output buffers of the input channels, the buffers a bypassed render may write. */
    ghost function OutputBuffers(): set<array<real>>
      reads this, inputs, outputs
      requires Attached()
    {
      set c | 0 <= c < |inputs.data| :: outputs.data[c] as array<real>
    }

    /**
      Renders `frames` frames after `processed` already rendered. Bypassed,
      it copies those samples of every channel whose input and output buffers
      differ and requests no rendering. Otherwise it moves every pointer to
      sample `processed`, sets every output byte size to cover the frames
      rendered so far, and requests the kernel to render through the pointers.
     */
    method RenderFrames(frames: nat, processed: nat) returns (render: bool)
      requires Attached() && Separated() && Holds(processed, frames)
      modifies this`ins, this`outs, outputs, OutputBuffers()
      ensures render == !bypassed && Attached() && outputs.data == old(outputs.data)
      ensures forall c :: 0 <= c < |inputs.data| ==> inputs.data[c][..] == old(inputs.data[c][..])
      ensures bypassed ==> ins == old(ins) && outs == old(outs) && outputs.byteSizes == old(outputs.byteSizes)
      ensures bypassed ==> forall c :: 0 <= c < |inputs.data| ==>
                outputs.data[c][..] == BypassCopy(inputs.data[c], outputs.data[c], old(inputs.data[c][..]),
                                                  old(outputs.data[c][..]), processed, frames)
      ensures !bypassed ==> forall c :: 0 <= c < |inputs.data| ==> outputs.data[c][..] == old(outputs.data[c][..])
      ensures !bypassed ==> forall c :: 0 <= c < |ins| ==>
                ins[c] == SamplePointer(inputs.data[c], processed) && outs[c] == SamplePointer(outputs.data[c], processed)
      ensures !bypassed ==> |outputs.byteSizes| == |old(outputs.byteSizes)|
      ensures !bypassed ==> forall c :: 0 <= c < |outputs.byteSizes| ==>
                outputs.byteSizes[c] == if c < |inputs.data| then ByteSize(processed, frames) else old(outputs.byteSizes[c])
    {
      if bypassed {
        CopyChannels(frames, processed);
        return false;
      }
      PointAt(frames, processed);
      return true;
    }

    /** Bypassed: copies the frames of every channel whose buffers differ. */
    method CopyChannels(frames: nat, processed: nat)
      requires Attached() && Separated() && Holds(processed, frames)
      modifies OutputBuffers()
      ensures Attached() && outputs.data == old(outputs.data)
      ensures forall c :: 0 <= c < |inputs.data| ==> inputs.data[c][..] == old(inputs.data[c][..])
      ensures forall c :: 0 <= c < |inputs.data| ==>
                outputs.data[c][..] == BypassCopy(inputs.data[c], outputs.data[c], old(inputs.data[c][..]),
                                                  old(outputs.data[c][..]), processed, frames)
    {
      for channel := 0 to |inputs.data|
        invariant forall c :: 0 <= c < |inputs.data| ==> inputs.data[c][..] == old(inputs.data[c][..])
        invariant forall c :: 0 <= c < channel ==>
                    outputs.data[c][..] == BypassCopy(inputs.data[c], outputs.data[c], old(inputs.data[c][..]),
                                                      old(outputs.data[c][..]), processed, frames)
        invariant forall c :: channel <= c < |inputs.data| ==> outputs.data[c][..] == old(outputs.data[c][..])
      {
        if inputs.data[channel] != outputs.data[channel] {
          CopySamples(channel, frames, processed);
        }
      }
    }

    /** Not bypassed: points every channel at sample `processed` and sets the output byte sizes. */
    method PointAt(frames: nat, processed: nat)
      requires Attached()
      modifies this`ins, this`outs, outputs`byteSizes
      ensures Attached()
      ensures forall c :: 0 <= c < |ins| ==>
                ins[c] == SamplePointer(inputs.data[c], processed) && outs[c] == SamplePointer(outputs.data[c], processed)
      ensures |outputs.byteSizes| == |old(outputs.byteSizes)|
      ensures forall c :: 0 <= c < |outputs.byteSizes| ==>
                outputs.byteSizes[c] == if c < |inputs.data| then ByteSize(processed, frames) else old(outputs.byteSizes[c])
    {
      for channel := 0 to |inputs.data|
        invariant Attached()
        invariant forall c :: 0 <= c < channel ==>
                    ins[c] == SamplePointer(inputs.data[c], processed) && outs[c] == SamplePointer(outputs.data[c], processed)
        invariant forall c :: 0 <= c < |outputs.byteSizes| ==>
                    outputs.byteSizes[c] == if c < channel then ByteSize(processed, frames) else old(outputs.byteSizes[c])
      {
        ins := ins[channel := SamplePointer(inputs.data[channel], processed)];
        outs := outs[channel := SamplePointer(outputs.data[channel], processed)];
        outputs.byteSizes := outputs.byteSizes[channel := ByteSize(processed, frames)];
      }
    }

    /** The bypass copy for one channel whose buffers differ; every other buffer keeps its samples. */
    method CopySamples(channel: nat, frames: nat, processed: nat)
      requires Attached() && Separated() && Holds(processed, frames) && channel < |inputs.data|
      requires inputs.data[channel] != outputs.data[channel]
      modifies outputs.data[channel]
      ensures outputs.data[channel][..] ==
                CopyInto(old(outputs.data[channel][..]), inputs.data[channel][..], processed, frames)
      ensures forall c :: 0 <= c < |inputs.data| && c != channel ==>
                outputs.data[c][..] == old(outputs.data[c][..]) && inputs.data[c][..] == old(inputs.data[c][..])
      ensures inputs.data[channel][..] == old(inputs.data[channel][..])
    {
      var source := inputs.data[channel];
      var target := outputs.data[channel];
      forall k | processed <= k < processed + frames {
        target[k] := source[k];
      }
    }
  }
}
