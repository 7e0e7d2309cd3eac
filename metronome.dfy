/** The metronome and scroll logic of Song.Update. The clock reading
    (Time.time) and the frame's elapsed time (Time.deltaTime) are inputs, and
    the metronome sound is represented only by the tick count. */
module Metronome {

  /** What Update reads and writes: the deadline of the next beat, the number of
      ticks so far, and the x coordinate of `barsTransform`. */
  datatype Clock = Clock(nextBeatTime: real, ticCount: int, staffX: real)

  /** One frame: the time of the frame and the time elapsed since the last one. */
  datatype Frame = Frame(time: real, deltaTime: real)

  /** The staff scrolls only once more than this many ticks have sounded. */
  const LeadInTicks := 4

  /** Whether the frame has reached the beat deadline. */
  predicate Ticks(c: Clock, f: Frame)
  {
    f.time - c.nextBeatTime >= 0.0
  }

  /** One call of Update. */
  function Advance(c: Clock, secsPerBeat: real, staffSpeed: real, f: Frame): Clock
  {
    var beat := if Ticks(c, f) then Clock(f.time + secsPerBeat, c.ticCount + 1, c.staffX) else c;
    if beat.ticCount > LeadInTicks then beat.(staffX := c.staffX - staffSpeed * f.deltaTime) else beat
  }

  /** Update called once per frame of `frames`, in order. */
  function Run(c: Clock, secsPerBeat: real, staffSpeed: real, frames: seq<Frame>): Clock
  {
    if frames == [] then c
    else Advance(Run(c, secsPerBeat, staffSpeed, frames[..|frames| - 1]), secsPerBeat, staffSpeed, frames[|frames| - 1])
  }

  /** The total time elapsed over `frames`. */
  function Elapsed(frames: seq<Frame>): real
  {
    if frames == [] then 0.0 else Elapsed(frames[..|frames| - 1]) + frames[|frames| - 1].deltaTime
  }

  /** The tick count never goes down, and rises by at most one per frame however
      many beats a long frame spans. */
  lemma {:induction false} AtMostOneTickPerFrame(c: Clock, secsPerBeat: real, staffSpeed: real, frames: seq<Frame>)
    ensures c.ticCount <= Run(c, secsPerBeat, staffSpeed, frames).ticCount <= c.ticCount + |frames|
  {
    if frames != [] {
      AtMostOneTickPerFrame(c, secsPerBeat, staffSpeed, frames[..|frames| - 1]);
    }
  }

  /** During the count-in (no more than four ticks so far) the staff does not move. */
  lemma {:induction false} LeadInKeepsStaffStill(c: Clock, secsPerBeat: real, staffSpeed: real, frames: seq<Frame>)
    requires Run(c, secsPerBeat, staffSpeed, frames).ticCount <= LeadInTicks
    ensures Run(c, secsPerBeat, staffSpeed, frames).staffX == c.staffX
  {
    if frames != [] {
      var init := frames[..|frames| - 1];
      AtMostOneTickPerFrame(c, secsPerBeat, staffSpeed, init);
      assert Run(c, secsPerBeat, staffSpeed, init).ticCount <= LeadInTicks;
      LeadInKeepsStaffStill(c, secsPerBeat, staffSpeed, init);
    }
  }

  /** After the count-in the staff moves left by staffSpeed times the elapsed time. */
  lemma {:induction false} ScrollAfterLeadIn(c: Clock, secsPerBeat: real, staffSpeed: real, frames: seq<Frame>)
    requires c.ticCount > LeadInTicks
    ensures Run(c, secsPerBeat, staffSpeed, frames).staffX == c.staffX - staffSpeed * Elapsed(frames)
  {
    if frames != [] {
      var init := frames[..|frames| - 1];
      ScrollAfterLeadIn(c, secsPerBeat, staffSpeed, init);
      AtMostOneTickPerFrame(c, secsPerBeat, staffSpeed, init);
    }
  }

  /** A tick sets the next deadline one beat after the frame that fired it, not
      one beat after the deadline it met, so a late frame shifts every later
      beat; and no frame before that new deadline ticks again. */
  lemma {:induction false} NoTickBeforeDeadline(c: Clock, secsPerBeat: real, staffSpeed: real, f: Frame, frames: seq<Frame>)
    requires Ticks(c, f)
    requires forall i :: 0 <= i < |frames| ==> frames[i].time < f.time + secsPerBeat
    ensures var after := Advance(c, secsPerBeat, staffSpeed, f);
            && after.nextBeatTime == c.nextBeatTime + secsPerBeat + (f.time - c.nextBeatTime)
            && Run(after, secsPerBeat, staffSpeed, frames).ticCount == after.ticCount
            && Run(after, secsPerBeat, staffSpeed, frames).nextBeatTime == after.nextBeatTime
  {
    if frames != [] {
      NoTickBeforeDeadline(c, secsPerBeat, staffSpeed, f, frames[..|frames| - 1]);
    }
  }
}
