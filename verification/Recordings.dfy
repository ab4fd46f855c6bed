/** A recording that Play sends without its late frames, end to end (rtpverifier/sender.go, rtpverifier/receiver.go). */
module Recordings {
  import opened Ints
  import opened Receiving
  import opened Unwrapping
  import opened Sending
  import opened Sender
  import opened Network
  import opened Results
  import opened EndToEnd
  import opened Passages
  import opened FrameRuns
  import opened Scripts

  // The script of the frames that were sent.

  /** The number of the frame after the last one that was sent. */
  function NextFrame(frames: seq<nat>): nat {
    if frames == [] then 0 else frames[|frames| - 1] + 1
  }

  /** The frames that were sent, and before each of them the ones that were skipped. */
  function ScriptOf(samples: seq<int16>, frames: seq<nat>): seq<Item>
    requires IncreasingFrames(frames, FrameCount(samples))
  {
    if frames == [] then [] else
      var front, last := frames[..|frames| - 1], frames[|frames| - 1];
      ScriptOf(samples, front) + [Skip(last - NextFrame(front)), Audio(FrameAt(samples, last), last == 0)]
  }

  lemma SkipSends(u: Setup, line: Line, items: seq<Item>, skipped: nat, more: seq<Item>)
    requires Send(u, line, more) == Send(u, line, items) + SendItem(u, LineAfter(line, items), Skip(skipped))
    ensures Send(u, line, more) == Send(u, line, items)
  {
  }

  lemma SendPair(u: Setup, line: Line, items: seq<Item>, skipped: nat, frame: Item, all: seq<Item>)
    requires all == items + [Skip(skipped), frame]
    ensures var at := LineAfter(line, items).After(Skip(skipped));
            && LineAfter(line, all) == at.After(frame)
            && Send(u, line, all) == Send(u, line, items) + SendItem(u, at, frame)
  {
    var more := items + [Skip(skipped)];
    SendLast(u, line, items, Skip(skipped), more);
    SendLast(u, line, more, frame, all);
    SkipSends(u, line, items, skipped, more);
  }

  /** The k-th packet is the frame with that number, at its own time. */
  ghost predicate Numbered(u: Setup, line: Line, samples: seq<int16>, frames: seq<nat>, sent: seq<Labeled>)
    requires IncreasingFrames(frames, FrameCount(samples))
  {
    && |sent| == |frames|
    && forall k :: 0 <= k < |frames| ==>
         sent[k] == LabelAudio(u, Line(line.sequence + k, line.timestamp + frames[k] * FRAME_SAMPLES),
                               FrameAt(samples, frames[k]), frames[k] == 0)
  }

  lemma IncreasingAdd(front: seq<nat>, last: nat, frames: seq<nat>, count: nat)
    requires IncreasingFrames(front, count) && NextFrame(front) <= last < count && frames == front + [last]
    ensures IncreasingFrames(frames, count)
  {
  }

  lemma NumberedAdd(u: Setup, line: Line, samples: seq<int16>, front: seq<nat>, last: nat, frames: seq<nat>,
                    sent: seq<Labeled>, all: seq<Labeled>)
    requires IncreasingFrames(front, FrameCount(samples)) && Numbered(u, line, samples, front, sent)
    requires NextFrame(front) <= last < FrameCount(samples) && frames == front + [last]
    requires var at := Line(line.sequence + |front|, line.timestamp + last * FRAME_SAMPLES);
             all == sent + [LabelAudio(u, at, FrameAt(samples, last), last == 0)]
    ensures IncreasingFrames(frames, FrameCount(samples)) && Numbered(u, line, samples, frames, all)
  {
    IncreasingAdd(front, last, frames, FrameCount(samples));
  }

  lemma SkipLine(line: Line, n: nat, next: nat, last: nat)
    requires next <= last
    ensures Line(line.sequence + n, line.timestamp + next * FRAME_SAMPLES).After(Skip(last - next))
         == Line(line.sequence + n, line.timestamp + last * FRAME_SAMPLES)
  {
  }

  /** What is sent of a script that stands for these frames. */
  ghost predicate Sends(u: Setup, line: Line, samples: seq<int16>, frames: seq<nat>, after: Line, sent: seq<Labeled>) {
    && IncreasingFrames(frames, FrameCount(samples))
    && after == Line(line.sequence + |frames|, line.timestamp + NextFrame(frames) * FRAME_SAMPLES)
    && Numbered(u, line, samples, frames, sent)
  }

  lemma SendFrame(u: Setup, line: Line, items: seq<Item>, n: nat, next: nat, last: nat, samples: seq<int16>,
                  all: seq<Item>)
    requires next <= last && LineAfter(line, items) == Line(line.sequence + n, line.timestamp + next * FRAME_SAMPLES)
    requires all == items + [Skip(last - next), Audio(samples, last == 0)]
    ensures LineAfter(line, all) == Line(line.sequence + n + 1, line.timestamp + (last + 1) * FRAME_SAMPLES)
    ensures Send(u, line, all) == Send(u, line, items)
              + [LabelAudio(u, Line(line.sequence + n, line.timestamp + last * FRAME_SAMPLES), samples, last == 0)]
  {
    SkipLine(line, n, next, last);
    SendPair(u, line, items, last - next, Audio(samples, last == 0), all);
  }

  lemma NextFrameIs(front: seq<nat>, last: nat, frames: seq<nat>)
    requires frames == front + [last]
    ensures NextFrame(frames) == last + 1 && |frames| == |front| + 1
  {
  }

  /** One more frame: where the script is after it, and its packet. */
  ghost predicate Appends(u: Setup, line: Line, samples: seq<int16>, front: seq<nat>, last: nat, sent: seq<Labeled>,
                          after: Line, all: seq<Labeled>)
    requires last < FrameCount(samples)
  {
    var at := Line(line.sequence + |front|, line.timestamp + last * FRAME_SAMPLES);
    && after == Line(line.sequence + |front| + 1, line.timestamp + (last + 1) * FRAME_SAMPLES)
    && all == sent + [LabelAudio(u, at, FrameAt(samples, last), last == 0)]
  }

  lemma RecordingNext(u: Setup, line: Line, samples: seq<int16>, front: seq<nat>, last: nat, frames: seq<nat>,
                      before: Line, sent: seq<Labeled>, after: Line, all: seq<Labeled>)
    requires NextFrame(front) <= last < FrameCount(samples) && frames == front + [last]
    requires Sends(u, line, samples, front, before, sent)
    requires Appends(u, line, samples, front, last, sent, after, all)
    ensures Sends(u, line, samples, frames, after, all)
  {
    NextFrameIs(front, last, frames);
    NumberedAdd(u, line, samples, front, last, frames, sent, all);
  }

  lemma FramesFront(frames: seq<nat>, front: seq<nat>, last: nat, count: nat)
    requires IncreasingFrames(frames, count) && frames == front + [last]
    ensures IncreasingFrames(front, count) && NextFrame(front) <= last < count
  {
    assert frames[|front|] == last;
    assert forall i :: 0 <= i < |front| ==> front[i] == frames[i];
  }

  lemma ScriptStep(samples: seq<int16>, frames: seq<nat>)
    requires IncreasingFrames(frames, FrameCount(samples)) && frames != []
    ensures var front, last := frames[..|frames| - 1], frames[|frames| - 1];
            && IncreasingFrames(front, FrameCount(samples)) && NextFrame(front) <= last < FrameCount(samples)
            && ScriptOf(samples, frames)
                 == ScriptOf(samples, front) + [Skip(last - NextFrame(front)), Audio(FrameAt(samples, last), last == 0)]
  {
    FramesFront(frames, frames[..|frames| - 1], frames[|frames| - 1], FrameCount(samples));
  }

  lemma ScriptNext(u: Setup, line: Line, samples: seq<int16>, front: seq<nat>, last: nat, items: seq<Item>,
                   all: seq<Item>)
    requires NextFrame(front) <= last < FrameCount(samples)
    requires all == items + [Skip(last - NextFrame(front)), Audio(FrameAt(samples, last), last == 0)]
    requires Sends(u, line, samples, front, LineAfter(line, items), Send(u, line, items))
    ensures Appends(u, line, samples, front, last, Send(u, line, items), LineAfter(line, all), Send(u, line, all))
  {
    SendFrame(u, line, items, |front|, NextFrame(front), last, FrameAt(samples, last), all);
  }

  lemma {:induction false} RecordingSent(u: Setup, line: Line, samples: seq<int16>, frames: seq<nat>)
    requires IncreasingFrames(frames, FrameCount(samples))
    ensures var items := ScriptOf(samples, frames);
            Sends(u, line, samples, frames, LineAfter(line, items), Send(u, line, items))
  {
    if frames != [] {
      var front, last := frames[..|frames| - 1], frames[|frames| - 1];
      ScriptStep(samples, frames);
      RecordingSent(u, line, samples, front);
      var items, all := ScriptOf(samples, front), ScriptOf(samples, frames);
      ScriptNext(u, line, samples, front, last, items, all);
      RecordingNext(u, line, samples, front, last, frames, LineAfter(line, items), Send(u, line, items),
                    LineAfter(line, all), Send(u, line, all));
    }
  }

  /** The packets of the script. */
  function Recording(u: Setup, line: Line, samples: seq<int16>, frames: seq<nat>): (r: seq<Labeled>)
    requires IncreasingFrames(frames, FrameCount(samples))
    ensures |r| == |frames|
  {
    RecordingSent(u, line, samples, frames);
    Send(u, line, ScriptOf(samples, frames))
  }

  /** Whatever Play skips, its k-th packet is the k-th of this script. */
  lemma SkippingIsScript(u: Setup, line: Line, samples: seq<int16>, frames: seq<nat>, k: nat)
    requires IncreasingFrames(frames, FrameCount(samples)) && k < |frames|
    ensures Recording(u, line, samples, frames)[k].arrival.packet
         == PlayedFrame(u.ssrc, Wrapped16(line), Wrapped32(line), u.audioPayload, u.codec, samples, k, frames[k])
  {
    RecordingSent(u, line, samples, frames);
    FramePacket(u, line, FrameAt(samples, frames[k]), frames[k] == 0, k, frames[k]);
  }

  // What is heard of it.

  lemma RecordingTimed(c: Config, u: Setup, line: Line, samples: seq<int16>, frames: seq<nat>, ls: seq<Labeled>,
                       maximum: nat)
    requires IncreasingFrames(frames, FrameCount(samples)) && Tuned(c, u, ScriptOf(samples, frames))
    ensures Passage(Send(u, line, ScriptOf(samples, frames)), frames, ls, maximum).Timed(line)
    ensures Reordering.AllAudio(c, Send(u, line, ScriptOf(samples, frames)))
  {
    var sent := Send(u, line, ScriptOf(samples, frames));
    RecordingSent(u, line, samples, frames);
    forall k | 0 <= k < |sent|
      ensures c.Audio(sent[k].arrival.packet)
    {
      RecordingTuned(c, u, samples, frames);
    }
  }

  lemma RecordingTuned(c: Config, u: Setup, samples: seq<int16>, frames: seq<nat>)
    requires IncreasingFrames(frames, FrameCount(samples)) && Tuned(c, u, ScriptOf(samples, frames)) && frames != []
    ensures u.audioPayload in c.audioPayloads
  {
    var items := ScriptOf(samples, frames);
    assert TunedItem(c, u, items[|items| - 1]);
  }

  lemma RecordingBrief(line: Line, samples: seq<int16>, frames: seq<nat>, u: Setup)
    requires IncreasingFrames(frames, FrameCount(samples)) && NextFrame(frames) * FRAME_SAMPLES < 0x8000_0000
    ensures Brief(line, LineAfter(line, ScriptOf(samples, frames)))
    ensures |Send(u, line, ScriptOf(samples, frames))| == |frames|
  {
    RecordingSent(u, line, samples, frames);
  }

  /**
   * A recording of less than three days, with any frames left out for lateness, through any network: every frame
   * that came through is heard in its own place, skipped and lost ones are silence in theirs if the run of them is
   * short enough, and each longer run is left out and counted.
   */
  lemma RecordingHeard(c: Config, u: Setup, line: Line, samples: seq<int16>, frames: seq<nat>, ls: seq<Labeled>,
                       first: nat, last: nat)
    requires IncreasingFrames(frames, FrameCount(samples)) && Tuned(c, u, ScriptOf(samples, frames))
    requires |frames| <= MAX_RETAINED && NextFrame(frames) * FRAME_SAMPLES < 0x8000_0000
    requires Delivered(Recording(u, line, samples, frames), c.reorderWindow, ls)
    requires Ends(Recording(u, line, samples, frames), ls, first, last)
    ensures Passage(Recording(u, line, samples, frames), frames, ls, GapSamples(c)).Valid()
    ensures RunHeard(ResultOf(c, RunLabeled(c, ls)),
                     Passage(Recording(u, line, samples, frames), frames, ls, GapSamples(c)), u.codec, first, last)
  {
    var sent := Recording(u, line, samples, frames);
    RecordingTimed(c, u, line, samples, frames, ls, GapSamples(c));
    RecordingBrief(line, samples, frames, u);
    ScriptPlays(c, u, line, ScriptOf(samples, frames), ls);
    ThroughAudio(c, sent, ls);
    FramesRunHeard(ResultOf(c, RunLabeled(c, ls)), Passage(sent, frames, ls, GapSamples(c)), line, Through(sent, ls),
                   u.codec, first, last);
  }
}
