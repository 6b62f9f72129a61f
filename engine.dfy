/**
 * What the plugin asks of the code it cannot see. Every call into the
 * video/audio engine (`video.h`, `softhddev.h`) and every call into the host
 * framework that has an effect is recorded as an Event, in call order.
 */
module Engine {
  /** A packed 32-bit ARGB colour. */
  type Argb = bv32

  /** The host's `eVideoDisplayFormat`. */
  datatype VideoDisplayFormat = PanAndScan | LetterBox | CenterCutOut

  datatype Event =
    // the engine
    | OsdDrawArgb(x: int, y: int, w: int, h: int, argb: seq<Argb>)
    | OsdClose
    | VideoSetDisplayFormat(format: VideoDisplayFormat)
    | VideoSetSkipLines(lines: int)
    | VideoSetScaling(modes: seq<int>)
    | VideoSetDeinterlace(modes: seq<int>)
    | VideoSetSkipChromaDeinterlace(flags: seq<int>)
    | VideoSetDenoise(levels: seq<int>)
    | VideoSetSharpen(levels: seq<int>)
    | VideoSetAudioDelay(ms: int)
    | CodecSetAudioPassthrough(mode: int)
    | VideoSetAutoCrop(interval: int, delay: int, tolerance: int)
    | Suspend(video: int, audio: int, x11: int)
    | Resume
    // the host framework
    | SetupStore(name: string, value: int)
    | DeviceSetVideoDisplayFormat(format: VideoDisplayFormat)
    | ControlLaunch
    | ControlAttach
    | ControlShutdown
    | PlayerDetach
    | SetUserInactive
    | SetUserInactiveTimeout
}

/**
 * What the event log says about the engine's state: the display format it
 * was last given and whether it was last suspended or resumed.
 */
module EngineState {
  import opened Wrappers
  import opened Engine

  /** The state component `pick` reads off the latest event that sets it. */
  function LastOf<T>(log: seq<Event>, pick: Event -> Option<T>): Option<T> {
    if log == [] then None
    else if pick(log[|log| - 1]).Some? then pick(log[|log| - 1])
    else LastOf(log[..|log| - 1], pick)
  }

  function FormatOf(e: Event): Option<VideoDisplayFormat> {
    if e.VideoSetDisplayFormat? then Some(e.format) else None
  }

  function SuspendOf(e: Event): Option<bool> {
    match e
    case Suspend(_, _, _) => Some(true)
    case Resume => Some(false)
    case _ => None
  }

  /** The display format the engine was last told to use. */
  function EngineFormat(log: seq<Event>): Option<VideoDisplayFormat> {
    LastOf(log, FormatOf)
  }

  /** The engine's latest suspend/resume call was a suspend. */
  predicate EngineSuspended(log: seq<Event>) {
    LastOf(log, SuspendOf) == Some(true)
  }

  /** Events that touch neither the display format nor the suspend state. */
  predicate Quiet(evs: seq<Event>) {
    forall i :: 0 <= i < |evs| ==> FormatOf(evs[i]).None? && SuspendOf(evs[i]).None?
  }

  /** Proof helper: a hint that regroups a concatenation; it models nothing of the plugin. */
  lemma AppendAssoc<T>(a: seq<T>, b: seq<T>, c: seq<T>)
    ensures a + (b + c) == (a + b) + c
  {
  }

  /** What a log followed by more events says: the later events win where they say anything. */
  lemma {:induction false} LastOfAppend<T>(a: seq<Event>, b: seq<Event>, pick: Event -> Option<T>)
    decreases |b|
    ensures LastOf(a + b, pick) == if LastOf(b, pick).Some? then LastOf(b, pick) else LastOf(a, pick)
  {
    if b == [] {
      assert a + b == a;
    } else {
      var ab := a + b;
      assert ab[|ab| - 1] == b[|b| - 1];
      assert ab[..|ab| - 1] == a + b[..|b| - 1];
      if pick(b[|b| - 1]).None? {
        LastOfAppend(a, b[..|b| - 1], pick);
      }
    }
  }

  lemma {:induction false} LastOfNone<T>(b: seq<Event>, pick: Event -> Option<T>)
    requires forall i :: 0 <= i < |b| ==> pick(b[i]).None?
    decreases |b|
    ensures LastOf(b, pick) == None
  {
    if b != [] {
      LastOfNone(b[..|b| - 1], pick);
    }
  }

  /** Quiet events leave the engine's display format and suspend state as they were. */
  lemma QuietAppend(log: seq<Event>, evs: seq<Event>)
    requires Quiet(evs)
    ensures EngineFormat(log + evs) == EngineFormat(log)
    ensures EngineSuspended(log + evs) == EngineSuspended(log)
  {
    LastOfNone(evs, FormatOf);
    LastOfNone(evs, SuspendOf);
    LastOfAppend(log, evs, FormatOf);
    LastOfAppend(log, evs, SuspendOf);
  }

  /**
   * A `Resume` after calls that leave the display format alone: the engine
   * ends resumed, with the format it had before.
   */
  lemma ResumeAfter(log: seq<Event>, init: seq<Event>)
    requires forall i :: 0 <= i < |init| ==> FormatOf(init[i]).None?
    ensures EngineFormat(log + init + [Resume]) == EngineFormat(log)
    ensures !EngineSuspended(log + init + [Resume])
  {
    LastOfStep(log + init, Resume, SuspendOf);
    LastOfStep(log + init, Resume, FormatOf);
    LastOfNone(init, FormatOf);
    LastOfAppend(log, init, FormatOf);
  }

  /** The latest event that sets a state component decides it. */
  lemma LastOfStep<T>(log: seq<Event>, e: Event, pick: Event -> Option<T>)
    ensures LastOf(log + [e], pick) == if pick(e).Some? then pick(e) else LastOf(log, pick)
  {
    assert (log + [e])[..|log|] == log;
  }
}
