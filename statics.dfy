/**
 * The file-scope state of the plugin: the `Config*` variables, the OSD's
 * force-redraw flag `OsdDirty`, the suspend player `cSoftHdControl::Player`
 * and the `last` format remembered by SetVideoDisplayFormat, plus the log of
 * calls made into the engine and the host.
 */
module Statics {
  import opened Wrappers
  import opened Engine
  import opened Setup
  import opened EngineState

  class Globals {
    var config: Config
    /** `OsdDirty`: the next OSD flush repaints every bitmap in full. */
    var osdDirty: bool
    /** `cSoftHdControl::Player != NULL`: the plugin is suspended. */
    var suspended: bool
    /** SetVideoDisplayFormat's `last`; None stands for its initial -1. */
    var lastFormat: Option<VideoDisplayFormat>
    ghost var log: seq<Event>

    /**
     * The record is well formed, `last` is the format the engine was last
     * given, and while `Player` is set the engine was last suspended. The
     * engine can be suspended without a player too: `MainThreadHook` suspends
     * it when the user is inactive.
     */
    ghost predicate Valid()
      reads this
    {
      config.WellFormed() && lastFormat == EngineFormat(log) && (suspended ==> EngineSuspended(log))
    }

    /** The statics as the program starts: zero, NULL, and `last` = -1. */
    constructor ()
      ensures Valid()
      ensures config == InitialConfig() && !osdDirty && !suspended && lastFormat == None && log == []
    {
      config := InitialConfig();
      osdDirty := false;
      suspended := false;
      lastFormat := None;
      log := [];
    }
  }
}
