/**
 * `cSoftHdDevice::SetVideoDisplayFormat`: the host is always told, the
 * engine only when the format differs from the one of the previous call.
 */
module Device {
  import opened Wrappers
  import opened Engine
  import opened EngineState
  import opened Statics

  /**
   * The host's base handler runs first; if the format differs from `last`,
   * `last` is updated, the engine receives the format and the next OSD
   * flush is forced to repaint in full.
   */
  method SetVideoDisplayFormat(g: Globals, format: VideoDisplayFormat)
    requires g.Valid()
    modifies g`lastFormat, g`osdDirty, g`log
    ensures g.Valid() && g.lastFormat == Some(format)
    ensures g.osdDirty == (old(g.osdDirty) || old(g.lastFormat) != Some(format))
    ensures g.log == old(g.log) + [DeviceSetVideoDisplayFormat(format)] +
      (if old(g.lastFormat) == Some(format) then [] else [VideoSetDisplayFormat(format)])
    ensures old(EngineFormat(g.log)) != Some(format) <==> EngineFormat(g.log) != old(EngineFormat(g.log))
  {
    g.log := g.log + [DeviceSetVideoDisplayFormat(format)];
    QuietAppend(old(g.log), [DeviceSetVideoDisplayFormat(format)]);
    if g.lastFormat != Some(format) {
      g.lastFormat := Some(format);
      LastOfStep(g.log, VideoSetDisplayFormat(format), FormatOf);
      g.log := g.log + [VideoSetDisplayFormat(format)];
      g.osdDirty := true;
    }
  }

  /**
   * Two calls with the same format in a row: the second one reaches only the
   * host, never the engine, and leaves the OSD flag as the first left it.
   */
  method SetVideoDisplayFormatTwice(g: Globals, format: VideoDisplayFormat)
    requires g.Valid()
    modifies g`lastFormat, g`osdDirty, g`log
    ensures g.Valid() && g.lastFormat == Some(format)
    ensures g.log == old(g.log) + [DeviceSetVideoDisplayFormat(format)] +
      (if old(g.lastFormat) == Some(format) then [] else [VideoSetDisplayFormat(format)]) +
      [DeviceSetVideoDisplayFormat(format)]
    ensures g.osdDirty == (old(g.osdDirty) || old(g.lastFormat) != Some(format))
  {
    SetVideoDisplayFormat(g, format);
    SetVideoDisplayFormat(g, format);
  }
}
