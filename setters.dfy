/**
 * The engine setters that follow an assignment to a setup variable, shared
 * by SetupParse (after each key) and Store (after each group of keys).
 */
module Setters {
  import opened Wrappers
  import opened Engine
  import opened EngineState
  import opened Setup

  /** One engine setter, named by what it hands over. */
  datatype Setter = SetSkipLines | SetResolution(field: ResField) | SetAudioDelay | SetPassthrough | SetAutoCrop

  /** The engine call a setter makes with the values of record `c`. */
  function Call(c: Config, s: Setter): (e: Event)
    ensures FormatOf(e).None? && SuspendOf(e).None? && !e.SetupStore?
  {
    match s
    case SetSkipLines => VideoSetSkipLines(c.skipLines)
    case SetResolution(f) => (
      match f
      case Scaling => VideoSetScaling(c.scaling)
      case Deinterlace => VideoSetDeinterlace(c.deinterlace)
      case SkipChromaDeinterlace => VideoSetSkipChromaDeinterlace(c.skipChromaDeinterlace)
      case Denoise => VideoSetDenoise(c.denoise)
      case Sharpen => VideoSetSharpen(c.sharpen))
    case SetAudioDelay => VideoSetAudioDelay(c.audioDelay)
    case SetPassthrough => CodecSetAudioPassthrough(c.audioPassthrough)
    case SetAutoCrop => VideoSetAutoCrop(c.autoCropInterval, c.autoCropDelay, c.autoCropTolerance)
  }

  /** The setter SetupParse calls after assigning key `k`; the four `char` keys have none. */
  function SetterOf(k: Key): (r: Option<Setter>)
    ensures r.None? <==> IsCharKey(k)
  {
    match k
    case SkipLines => Some(SetSkipLines)
    case PerResolution(_, f) => Some(SetResolution(f))
    case AudioDelay => Some(SetAudioDelay)
    case AudioPassthrough => Some(SetPassthrough)
    case AutoCropInterval => Some(SetAutoCrop)
    case AutoCropDelay => Some(SetAutoCrop)
    case AutoCropTolerance => Some(SetAutoCrop)
    case _ => None
  }

  /**
   * What SetupParse hands the engine after assigning key `k` in record `c`:
   * nothing for a `char` key, else one call, which carries the key's value
   * (for a per-resolution key, the whole array of its field).
   */
  function SetterEvents(c: Config, k: Key): (r: seq<Event>)
    requires c.Shaped() && ValidKey(k)
    ensures Quiet(r) && |r| <= 1
    ensures (r == []) == IsCharKey(k)
    ensures k.SkipLines? ==> r == [VideoSetSkipLines(Get(c, k))]
    ensures k.AudioDelay? ==> r == [VideoSetAudioDelay(Get(c, k))]
    ensures k.AudioPassthrough? ==> r == [CodecSetAudioPassthrough(Get(c, k))]
    ensures k.AutoCropInterval? ==> r[0].VideoSetAutoCrop? && r[0].interval == Get(c, k)
    ensures k.AutoCropDelay? ==> r[0].VideoSetAutoCrop? && r[0].delay == Get(c, k)
    ensures k.AutoCropTolerance? ==> r[0].VideoSetAutoCrop? && r[0].tolerance == Get(c, k)
    ensures k.PerResolution? ==> match r[0]
      case VideoSetScaling(m) => k.field == Scaling && m == ResArray(c, Scaling)
      case VideoSetDeinterlace(m) => k.field == Deinterlace && m == ResArray(c, Deinterlace)
      case VideoSetSkipChromaDeinterlace(m) => k.field == SkipChromaDeinterlace && m == ResArray(c, SkipChromaDeinterlace)
      case VideoSetDenoise(m) => k.field == Denoise && m == ResArray(c, Denoise)
      case VideoSetSharpen(m) => k.field == Sharpen && m == ResArray(c, Sharpen)
      case _ => false
  {
    match SetterOf(k)
    case None => []
    case Some(s) => [Call(c, s)]
  }
}
