/**
 * The plugin's OSD, `cSoftOsd`: activation (`SetActive`, which forces the
 * next flush to repaint everything or closes the engine's OSD) and `Flush`,
 * which uploads the dirty part of every paletted bitmap as an ARGB buffer, or
 * in true-colour mode the pixmaps the host has rendered.
 */
module Osd {
  import opened Wrappers
  import opened Engine
  import opened Bitmaps
  import opened Statics
  import opened EngineState

  /** A rendered true-colour pixmap: its view port and its ARGB data. */
  datatype Pixmap = Pixmap(x: int, y: int, w: int, h: int, data: seq<Argb>)

  /** A layer `b` with dirty box `d` as Flush finds it. */
  predicate LayerFits(b: Bitmap, d: Option<Box>) {
    b.Shaped() && (d.Some? ==> b.Covers(d.value))
  }

  predicate LayersFit(layers: seq<Bitmap>, dirties: seq<Option<Box>>) {
    |layers| == |dirties| &&
    forall i :: 0 <= i < |layers| ==> LayerFits(layers[i], dirties[i])
  }

  /**
   * The box Flush uploads for a layer: its full extent when `OsdDirty` forces
   * a repaint, else its dirty box, else nothing; then clipped to the OSD size.
   */
  function UploadBox(b: Bitmap, d: Option<Box>, forced: bool, osdWidth: nat, osdHeight: nat): (r: Option<Box>)
    requires LayerFits(b, d)
    ensures r.None? <==> !forced && d.None?
    ensures r.Some? ==> b.Covers(r.value) && r.value.Width() <= osdWidth && r.value.Height() <= osdHeight
  {
    if forced then Some(Clip(FullBox(b.width, b.height), osdWidth, osdHeight))
    else if d.None? then None
    else Some(Clip(d.value, osdWidth, osdHeight))
  }

  /**
   * Where the uploaded box starts and how large it is: the bitmap's origin
   * and full size when forced, else the dirty box's origin and size, each
   * side cut to the OSD's.
   */
  lemma UploadBoxSize(b: Bitmap, d: Option<Box>, forced: bool, osdWidth: nat, osdHeight: nat)
    requires LayerFits(b, d)
    ensures var r := UploadBox(b, d, forced, osdWidth, osdHeight);
      (r.Some? && forced ==>
        r.value.x1 == 0 && r.value.y1 == 0 &&
        r.value.Width() == Min(b.width, osdWidth) && r.value.Height() == Min(b.height, osdHeight)) &&
      (r.Some? && !forced ==>
        r.value.x1 == d.value.x1 && r.value.y1 == d.value.y1 &&
        r.value.Width() == Min(d.value.Width(), osdWidth) && r.value.Height() == Min(d.value.Height(), osdHeight))
  {
  }

  /** The upload Flush makes for one layer of an OSD at (left, top). */
  function LayerEvents(left: int, top: int, b: Bitmap, d: Option<Box>, forced: bool, osdWidth: nat, osdHeight: nat): (r: seq<Event>)
    requires LayerFits(b, d)
    ensures |r| <= 1 && (r == [] <==> !forced && d.None?)
  {
    match UploadBox(b, d, forced, osdWidth, osdHeight)
    case None => []
    case Some(c) =>
      [OsdDrawArgb(left + b.x0 + c.x1, top + b.y0 + c.y1, c.Width(), c.Height(), b.AreaColors(c))]
  }

  /** An upload is an ARGB buffer of exactly w*h cells that fits the OSD. */
  lemma LayerEventsBounds(left: int, top: int, b: Bitmap, d: Option<Box>, forced: bool, osdWidth: nat, osdHeight: nat)
    requires LayerFits(b, d)
    ensures forall e :: e in LayerEvents(left, top, b, d, forced, osdWidth, osdHeight) ==>
      e.OsdDrawArgb? && 0 <= e.w <= osdWidth && 0 <= e.h <= osdHeight && |e.argb| == e.w * e.h
  {
    var u := UploadBox(b, d, forced, osdWidth, osdHeight);
    if u.Some? {
      b.AreaColorsLength(u.value);
    }
  }

  /** The uploads a paletted Flush makes for the first n layers, in order. */
  function FlushLog(left: int, top: int, layers: seq<Bitmap>, dirties: seq<Option<Box>>, n: nat, forced: bool,
                    osdWidth: nat, osdHeight: nat): seq<Event>
    requires LayersFit(layers, dirties) && n <= |layers|
  {
    if n == 0 then []
    else
      FlushLog(left, top, layers, dirties, n - 1, forced, osdWidth, osdHeight) +
      LayerEvents(left, top, layers[n - 1], dirties[n - 1], forced, osdWidth, osdHeight)
  }

  /**
   * At most one upload per layer, and every upload is an ARGB buffer of
   * exactly w*h cells that fits the OSD.
   */
  lemma {:induction false} FlushLogBounds(left: int, top: int, layers: seq<Bitmap>, dirties: seq<Option<Box>>,
                                          n: nat, forced: bool, osdWidth: nat, osdHeight: nat)
    requires LayersFit(layers, dirties) && n <= |layers|
    ensures |FlushLog(left, top, layers, dirties, n, forced, osdWidth, osdHeight)| <= n
    ensures forall e :: e in FlushLog(left, top, layers, dirties, n, forced, osdWidth, osdHeight) ==>
      e.OsdDrawArgb? && 0 <= e.w <= osdWidth && 0 <= e.h <= osdHeight && |e.argb| == e.w * e.h
  {
    if n > 0 {
      FlushLogBounds(left, top, layers, dirties, n - 1, forced, osdWidth, osdHeight);
      LayerEventsBounds(left, top, layers[n - 1], dirties[n - 1], forced, osdWidth, osdHeight);
    }
  }

  /** Nothing dirty and no forced repaint: Flush uploads nothing. */
  lemma {:induction false} FlushLogClean(left: int, top: int, layers: seq<Bitmap>, dirties: seq<Option<Box>>,
                                         n: nat, osdWidth: nat, osdHeight: nat)
    requires LayersFit(layers, dirties) && n <= |layers|
    requires forall i :: 0 <= i < |dirties| ==> dirties[i].None?
    ensures FlushLog(left, top, layers, dirties, n, false, osdWidth, osdHeight) == []
  {
    if n > 0 {
      FlushLogClean(left, top, layers, dirties, n - 1, osdWidth, osdHeight);
    }
  }

  /**
   * A forced repaint uploads every layer once, in order, at the layer's own
   * offset, with its full size cut to the OSD size.
   */
  lemma {:induction false} FlushLogForced(left: int, top: int, layers: seq<Bitmap>, dirties: seq<Option<Box>>,
                                          n: nat, osdWidth: nat, osdHeight: nat)
    requires LayersFit(layers, dirties) && n <= |layers|
    ensures var r := FlushLog(left, top, layers, dirties, n, true, osdWidth, osdHeight);
      |r| == n &&
      forall i :: 0 <= i < n ==>
        r[i].OsdDrawArgb? &&
        r[i].x == left + layers[i].x0 && r[i].y == top + layers[i].y0 &&
        r[i].w == Min(layers[i].width, osdWidth) && r[i].h == Min(layers[i].height, osdHeight)
  {
    if n > 0 {
      FlushLogForced(left, top, layers, dirties, n - 1, osdWidth, osdHeight);
      UploadBoxSize(layers[n - 1], dirties[n - 1], true, osdWidth, osdHeight);
    }
  }

  /**
   * The buffer uploaded for a layer holds, at cell `(x - x1) + (y - y1) * w`,
   * the palette colour of each pixel (x, y) of the uploaded box.
   */
  lemma LayerEventsPixels(left: int, top: int, b: Bitmap, d: Option<Box>, forced: bool,
                          osdWidth: nat, osdHeight: nat, x: int, y: int)
    requires LayerFits(b, d)
    requires UploadBox(b, d, forced, osdWidth, osdHeight).Some?
    requires var c := UploadBox(b, d, forced, osdWidth, osdHeight).value;
      c.x1 <= x <= c.x2 && c.y1 <= y <= c.y2
    ensures var c := UploadBox(b, d, forced, osdWidth, osdHeight).value;
      var e := LayerEvents(left, top, b, d, forced, osdWidth, osdHeight)[0];
      e.x == left + b.x0 + c.x1 && e.y == top + b.y0 + c.y1 &&
      0 <= (x - c.x1) + (y - c.y1) * e.w < |e.argb| &&
      e.argb[(x - c.x1) + (y - c.y1) * e.w] == b.GetColor(x, y)
  {
    var c := UploadBox(b, d, forced, osdWidth, osdHeight).value;
    b.AreaColorsAt(c, x, y);
  }

  /** The uploads of a true-colour Flush: every rendered pixmap, in order. */
  function PixmapLog(left: int, top: int, rendered: seq<Pixmap>): seq<Event> {
    if rendered == [] then []
    else
      var p := rendered[|rendered| - 1];
      PixmapLog(left, top, rendered[..|rendered| - 1]) + [OsdDrawArgb(left + p.x, top + p.y, p.w, p.h, p.data)]
  }

  /** One upload per rendered pixmap, in order, each at the OSD's offset plus the pixmap's. */
  lemma {:induction false} PixmapLogAt(left: int, top: int, rendered: seq<Pixmap>)
    ensures var r := PixmapLog(left, top, rendered);
      |r| == |rendered| &&
      forall i :: 0 <= i < |rendered| ==>
        r[i] == OsdDrawArgb(left + rendered[i].x, top + rendered[i].y, rendered[i].w, rendered[i].h, rendered[i].data)
  {
    if rendered != [] {
      PixmapLogAt(left, top, rendered[..|rendered| - 1]);
    }
  }

  /** The dirty box of every layer, as the paletted loop finds them before it cleans any. */
  function Dirties(layers: seq<Bitmap>): seq<Option<Box>>
    reads layers
  {
    seq(|layers|, i requires 0 <= i < |layers| reads layers => layers[i].dirty)
  }

  class SoftOsd {
    const left: int
    const top: int
    /** The OSD level (`Level`). */
    const level: int
    /** `IsTrueColor()`, decided by the host. */
    const isTrueColor: bool
    /** The bitmaps of the host's OSD areas (`GetBitmap(i)`). */
    const layers: seq<Bitmap>
    /** `Active()`. */
    var active: bool

    ghost predicate Valid()
      reads layers
    {
      (forall i :: 0 <= i < |layers| ==> layers[i].Valid()) &&
      (forall i, j :: 0 <= i < j < |layers| ==> layers[i] != layers[j])
    }

    /**
     * `cSoftOsd(left, top, level)`: the new OSD becomes active, which forces
     * the next flush to repaint in full.
     */
    constructor (g: Globals, left: int, top: int, level: int, isTrueColor: bool, layers: seq<Bitmap>)
      requires forall i :: 0 <= i < |layers| ==> layers[i].Valid()
      requires forall i, j :: 0 <= i < j < |layers| ==> layers[i] != layers[j]
      requires g.Valid()
      modifies g`osdDirty, g`log
      ensures Valid() && active && g.Valid()
      ensures this.left == left && this.top == top && this.level == level
      ensures this.isTrueColor == isTrueColor && this.layers == layers
      ensures g.osdDirty && g.log == old(g.log)
    {
      this.left, this.top, this.level := left, top, level;
      this.isTrueColor, this.layers := isTrueColor, layers;
      active := false;
      new;
      SetActive(g, true);
    }

    /**
     * `SetActive(on)`: no effect when the state does not change; switching
     * on forces a full repaint, switching off closes the engine's OSD.
     */
    method SetActive(g: Globals, on: bool)
      requires g.Valid()
      modifies this`active, g`osdDirty, g`log
      ensures g.Valid() && active == on
      ensures g.osdDirty == (if on && !old(active) then true else old(g.osdDirty))
      ensures g.log == old(g.log) + (if !on && old(active) then [OsdClose] else [])
    {
      if active == on {
        return;
      }
      active := on;
      if on {
        g.osdDirty := true;
      } else {
        QuietAppend(g.log, [OsdClose]);
        g.log := g.log + [OsdClose];
      }
    }

    /** `~cSoftOsd`: switches the OSD off. */
    method Destroy(g: Globals)
      requires g.Valid()
      modifies this`active, g`osdDirty, g`log
      ensures g.Valid() && !active && g.osdDirty == old(g.osdDirty)
      ensures g.log == old(g.log) + (if old(active) then [OsdClose] else [])
    {
      SetActive(g, false);
    }

    /**
     * One pass of Flush's paletted loop: pick the bitmap's box (full extent
     * when `OsdDirty` is set, else its dirty box, else skip it), clip it,
     * convert and upload it at the bitmap's offset, and clean the bitmap.
     */
    method FlushBitmap(g: Globals, bitmap: Bitmap, osdWidth: nat, osdHeight: nat)
      requires bitmap.Valid() && g.Valid()
      modifies g`log, bitmap`dirty
      ensures g.Valid() && bitmap.Valid() && bitmap.dirty == None
      ensures g.log == old(g.log) + LayerEvents(left, top, bitmap, old(bitmap.dirty), g.osdDirty, osdWidth, osdHeight)
    {
      ghost var d := bitmap.dirty;
      var box: Box;
      if g.osdDirty {
        box := FullBox(bitmap.width, bitmap.height);
      } else if bitmap.dirty.None? {
        return;
      } else {
        box := bitmap.dirty.value;
      }
      box := Clip(box, osdWidth, osdHeight);
      assert UploadBox(bitmap, d, g.osdDirty, osdWidth, osdHeight) == Some(box);
      var argb := bitmap.ToArgb(box);
      var upload := OsdDrawArgb(left + bitmap.x0 + box.x1, top + bitmap.y0 + box.y1, box.Width(), box.Height(), argb[..]);
      assert LayerEvents(left, top, bitmap, d, g.osdDirty, osdWidth, osdHeight) == [upload];
      QuietAppend(g.log, [upload]);
      g.log := g.log + [upload];
      bitmap.Clean();
    }

    /**
     * Flush's loop over layers after i steps: layers 0 to i - 1 are clean,
     * the others still have their dirty boxes, and the log has grown from
     * `start` by exactly the uploads of layers 0 to i - 1.
     */
    ghost predicate FlushedUpTo(g: Globals, dirties: seq<Option<Box>>, start: seq<Event>, forced: bool, i: nat,
                                osdWidth: nat, osdHeight: nat)
      reads g, layers
    {
      LayersFit(layers, dirties) && i <= |layers| &&
      (forall j :: 0 <= j < |layers| ==> layers[j].dirty == (if j < i then None else dirties[j])) &&
      g.log == start + FlushLog(left, top, layers, dirties, i, forced, osdWidth, osdHeight)
    }

    /**
     * Flush's loop over layers, one step: given the uploads of layers 0 to
     * i - 1 and those layers cleaned, flush layer i.
     */
    method FlushLayer(g: Globals, i: nat, ghost dirties: seq<Option<Box>>, ghost start: seq<Event>,
                      osdWidth: nat, osdHeight: nat)
      requires FlushedUpTo(g, dirties, start, g.osdDirty, i, osdWidth, osdHeight) && i < |layers|
      requires forall j, k :: 0 <= j < k < |layers| ==> layers[j] != layers[k]
      requires g.Valid()
      modifies g`log, layers[i]
      ensures g.Valid() && FlushedUpTo(g, dirties, start, g.osdDirty, i + 1, osdWidth, osdHeight)
    {
      ghost var done := g.log;
      ghost var step := LayerEvents(left, top, layers[i], dirties[i], g.osdDirty, osdWidth, osdHeight);
      assert FlushLog(left, top, layers, dirties, i + 1, g.osdDirty, osdWidth, osdHeight) ==
        FlushLog(left, top, layers, dirties, i, g.osdDirty, osdWidth, osdHeight) + step;
      FlushBitmap(g, layers[i], osdWidth, osdHeight);
      assert g.log == done + step;
      AppendAssoc(start, FlushLog(left, top, layers, dirties, i, g.osdDirty, osdWidth, osdHeight), step);
    }

    /** Flush's loop over layers: every layer in turn, in order. */
    method FlushLayers(g: Globals, ghost dirties: seq<Option<Box>>, osdWidth: nat, osdHeight: nat)
      requires LayersFit(layers, dirties)
      requires forall j, k :: 0 <= j < k < |layers| ==> layers[j] != layers[k]
      requires forall j :: 0 <= j < |layers| ==> layers[j].dirty == dirties[j]
      requires g.Valid()
      modifies g`log, layers
      ensures g.Valid()
      ensures forall j :: 0 <= j < |layers| ==> layers[j].dirty == None
      ensures g.log == old(g.log) + FlushLog(left, top, layers, dirties, |layers|, g.osdDirty, osdWidth, osdHeight)
    {
      ghost var start, forced := g.log, g.osdDirty;
      var i := 0;
      while i < |layers|
        invariant g.Valid() && g.osdDirty == forced
        invariant FlushedUpTo(g, dirties, start, forced, i, osdWidth, osdHeight)
      {
        FlushLayer(g, i, dirties, start, osdWidth, osdHeight);
        i := i + 1;
      }
    }

    /** Flush's paletted branch: every layer in turn, then `OsdDirty` cleared. */
    method FlushPaletted(g: Globals, osdWidth: nat, osdHeight: nat)
      requires Valid() && g.Valid()
      modifies g`osdDirty, g`log, layers
      ensures Valid() && g.Valid()
      ensures LayersFit(layers, old(Dirties(layers)))
      ensures g.log == old(g.log) + FlushLog(left, top, layers, old(Dirties(layers)), |layers|, old(g.osdDirty), osdWidth, osdHeight)
      ensures !g.osdDirty && forall i :: 0 <= i < |layers| ==> layers[i].dirty == None
    {
      ghost var dirties := Dirties(layers);
      assert LayersFit(layers, dirties);
      FlushLayers(g, dirties, osdWidth, osdHeight);
      g.osdDirty := false;
    }

    /** Flush's true-colour branch: upload every rendered pixmap at the OSD's offset. */
    method FlushTrueColor(g: Globals, rendered: seq<Pixmap>)
      requires g.Valid()
      modifies g`log
      ensures g.Valid()
      ensures g.log == old(g.log) + PixmapLog(left, top, rendered)
    {
      var i := 0;
      while i < |rendered|
        invariant 0 <= i <= |rendered| && g.Valid()
        invariant g.log == old(g.log) + PixmapLog(left, top, rendered[..i])
      {
        var pm := rendered[i];
        assert rendered[..i + 1][..i] == rendered[..i];
        var upload := OsdDrawArgb(left + pm.x, top + pm.y, pm.w, pm.h, pm.data);
        QuietAppend(g.log, [upload]);
        g.log := g.log + [upload];
        i := i + 1;
      }
      assert rendered[..i] == rendered;
    }

    /**
     * `Flush()`: an inactive OSD does nothing. A paletted OSD uploads every
     * layer's box as an ARGB buffer (FlushLog), cleans the layers and clears
     * `OsdDirty`. A true-colour OSD uploads the rendered pixmaps.
     */
    method Flush(g: Globals, osdWidth: nat, osdHeight: nat, rendered: seq<Pixmap>)
      requires Valid() && g.Valid()
      modifies g`osdDirty, g`log, layers
      ensures Valid() && g.Valid()
      ensures !active ==>
        g.osdDirty == old(g.osdDirty) && g.log == old(g.log) &&
        forall i :: 0 <= i < |layers| ==> layers[i].dirty == old(layers[i].dirty)
      ensures active && !isTrueColor ==>
        LayersFit(layers, old(Dirties(layers))) &&
        g.log == old(g.log) + FlushLog(left, top, layers, old(Dirties(layers)), |layers|, old(g.osdDirty), osdWidth, osdHeight) &&
        !g.osdDirty && forall i :: 0 <= i < |layers| ==> layers[i].dirty == None
      ensures active && isTrueColor ==>
        g.log == old(g.log) + PixmapLog(left, top, rendered) && g.osdDirty == old(g.osdDirty) &&
        forall i :: 0 <= i < |layers| ==> layers[i].dirty == old(layers[i].dirty)
    {
      if !active {
        return;
      }
      if !isTrueColor {
        FlushPaletted(g, osdWidth, osdHeight);
        return;
      }
      FlushTrueColor(g, rendered);
    }
  }
}
