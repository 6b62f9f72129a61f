/**
 * The setup menu `cMenuSetupSoft` and its `Store`: every edited value is
 * assigned to its `Config*` variable and persisted with SetupStore, and the
 * engine setters are called along the way. Reading the persisted lines back
 * through SetupParse restores exactly what was stored.
 */
module Menu {
  import opened Wrappers
  import opened Engine
  import opened EngineState
  import opened Setup
  import opened Setters
  import opened Statics

  /** The record after every variable was assigned from the menu's `int` values. */
  function Stored(values: Config): (r: Config)
    requires values.Shaped()
    ensures r.WellFormed()
    ensures forall k :: ValidKey(k) ==> Get(r, k) == Narrow(k, Get(values, k))
  {
    values.(makePrimary := ToChar(values.makePrimary), hideMainMenuEntry := ToChar(values.hideMainMenuEntry),
            suspendClose := ToChar(values.suspendClose), suspendX11 := ToChar(values.suspendX11))
  }

  // ---------------------------------------------------------------------
  // What Store does, step by step
  // ---------------------------------------------------------------------

  /** One statement of Store: persist a key, or call an engine setter. */
  datatype Step = Persist(key: Key) | Apply(setter: Setter)

  /** A step that persists a key persists one the parser knows. */
  predicate ValidStep(s: Step) {
    s.Persist? ==> ValidKey(s.key)
  }

  predicate ValidSteps(steps: seq<Step>) {
    forall i :: 0 <= i < |steps| ==> ValidStep(steps[i])
  }

  /** The events of one step, given the record's values when it runs. */
  function StepEvents(c: Config, s: Step): seq<Event>
    requires c.Shaped() && ValidStep(s)
  {
    match s
    case Persist(k) => [SetupStore(KeyName(k), Get(c, k))]
    case Apply(setter) => [Call(c, setter)]
  }

  /** The events of a run of steps, in order. */
  function Render(c: Config, steps: seq<Step>): seq<Event>
    requires c.Shaped() && ValidSteps(steps)
  {
    if steps == [] then []
    else Render(c, steps[..|steps| - 1]) + StepEvents(c, steps[|steps| - 1])
  }

  function GeneralSteps(): seq<Step> {
    [Persist(MakePrimary), Persist(HideMainMenuEntry), Persist(SkipLines), Apply(SetSkipLines)]
  }

  /** The body of Store's resolution loop for class `i`. */
  function ClassSteps(i: nat): seq<Step> {
    [Persist(PerResolution(i, Scaling)), Persist(PerResolution(i, Deinterlace)),
     Persist(PerResolution(i, SkipChromaDeinterlace)), Persist(PerResolution(i, Denoise)),
     Persist(PerResolution(i, Sharpen))]
  }

  /** The first n passes of Store's resolution loop. */
  function ResolutionSteps(n: nat): (r: seq<Step>)
    requires n <= RESOLUTIONS
    ensures ValidSteps(r)
  {
    if n == 0 then [] else ResolutionSteps(n - 1) + ClassSteps(n - 1)
  }

  function ResolutionSetterSteps(): seq<Step> {
    [Apply(SetResolution(Scaling)), Apply(SetResolution(Deinterlace)), Apply(SetResolution(SkipChromaDeinterlace)),
     Apply(SetResolution(Denoise)), Apply(SetResolution(Sharpen))]
  }

  function AudioSteps(): seq<Step> {
    [Persist(AudioDelay), Apply(SetAudioDelay), Persist(AudioPassthrough), Apply(SetPassthrough)]
  }

  function AutoCropSteps(): seq<Step> {
    [Persist(AutoCropInterval), Persist(AutoCropDelay), Persist(AutoCropTolerance), Apply(SetAutoCrop)]
  }

  function SuspendSteps(): seq<Step> {
    [Persist(SuspendClose), Persist(SuspendX11)]
  }

  /** Store's statements in source order. */
  function StoreSteps(): (r: seq<Step>)
    ensures ValidSteps(r)
  {
    GeneralSteps() + ResolutionSteps(RESOLUTIONS) + ResolutionSetterSteps() + AudioSteps() + AutoCropSteps() + SuspendSteps()
  }

  /** The events Store makes when it stores record `c`. */
  function StoreLog(c: Config): (r: seq<Event>)
    requires c.Shaped()
    ensures Quiet(r)
  {
    RenderQuiet(c, StoreSteps());
    Render(c, StoreSteps())
  }

  // ---------------------------------------------------------------------
  // What Store persists, and reading it back
  // ---------------------------------------------------------------------

  /** The setup lines a run of events persists: one `name = %d` line per SetupStore. */
  function Persisted(log: seq<Event>): seq<(string, string)> {
    if log == [] then []
    else
      var e := log[|log| - 1];
      Persisted(log[..|log| - 1]) + (if e.SetupStore? then [(e.name, IntToString(e.value))] else [])
  }

  lemma {:induction false} PersistedAppend(a: seq<Event>, b: seq<Event>)
    decreases |b|
    ensures Persisted(a + b) == Persisted(a) + Persisted(b)
  {
    if b == [] {
      assert a + b == a;
    } else {
      var ab, b' := a + b, b[..|b| - 1];
      assert ab[..|ab| - 1] == a + b';
      assert ab[|ab| - 1] == b[|b| - 1];
      PersistedAppend(a, b');
      var e := b[|b| - 1];
      var tail := if e.SetupStore? then [(e.name, IntToString(e.value))] else [];
      assert Persisted(a) + Persisted(b') + tail == Persisted(a) + (Persisted(b') + tail);
    }
  }

  /** The keys a run of steps persists, in order. */
  function PersistedKeys(steps: seq<Step>): (r: seq<Key>)
    requires ValidSteps(steps)
    ensures forall j :: 0 <= j < |r| ==> ValidKey(r[j])
  {
    if steps == [] then []
    else
      var s := steps[|steps| - 1];
      PersistedKeys(steps[..|steps| - 1]) + (if s.Persist? then [s.key] else [])
  }

  lemma {:induction false} EntriesSnoc(c: Config, ks: seq<Key>, k: Key)
    requires c.Shaped() && ValidKey(k)
    requires forall j :: 0 <= j < |ks| ==> ValidKey(ks[j])
    decreases |ks|
    ensures forall j :: 0 <= j < |ks + [k]| ==> ValidKey((ks + [k])[j])
    ensures Entries(c, ks + [k]) == Entries(c, ks) + [(KeyName(k), IntToString(Get(c, k)))]
  {
    if ks != [] {
      assert (ks + [k])[1..] == ks[1..] + [k];
      EntriesSnoc(c, ks[1..], k);
    }
  }

  lemma PersistedOne(e: Event)
    ensures Persisted([e]) == if e.SetupStore? then [(e.name, IntToString(e.value))] else []
  {
    assert [e][..0] == [];
  }

  /** The lines persisted by a run of steps are the setup lines of the keys it persists. */
  lemma {:induction false} PersistedRender(c: Config, steps: seq<Step>)
    requires c.Shaped() && ValidSteps(steps)
    decreases |steps|
    ensures Persisted(Render(c, steps)) == Entries(c, PersistedKeys(steps))
  {
    if steps == [] {
      assert Persisted(Render(c, steps)) == [];
      assert Entries(c, PersistedKeys(steps)) == [];
    } else {
      var init, s := steps[..|steps| - 1], steps[|steps| - 1];
      var events := StepEvents(c, s);
      PersistedRender(c, init);
      assert Render(c, steps) == Render(c, init) + events;
      PersistedAppend(Render(c, init), events);
      PersistedOne(events[0]);
      assert events == [events[0]];
      if s.Persist? {
        var line := (KeyName(s.key), IntToString(Get(c, s.key)));
        assert Persisted(events) == [line];
        EntriesSnoc(c, PersistedKeys(init), s.key);
        assert PersistedKeys(steps) == PersistedKeys(init) + [s.key];
        calc {
          Persisted(Render(c, steps));
          Persisted(Render(c, init)) + Persisted(events);
          Entries(c, PersistedKeys(init)) + [line];
          Entries(c, PersistedKeys(init) + [s.key]);
        }
      } else {
        assert PersistedKeys(steps) == PersistedKeys(init) + [] == PersistedKeys(init);
        assert Persisted(events) == [];
        calc {
          Persisted(Render(c, steps));
          Persisted(Render(c, init)) + [];
          Entries(c, PersistedKeys(init));
        }
      }
    }
  }

  lemma {:induction false} PersistedKeysHas(steps: seq<Step>, i: nat)
    requires ValidSteps(steps) && i < |steps| && steps[i].Persist?
    decreases |steps|
    ensures steps[i].key in PersistedKeys(steps)
  {
    if i < |steps| - 1 {
      PersistedKeysHas(steps[..|steps| - 1], i);
    }
  }

  function FieldIndex(f: ResField): nat {
    match f
    case Scaling => 0
    case Deinterlace => 1
    case SkipChromaDeinterlace => 2
    case Denoise => 3
    case Sharpen => 4
  }

  lemma {:induction false} ResolutionStepsAt(n: nat, j: nat, f: ResField)
    requires j < n <= RESOLUTIONS
    ensures |ResolutionSteps(n)| == 5 * n
    ensures ResolutionSteps(n)[5 * j + FieldIndex(f)] == Persist(PerResolution(j, f))
  {
    if j < n - 1 {
      ResolutionStepsAt(n - 1, j, f);
    } else if n > 1 {
      ResolutionStepsAt(n - 1, 0, f);
    }
  }

  /** Store persists every key. */
  lemma StoreStepsPersistAll(k: Key)
    requires ValidKey(k)
    ensures k in PersistedKeys(StoreSteps())
  {
    ResolutionStepsAt(RESOLUTIONS, 0, Scaling);
    var i := match k
      case MakePrimary => 0
      case HideMainMenuEntry => 1
      case SkipLines => 2
      case PerResolution(j, f) => 4 + 5 * j + FieldIndex(f)
      case AudioDelay => 29
      case AudioPassthrough => 31
      case AutoCropInterval => 33
      case AutoCropDelay => 34
      case AutoCropTolerance => 35
      case SuspendClose => 37
      case SuspendX11 => 38;
    if k.PerResolution? {
      ResolutionStepsAt(RESOLUTIONS, k.res, k.field);
    }
    assert StoreSteps()[i] == Persist(k);
    PersistedKeysHas(StoreSteps(), i);
  }

  /**
   * The round trip: loading what Store persisted, over any starting record,
   * gives back exactly the stored record.
   */
  lemma StoreThenLoad(c0: Config, c: Config)
    requires c0.Shaped() && c.WellFormed()
    ensures Load(c0, Persisted(StoreLog(c))) == c
  {
    var ks := PersistedKeys(StoreSteps());
    PersistedRender(c, StoreSteps());
    var r := Load(c0, Persisted(StoreLog(c)));
    forall k | ValidKey(k) ensures Get(r, k) == Get(c, k) {
      StoreStepsPersistAll(k);
      LoadEntries(c0, c, ks, k);
    }
    ConfigExtensionality(r, c);
  }

  /** Every line Store persists is a setup key SetupParse accepts, and it sets that key to the stored value. */
  lemma StoredLineParses(c0: Config, c: Config, line: (string, string))
    requires c0.Shaped() && c.WellFormed()
    requires line in Persisted(StoreLog(c))
    ensures exists k :: ValidKey(k) && KeyName(k) == line.0 && Parse(c0, line.0, line.1) == Some(Set(c0, k, Get(c, k)))
  {
    var ks := PersistedKeys(StoreSteps());
    PersistedRender(c, StoreSteps());
    var j := EntryIndex(c, ks, line);
    var k := ks[j];
    AtoiIntToString(Get(c, k));
    LookupKeyName(k);
    NarrowGet(c, k);
    assert Parse(c0, line.0, line.1) == Some(Set(c0, k, Get(c, k)));
  }

  /** The position of a line among the setup lines of `ks`, and the key it was written for. */
  lemma {:induction false} EntryIndex(c: Config, ks: seq<Key>, line: (string, string)) returns (j: nat)
    requires c.Shaped() && forall i :: 0 <= i < |ks| ==> ValidKey(ks[i])
    requires line in Entries(c, ks)
    decreases |ks|
    ensures j < |ks| && line == (KeyName(ks[j]), IntToString(Get(c, ks[j])))
  {
    if line != (KeyName(ks[0]), IntToString(Get(c, ks[0]))) {
      var j' := EntryIndex(c, ks[1..], line);
      j := j' + 1;
    } else {
      j := 0;
    }
  }

  // ---------------------------------------------------------------------
  // Store
  // ---------------------------------------------------------------------

  // The events of Store, segment by segment, for menu values `v`.

  function GeneralLog(v: Config): seq<Event> {
    [SetupStore("MakePrimary", ToChar(v.makePrimary)), SetupStore("HideMainMenuEntry", ToChar(v.hideMainMenuEntry)),
     SetupStore("SkipLines", v.skipLines), VideoSetSkipLines(v.skipLines)]
  }

  function ClassLog(v: Config, i: nat): seq<Event>
    requires v.Shaped() && i < RESOLUTIONS
  {
    [SetupStore(ResolutionKeyName(i, Scaling), v.scaling[i]),
     SetupStore(ResolutionKeyName(i, Deinterlace), v.deinterlace[i]),
     SetupStore(ResolutionKeyName(i, SkipChromaDeinterlace), v.skipChromaDeinterlace[i]),
     SetupStore(ResolutionKeyName(i, Denoise), v.denoise[i]),
     SetupStore(ResolutionKeyName(i, Sharpen), v.sharpen[i])]
  }

  function ResolutionLog(v: Config, n: nat): seq<Event>
    requires v.Shaped() && n <= RESOLUTIONS
  {
    if n == 0 then [] else ResolutionLog(v, n - 1) + ClassLog(v, n - 1)
  }

  function SetterLog(v: Config): seq<Event> {
    [VideoSetScaling(v.scaling), VideoSetDeinterlace(v.deinterlace), VideoSetSkipChromaDeinterlace(v.skipChromaDeinterlace),
     VideoSetDenoise(v.denoise), VideoSetSharpen(v.sharpen)]
  }

  function AudioLog(v: Config): seq<Event> {
    [SetupStore("AudioDelay", v.audioDelay), VideoSetAudioDelay(v.audioDelay),
     SetupStore("AudioPassthrough", v.audioPassthrough), CodecSetAudioPassthrough(v.audioPassthrough)]
  }

  function AutoCropLog(v: Config): seq<Event> {
    [SetupStore("AutoCrop.Interval", v.autoCropInterval), SetupStore("AutoCrop.Delay", v.autoCropDelay),
     SetupStore("AutoCrop.Tolerance", v.autoCropTolerance),
     VideoSetAutoCrop(v.autoCropInterval, v.autoCropDelay, v.autoCropTolerance)]
  }

  function SuspendLog(v: Config): seq<Event> {
    [SetupStore("Suspend.Close", ToChar(v.suspendClose)), SetupStore("Suspend.X11", ToChar(v.suspendX11))]
  }

  lemma ValidStepsAppend(a: seq<Step>, b: seq<Step>)
    requires ValidSteps(a) && ValidSteps(b)
    ensures ValidSteps(a + b)
  {
    assert forall i :: 0 <= i < |a + b| ==> (a + b)[i] == if i < |a| then a[i] else b[i - |a|];
  }

  lemma {:induction false} RenderAppend(c: Config, a: seq<Step>, b: seq<Step>)
    requires c.Shaped() && ValidSteps(a) && ValidSteps(b)
    decreases |b|
    ensures ValidSteps(a + b)
    ensures Render(c, a + b) == Render(c, a) + Render(c, b)
  {
    ValidStepsAppend(a, b);
    if b == [] {
      assert a + b == a;
    } else {
      var b' := b[..|b| - 1];
      assert ValidSteps(b');
      assert (a + b)[..|a + b| - 1] == a + b';
      RenderAppend(c, a, b');
      AppendAssoc(Render(c, a), Render(c, b'), StepEvents(c, b[|b| - 1]));
    }
  }

  lemma GeneralRender(v: Config)
    requires v.Shaped()
    ensures Render(Stored(v), GeneralSteps()) == GeneralLog(v)
  {
    RenderFour(Stored(v), Persist(MakePrimary), Persist(HideMainMenuEntry), Persist(SkipLines), Apply(SetSkipLines));
  }

  lemma PersistResolution(v: Config, i: nat, f: ResField)
    requires v.Shaped() && i < RESOLUTIONS
    ensures StepEvents(Stored(v), Persist(PerResolution(i, f))) == [SetupStore(ResolutionKeyName(i, f), ResArray(v, f)[i])]
  {
  }

  // Render of a short literal run of steps.

  lemma RenderTwo(c: Config, s0: Step, s1: Step)
    requires c.Shaped() && ValidStep(s0) && ValidStep(s1)
    ensures ValidSteps([s0, s1])
    ensures Render(c, [s0, s1]) == StepEvents(c, s0) + StepEvents(c, s1)
  {
    var t1, t2 := [s0], [s0, s1];
    assert t1[..0] == [] && t2[..1] == t1;
    assert ValidSteps(t2);
    assert Render(c, t1) == [] + StepEvents(c, s0);
    assert Render(c, t2) == Render(c, t1) + StepEvents(c, s1);
  }

  lemma RenderFour(c: Config, s0: Step, s1: Step, s2: Step, s3: Step)
    requires c.Shaped() && ValidStep(s0) && ValidStep(s1) && ValidStep(s2) && ValidStep(s3)
    ensures ValidSteps([s0, s1, s2, s3])
    ensures Render(c, [s0, s1, s2, s3]) == StepEvents(c, s0) + StepEvents(c, s1) + StepEvents(c, s2) + StepEvents(c, s3)
  {
    var t2, t3, t4 := [s0, s1], [s0, s1, s2], [s0, s1, s2, s3];
    RenderTwo(c, s0, s1);
    assert t3[..2] == t2 && t4[..3] == t3;
    assert ValidSteps(t4);
    assert Render(c, t3) == Render(c, t2) + StepEvents(c, s2);
    assert Render(c, t4) == Render(c, t3) + StepEvents(c, s3);
  }

  lemma RenderFive(c: Config, s0: Step, s1: Step, s2: Step, s3: Step, s4: Step)
    requires c.Shaped() && ValidStep(s0) && ValidStep(s1) && ValidStep(s2) && ValidStep(s3) && ValidStep(s4)
    ensures ValidSteps([s0, s1, s2, s3, s4])
    ensures Render(c, [s0, s1, s2, s3, s4]) ==
            StepEvents(c, s0) + StepEvents(c, s1) + StepEvents(c, s2) + StepEvents(c, s3) + StepEvents(c, s4)
  {
    var t4, t5 := [s0, s1, s2, s3], [s0, s1, s2, s3, s4];
    RenderFour(c, s0, s1, s2, s3);
    assert t5[..4] == t4;
    assert ValidSteps(t5);
    assert Render(c, t5) == Render(c, t4) + StepEvents(c, s4);
  }

  lemma ClassRender(v: Config, i: nat)
    requires v.Shaped() && i < RESOLUTIONS
    ensures ValidSteps(ClassSteps(i))
    ensures Render(Stored(v), ClassSteps(i)) == ClassLog(v, i)
  {
    var n := Stored(v);
    PersistResolution(v, i, Scaling);
    PersistResolution(v, i, Deinterlace);
    PersistResolution(v, i, SkipChromaDeinterlace);
    PersistResolution(v, i, Denoise);
    PersistResolution(v, i, Sharpen);
    RenderFive(n, Persist(PerResolution(i, Scaling)), Persist(PerResolution(i, Deinterlace)),
               Persist(PerResolution(i, SkipChromaDeinterlace)), Persist(PerResolution(i, Denoise)),
               Persist(PerResolution(i, Sharpen)));
  }

  lemma {:induction false} ResolutionRender(v: Config, m: nat)
    requires v.Shaped() && m <= RESOLUTIONS
    ensures Render(Stored(v), ResolutionSteps(m)) == ResolutionLog(v, m)
  {
    if m > 0 {
      ResolutionRender(v, m - 1);
      ClassRender(v, m - 1);
      RenderAppend(Stored(v), ResolutionSteps(m - 1), ClassSteps(m - 1));
    }
  }

  lemma SetterRender(v: Config)
    requires v.Shaped()
    ensures Render(Stored(v), ResolutionSetterSteps()) == SetterLog(v)
  {
    RenderFive(Stored(v), Apply(SetResolution(Scaling)), Apply(SetResolution(Deinterlace)),
               Apply(SetResolution(SkipChromaDeinterlace)), Apply(SetResolution(Denoise)), Apply(SetResolution(Sharpen)));
  }

  lemma AudioRender(v: Config)
    requires v.Shaped()
    ensures Render(Stored(v), AudioSteps()) == AudioLog(v)
  {
    RenderFour(Stored(v), Persist(AudioDelay), Apply(SetAudioDelay), Persist(AudioPassthrough), Apply(SetPassthrough));
  }

  lemma AutoCropRender(v: Config)
    requires v.Shaped()
    ensures Render(Stored(v), AutoCropSteps()) == AutoCropLog(v)
  {
    RenderFour(Stored(v), Persist(AutoCropInterval), Persist(AutoCropDelay), Persist(AutoCropTolerance), Apply(SetAutoCrop));
  }

  lemma SuspendRender(v: Config)
    requires v.Shaped()
    ensures Render(Stored(v), SuspendSteps()) == SuspendLog(v)
  {
    RenderTwo(Stored(v), Persist(SuspendClose), Persist(SuspendX11));
  }

  /** Store's events are its segments' events, one segment after the other. */
  lemma StoreLogSegments(v: Config)
    requires v.Shaped()
    ensures StoreLog(Stored(v)) ==
            GeneralLog(v) + ResolutionLog(v, RESOLUTIONS) + SetterLog(v) + AudioLog(v) + AutoCropLog(v) + SuspendLog(v)
  {
    StoreRenderSplit(Stored(v));
    GeneralRender(v);
    ResolutionRender(v, RESOLUTIONS);
    SetterRender(v);
    AudioRender(v);
    AutoCropRender(v);
    SuspendRender(v);
  }

  lemma SegmentsValid()
    ensures ValidSteps(GeneralSteps()) && ValidSteps(ResolutionSetterSteps()) && ValidSteps(AudioSteps())
    ensures ValidSteps(AutoCropSteps()) && ValidSteps(SuspendSteps())
  {
  }

  lemma StoreRenderSplit(n: Config)
    requires n.Shaped()
    ensures StoreLog(n) ==
            Render(n, GeneralSteps()) + Render(n, ResolutionSteps(RESOLUTIONS)) + Render(n, ResolutionSetterSteps()) +
            Render(n, AudioSteps()) + Render(n, AutoCropSteps()) + Render(n, SuspendSteps())
  {
    var g, r, st, a, ac, su := GeneralSteps(), ResolutionSteps(RESOLUTIONS), ResolutionSetterSteps(), AudioSteps(), AutoCropSteps(), SuspendSteps();
    SegmentsValid();
    RenderAppend(n, g, r);
    RenderAppend(n, g + r, st);
    RenderAppend(n, g + r + st, a);
    RenderAppend(n, g + r + st + a, ac);
    RenderAppend(n, g + r + st + a + ac, su);
  }

  /** Store changes neither the format nor the suspend state the engine was given. */
  lemma {:induction false} RenderQuiet(c: Config, steps: seq<Step>)
    requires c.Shaped() && ValidSteps(steps)
    ensures Quiet(Render(c, steps))
  {
    if steps != [] {
      var init := steps[..|steps| - 1];
      assert ValidSteps(init);
      RenderQuiet(c, init);
      var a, b := Render(c, init), StepEvents(c, steps[|steps| - 1]);
      assert Quiet(b);
      assert forall i :: 0 <= i < |a + b| ==> (a + b)[i] == if i < |a| then a[i] else b[i - |a|];
    }
  }

  /** The log after Store's six segments ran one after the other. */
  lemma StoreLogAfter(start: seq<Event>, v: Config)
    requires v.Shaped()
    ensures start + GeneralLog(v) + ResolutionLog(v, RESOLUTIONS) + SetterLog(v) + AudioLog(v) + AutoCropLog(v) + SuspendLog(v)
            == start + StoreLog(Stored(v))
  {
    var g, r, st, a, ac, su := GeneralLog(v), ResolutionLog(v, RESOLUTIONS), SetterLog(v), AudioLog(v), AutoCropLog(v), SuspendLog(v);
    StoreLogSegments(v);
    AppendAssoc(start, g, r);
    AppendAssoc(start, g + r, st);
    AppendAssoc(start, g + r + st, a);
    AppendAssoc(start, g + r + st + a, ac);
    AppendAssoc(start, g + r + st + a + ac, su);
  }

  class MenuSetupSoft {
    /** The menu's own copies of the setup variables, which the user edits. */
    var values: Config

    /** `cMenuSetupSoft()`: the menu starts from the current `Config*` values. */
    constructor (g: Globals)
      requires g.config.Shaped()
      ensures values == g.config
    {
      values := g.config;
    }

    /**
     * `Store()`: every `Config*` variable takes the menu's value (narrowed to
     * `char` where the variable is one), each is persisted under its key, and
     * the engine setters are called, in this order; format and suspend state
     * are left alone.
     */
    method Store(g: Globals)
      requires g.Valid() && values.Shaped()
      modifies g`config, g`log
      ensures g.Valid()
      ensures g.config == Stored(values)
      ensures g.log == old(g.log) + StoreLog(g.config)
    {
      StoreSegments(g);
      StoreLogAfter(old(g.log), values);
      QuietAppend(old(g.log), StoreLog(g.config));
    }

    /** Store's six segments, one after the other. */
    method StoreSegments(g: Globals)
      requires values.Shaped() && g.config.Shaped()
      modifies g`config, g`log
      ensures g.config == Stored(values)
      ensures g.log == old(g.log) + GeneralLog(values) + ResolutionLog(values, RESOLUTIONS) + SetterLog(values) +
                       AudioLog(values) + AutoCropLog(values) + SuspendLog(values)
    {
      StoreGeneral(g);
      StoreResolutions(g);
      ApplyResolutionSetters(g);
      StoreAudio(g);
      StoreAutoCrop(g);
      StoreSuspend(g);
    }

    method StoreGeneral(g: Globals)
      requires values.Shaped() && g.config.Shaped()
      modifies g`config, g`log
      ensures g.log == old(g.log) + GeneralLog(values)
      ensures g.config == old(g.config).(makePrimary := ToChar(values.makePrimary),
                                         hideMainMenuEntry := ToChar(values.hideMainMenuEntry),
                                         skipLines := values.skipLines)
    {
      g.config := g.config.(makePrimary := ToChar(values.makePrimary));
      g.log := g.log + [SetupStore("MakePrimary", g.config.makePrimary)];
      g.config := g.config.(hideMainMenuEntry := ToChar(values.hideMainMenuEntry));
      g.log := g.log + [SetupStore("HideMainMenuEntry", g.config.hideMainMenuEntry)];
      g.config := g.config.(skipLines := values.skipLines);
      g.log := g.log + [SetupStore("SkipLines", g.config.skipLines)];
      g.log := g.log + [VideoSetSkipLines(g.config.skipLines)];
    }

    /** The loop over the resolution classes. */
    method StoreResolutions(g: Globals)
      requires values.Shaped() && g.config.Shaped()
      modifies g`config, g`log
      ensures g.log == old(g.log) + ResolutionLog(values, RESOLUTIONS)
      ensures g.config == old(g.config).(scaling := values.scaling, deinterlace := values.deinterlace,
                                         skipChromaDeinterlace := values.skipChromaDeinterlace,
                                         denoise := values.denoise, sharpen := values.sharpen)
    {
      var i := 0;
      while i < RESOLUTIONS
        invariant 0 <= i <= RESOLUTIONS && g.config.Shaped()
        invariant g.log == old(g.log) + ResolutionLog(values, i)
        invariant g.config == old(g.config).(scaling := g.config.scaling, deinterlace := g.config.deinterlace,
                                             skipChromaDeinterlace := g.config.skipChromaDeinterlace,
                                             denoise := g.config.denoise, sharpen := g.config.sharpen)
        invariant forall j :: 0 <= j < i ==> g.config.scaling[j] == values.scaling[j]
        invariant forall j :: 0 <= j < i ==> g.config.deinterlace[j] == values.deinterlace[j]
        invariant forall j :: 0 <= j < i ==> g.config.skipChromaDeinterlace[j] == values.skipChromaDeinterlace[j]
        invariant forall j :: 0 <= j < i ==> g.config.denoise[j] == values.denoise[j]
        invariant forall j :: 0 <= j < i ==> g.config.sharpen[j] == values.sharpen[j]
      {
        StoreClass(g, i);
        AppendAssoc(old(g.log), ResolutionLog(values, i), ClassLog(values, i));
        i := i + 1;
      }
    }

    /** One pass of the resolution loop: the five variables of class `i`. */
    method StoreClass(g: Globals, i: nat)
      requires values.Shaped() && g.config.Shaped() && i < RESOLUTIONS
      modifies g`config, g`log
      ensures g.log == old(g.log) + ClassLog(values, i)
      ensures var c := old(g.config);
        g.config == c.(scaling := c.scaling[i := values.scaling[i]],
                       deinterlace := c.deinterlace[i := values.deinterlace[i]],
                       skipChromaDeinterlace := c.skipChromaDeinterlace[i := values.skipChromaDeinterlace[i]],
                       denoise := c.denoise[i := values.denoise[i]],
                       sharpen := c.sharpen[i := values.sharpen[i]])
    {
      g.config := g.config.(scaling := g.config.scaling[i := values.scaling[i]]);
      g.log := g.log + [SetupStore(ResolutionKeyName(i, Scaling), values.scaling[i])];
      g.config := g.config.(deinterlace := g.config.deinterlace[i := values.deinterlace[i]]);
      g.log := g.log + [SetupStore(ResolutionKeyName(i, Deinterlace), values.deinterlace[i])];
      g.config := g.config.(skipChromaDeinterlace := g.config.skipChromaDeinterlace[i := values.skipChromaDeinterlace[i]]);
      g.log := g.log + [SetupStore(ResolutionKeyName(i, SkipChromaDeinterlace), values.skipChromaDeinterlace[i])];
      g.config := g.config.(denoise := g.config.denoise[i := values.denoise[i]]);
      g.log := g.log + [SetupStore(ResolutionKeyName(i, Denoise), values.denoise[i])];
      g.config := g.config.(sharpen := g.config.sharpen[i := values.sharpen[i]]);
      g.log := g.log + [SetupStore(ResolutionKeyName(i, Sharpen), values.sharpen[i])];
    }

    method ApplyResolutionSetters(g: Globals)
      requires g.config.Shaped()
      modifies g`log
      ensures g.log == old(g.log) + SetterLog(g.config)
    {
      g.log := g.log + [VideoSetScaling(g.config.scaling)];
      g.log := g.log + [VideoSetDeinterlace(g.config.deinterlace)];
      g.log := g.log + [VideoSetSkipChromaDeinterlace(g.config.skipChromaDeinterlace)];
      g.log := g.log + [VideoSetDenoise(g.config.denoise)];
      g.log := g.log + [VideoSetSharpen(g.config.sharpen)];
    }

    method StoreAudio(g: Globals)
      modifies g`config, g`log
      ensures g.log == old(g.log) + AudioLog(values)
      ensures g.config == old(g.config).(audioDelay := values.audioDelay, audioPassthrough := values.audioPassthrough)
    {
      g.config := g.config.(audioDelay := values.audioDelay);
      g.log := g.log + [SetupStore("AudioDelay", g.config.audioDelay)];
      g.log := g.log + [VideoSetAudioDelay(g.config.audioDelay)];
      g.config := g.config.(audioPassthrough := values.audioPassthrough);
      g.log := g.log + [SetupStore("AudioPassthrough", g.config.audioPassthrough)];
      g.log := g.log + [CodecSetAudioPassthrough(g.config.audioPassthrough)];
    }

    method StoreAutoCrop(g: Globals)
      modifies g`config, g`log
      ensures g.log == old(g.log) + AutoCropLog(values)
      ensures g.config == old(g.config).(autoCropInterval := values.autoCropInterval,
                                         autoCropDelay := values.autoCropDelay,
                                         autoCropTolerance := values.autoCropTolerance)
    {
      g.config := g.config.(autoCropInterval := values.autoCropInterval);
      g.log := g.log + [SetupStore("AutoCrop.Interval", g.config.autoCropInterval)];
      g.config := g.config.(autoCropDelay := values.autoCropDelay);
      g.log := g.log + [SetupStore("AutoCrop.Delay", g.config.autoCropDelay)];
      g.config := g.config.(autoCropTolerance := values.autoCropTolerance);
      g.log := g.log + [SetupStore("AutoCrop.Tolerance", g.config.autoCropTolerance)];
      g.log := g.log + [VideoSetAutoCrop(g.config.autoCropInterval, g.config.autoCropDelay, g.config.autoCropTolerance)];
    }

    method StoreSuspend(g: Globals)
      modifies g`config, g`log
      ensures g.log == old(g.log) + SuspendLog(values)
      ensures g.config == old(g.config).(suspendClose := ToChar(values.suspendClose), suspendX11 := ToChar(values.suspendX11))
    {
      g.config := g.config.(suspendClose := ToChar(values.suspendClose));
      g.log := g.log + [SetupStore("Suspend.Close", g.config.suspendClose)];
      g.config := g.config.(suspendX11 := ToChar(values.suspendX11));
      g.log := g.log + [SetupStore("Suspend.X11", g.config.suspendX11)];
    }
  }
}
