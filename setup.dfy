/**
 * The plugin's configuration: the persisted setup keys, the flat record of
 * process-wide `Config*` values they name, C's `atoi` and `%d`, and the
 * value-level meaning of `cPluginSoftHdDevice::SetupParse`.
 */
module Setup {
  import opened Wrappers

  /** Number of resolution classes (`RESOLUTIONS`). */
  const RESOLUTIONS: nat := 4

  /** The resolution-class names that prefix per-resolution keys. */
  const Resolutions: seq<string> := ["576i", "720p", "1080i_fake", "1080i"]

  /** The five settings kept per resolution class. */
  datatype ResField = Scaling | Deinterlace | SkipChromaDeinterlace | Denoise | Sharpen

  /** A setup key the plugin recognises. */
  datatype Key =
    | MakePrimary
    | HideMainMenuEntry
    | SkipLines
    | PerResolution(res: nat, field: ResField)
    | AudioDelay
    | AudioPassthrough
    | AutoCropInterval
    | AutoCropDelay
    | AutoCropTolerance
    | SuspendClose
    | SuspendX11

  predicate ValidKey(k: Key) {
    k.PerResolution? ==> k.res < RESOLUTIONS
  }

  /** Keys whose `Config*` variable is a `char`, not an `int`. */
  predicate IsCharKey(k: Key) {
    k.MakePrimary? || k.HideMainMenuEntry? || k.SuspendClose? || k.SuspendX11?
  }

  function FieldName(f: ResField): string {
    match f
    case Scaling => "Scaling"
    case Deinterlace => "Deinterlace"
    case SkipChromaDeinterlace => "SkipChromaDeinterlace"
    case Denoise => "Denoise"
    case Sharpen => "Sharpen"
  }

  /** The key text `"%s.%s"` built from a resolution name and a field name. */
  function ResolutionKeyName(i: nat, f: ResField): string
    requires i < RESOLUTIONS
  {
    Resolutions[i] + "." + FieldName(f)
  }

  function KeyName(k: Key): string
    requires ValidKey(k)
  {
    match k
    case MakePrimary => "MakePrimary"
    case HideMainMenuEntry => "HideMainMenuEntry"
    case SkipLines => "SkipLines"
    case PerResolution(i, f) => ResolutionKeyName(i, f)
    case AudioDelay => "AudioDelay"
    case AudioPassthrough => "AudioPassthrough"
    case AutoCropInterval => "AutoCrop.Interval"
    case AutoCropDelay => "AutoCrop.Delay"
    case AutoCropTolerance => "AutoCrop.Tolerance"
    case SuspendClose => "Suspend.Close"
    case SuspendX11 => "Suspend.X11"
  }

  // ---------------------------------------------------------------------
  // Key lookup: the chain of `strcmp` tests in SetupParse, in source order
  // ---------------------------------------------------------------------

  /** One pass of the resolution loop: the five tests for resolution class `i`. */
  function LookupField(name: string, i: nat): Option<ResField>
    requires i < RESOLUTIONS
  {
    if name == ResolutionKeyName(i, Scaling) then Some(Scaling)
    else if name == ResolutionKeyName(i, Deinterlace) then Some(Deinterlace)
    else if name == ResolutionKeyName(i, SkipChromaDeinterlace) then Some(SkipChromaDeinterlace)
    else if name == ResolutionKeyName(i, Denoise) then Some(Denoise)
    else if name == ResolutionKeyName(i, Sharpen) then Some(Sharpen)
    else None
  }

  /** The per-resolution part of the chain, from resolution class `i` on. */
  function LookupResolution(name: string, i: nat): (r: Option<Key>)
    requires i <= RESOLUTIONS
    decreases RESOLUTIONS - i
    ensures r.Some? ==> r.value.PerResolution? && i <= r.value.res < RESOLUTIONS
  {
    if i == RESOLUTIONS then None
    else match LookupField(name, i)
      case Some(f) => Some(PerResolution(i, f))
      case None => LookupResolution(name, i + 1)
  }

  /** The scalar keys tested after the resolution loop. */
  function LookupTail(name: string): (r: Option<Key>)
    ensures r.Some? ==> !r.value.PerResolution?
  {
    if name == "AudioDelay" then Some(AudioDelay)
    else if name == "AudioPassthrough" then Some(AudioPassthrough)
    else if name == "AutoCrop.Interval" then Some(AutoCropInterval)
    else if name == "AutoCrop.Delay" then Some(AutoCropDelay)
    else if name == "AutoCrop.Tolerance" then Some(AutoCropTolerance)
    else if name == "Suspend.Close" then Some(SuspendClose)
    else if name == "Suspend.X11" then Some(SuspendX11)
    else None
  }

  /** The key SetupParse selects for `name`, or None when it returns false. */
  function LookupKey(name: string): (r: Option<Key>)
    ensures r.Some? ==> ValidKey(r.value)
  {
    if name == "MakePrimary" then Some(MakePrimary)
    else if name == "HideMainMenuEntry" then Some(HideMainMenuEntry)
    else if name == "SkipLines" then Some(SkipLines)
    else match LookupResolution(name, 0)
      case Some(k) => Some(k)
      case None => LookupTail(name)
  }

  lemma LookupFieldSound(name: string, i: nat)
    requires i < RESOLUTIONS
    ensures LookupField(name, i).Some? ==> ResolutionKeyName(i, LookupField(name, i).value) == name
    ensures LookupField(name, i).None? ==> forall f :: ResolutionKeyName(i, f) != name
  {
    if LookupField(name, i).None? {
      forall f ensures ResolutionKeyName(i, f) != name {
        match f
        case Scaling =>
        case Deinterlace =>
        case SkipChromaDeinterlace =>
        case Denoise =>
        case Sharpen =>
      }
    }
  }

  lemma {:induction false} LookupResolutionSound(name: string, i: nat)
    requires i <= RESOLUTIONS
    decreases RESOLUTIONS - i
    ensures LookupResolution(name, i).Some? ==>
      var k := LookupResolution(name, i).value;
      k.PerResolution? && i <= k.res < RESOLUTIONS && ResolutionKeyName(k.res, k.field) == name
    ensures LookupResolution(name, i).None? ==>
      forall j: nat, f :: i <= j < RESOLUTIONS ==> ResolutionKeyName(j, f) != name
  {
    if i < RESOLUTIONS {
      LookupFieldSound(name, i);
      if LookupField(name, i).None? {
        LookupResolutionSound(name, i + 1);
        if LookupResolution(name, i).None? {
          forall j: nat, f | i <= j < RESOLUTIONS ensures ResolutionKeyName(j, f) != name {
            if j > i {
              assert i + 1 <= j;
            }
          }
        }
      }
    }
  }

  /** The keys tested after the resolution loop. */
  predicate IsTailKey(k: Key) {
    k.AudioDelay? || k.AudioPassthrough? || k.AutoCropInterval? || k.AutoCropDelay? ||
    k.AutoCropTolerance? || k.SuspendClose? || k.SuspendX11?
  }

  lemma LookupTailSound(name: string)
    ensures LookupTail(name).Some? ==>
      IsTailKey(LookupTail(name).value) && KeyName(LookupTail(name).value) == name
    ensures LookupTail(name).None? ==> forall k :: IsTailKey(k) ==> KeyName(k) != name
  {
  }

  /** A name is recognised exactly when it is the name of a key, and then the key found has that name. */
  lemma LookupKeySound(name: string)
    ensures LookupKey(name).Some? ==> ValidKey(LookupKey(name).value) && KeyName(LookupKey(name).value) == name
    ensures LookupKey(name).None? ==> forall k :: ValidKey(k) ==> KeyName(k) != name
  {
    LookupResolutionSound(name, 0);
    LookupTailSound(name);
    if name == "MakePrimary" {
      assert LookupKey(name) == Some(MakePrimary);
    } else if name == "HideMainMenuEntry" {
      assert LookupKey(name) == Some(HideMainMenuEntry);
    } else if name == "SkipLines" {
      assert LookupKey(name) == Some(SkipLines);
    } else if LookupResolution(name, 0).Some? {
      assert LookupKey(name) == LookupResolution(name, 0);
    } else {
      assert LookupKey(name) == LookupTail(name);
    }
    if LookupKey(name).None? {
      forall k | ValidKey(k) ensures KeyName(k) != name {
        if k.PerResolution? {
          assert KeyName(k) == ResolutionKeyName(k.res, k.field);
        } else if !IsTailKey(k) {
          assert k.MakePrimary? || k.HideMainMenuEntry? || k.SkipLines?;
        }
      }
    }
  }

  /** With `a` shorter than `b`, position |a| holds the dot in `a.fa` and a character of `b` in `b.fb`. */
  lemma DotPosition(a: string, fa: string, b: string, fb: string)
    requires |a| < |b| && '.' !in b
    ensures (a + "." + fa)[|a|] == '.'
    ensures (b + "." + fb)[|a|] == b[|a|] != '.'
  {
  }

  /** `a.fa` and `b.fb` with no dot in `a` or `b` are equal only if the parts are. */
  lemma SplitAtDot(a: string, fa: string, b: string, fb: string)
    requires '.' !in a && '.' !in b
    requires a + "." + fa == b + "." + fb
    ensures a == b && fa == fb
  {
    var n := a + "." + fa;
    if |a| < |b| {
      DotPosition(a, fa, b, fb);
      assert false;
    } else if |b| < |a| {
      DotPosition(b, fb, a, fa);
      assert false;
    }
    assert a == n[..|a|] == b;
    assert fa == n[|a| + 1..] == fb;
  }

  lemma ResolutionHasNoDot(i: nat)
    requires i < RESOLUTIONS
    ensures '.' !in Resolutions[i]
  {
    var r := Resolutions[i];
    forall p | 0 <= p < |r| ensures r[p] != '.' {
      if i == 0 {
        assert r == "576i";
      } else if i == 1 {
        assert r == "720p";
      } else if i == 2 {
        assert r == "1080i_fake";
      } else {
        assert r == "1080i";
      }
    }
  }

  lemma ResolutionKeyNameInjective(i: nat, f: ResField, j: nat, g: ResField)
    requires i < RESOLUTIONS && j < RESOLUTIONS
    requires ResolutionKeyName(i, f) == ResolutionKeyName(j, g)
    ensures i == j && f == g
  {
    ResolutionHasNoDot(i);
    ResolutionHasNoDot(j);
    SplitAtDot(Resolutions[i], FieldName(f), Resolutions[j], FieldName(g));
  }

  /** Every per-resolution name starts with a digit, every other name with a letter. */
  lemma KeyNameFirstChar(k: Key)
    requires ValidKey(k)
    ensures |KeyName(k)| > 0
    ensures k.PerResolution? <==> '0' <= KeyName(k)[0] <= '9'
  {
    if k.PerResolution? {
      assert KeyName(k)[0] == Resolutions[k.res][0];
    }
  }

  /** Distinct keys have distinct names. */
  lemma KeyNameInjective(k1: Key, k2: Key)
    requires ValidKey(k1) && ValidKey(k2)
    requires KeyName(k1) == KeyName(k2)
    ensures k1 == k2
  {
    KeyNameFirstChar(k1);
    KeyNameFirstChar(k2);
    if k1.PerResolution? && k2.PerResolution? {
      ResolutionKeyNameInjective(k1.res, k1.field, k2.res, k2.field);
    }
  }

  /** Round trip on keys: SetupParse finds every key under the name Store writes it with. */
  lemma LookupKeyName(k: Key)
    requires ValidKey(k)
    ensures LookupKey(KeyName(k)) == Some(k)
  {
    LookupKeySound(KeyName(k));
    KeyNameInjective(k, LookupKey(KeyName(k)).value);
  }

  // ---------------------------------------------------------------------
  // C conversions
  // ---------------------------------------------------------------------

  predicate InCharRange(v: int) {
    -128 <= v < 128
  }

  /** Assignment of an int to a (signed, 8-bit) `char`: reduction modulo 256. */
  function ToChar(v: int): (c: int)
    ensures InCharRange(c)
    ensures (v - c) % 256 == 0
    ensures InCharRange(v) ==> c == v
  {
    (v + 128) % 256 - 128
  }

  /** The value a key's variable holds after being assigned `v`. */
  function Narrow(k: Key, v: int): int {
    if IsCharKey(k) then ToChar(v) else v
  }

  predicate IsSpace(ch: char) {
    ch == ' ' || ch == '\t' || ch == '\n' || ch == '\U{B}' || ch == '\U{C}' || ch == '\r'
  }

  predicate IsDigit(ch: char) {
    '0' <= ch <= '9'
  }

  predicate AllDigits(s: string) {
    forall p :: 0 <= p < |s| ==> IsDigit(s[p])
  }

  function SkipSpace(s: string): string {
    if |s| > 0 && IsSpace(s[0]) then SkipSpace(s[1..]) else s
  }

  /** The longest prefix of `s` made of decimal digits. */
  function LeadingDigits(s: string): (d: string)
    ensures AllDigits(d)
  {
    if |s| > 0 && IsDigit(s[0]) then [s[0]] + LeadingDigits(s[1..]) else []
  }

  function DigitsValue(d: string): nat
    requires AllDigits(d)
  {
    if |d| == 0 then 0 else DigitsValue(d[..|d| - 1]) * 10 + (d[|d| - 1] - '0') as nat
  }

  /**
   * C's `atoi`: leading white space, an optional sign, then the longest run
   * of digits; 0 when there is no digit.
   */
  function Atoi(s: string): int {
    var t := SkipSpace(s);
    if |t| > 0 && t[0] == '-' then 0 - DigitsValue(LeadingDigits(t[1..])) as int
    else if |t| > 0 && t[0] == '+' then DigitsValue(LeadingDigits(t[1..]))
    else DigitsValue(LeadingDigits(t))
  }

  function DigitChar(d: nat): char
    requires d < 10
  {
    ('0' as int + d) as char
  }

  function Decimal(n: nat): (s: string)
    decreases n
  {
    if n < 10 then [DigitChar(n)] else Decimal(n / 10) + [DigitChar(n % 10)]
  }

  /** `%d`: the text SetupStore persists for an int value. */
  function IntToString(v: int): string {
    if v < 0 then "-" + Decimal(-v) else Decimal(v)
  }

  lemma {:induction false} DecimalDigits(n: nat)
    decreases n
    ensures |Decimal(n)| > 0 && AllDigits(Decimal(n))
    ensures DigitsValue(Decimal(n)) == n
  {
    if n >= 10 {
      DecimalDigits(n / 10);
      var s := Decimal(n);
      assert s[..|s| - 1] == Decimal(n / 10);
    }
  }

  lemma {:induction false} LeadingDigitsOfDigits(s: string)
    requires AllDigits(s)
    ensures LeadingDigits(s) == s
  {
    if |s| > 0 {
      LeadingDigitsOfDigits(s[1..]);
    }
  }

  /** `atoi` reads back exactly what `%d` writes. */
  lemma AtoiIntToString(v: int)
    ensures Atoi(IntToString(v)) == v
  {
    var n: nat := if v < 0 then -v else v;
    DecimalDigits(n);
    LeadingDigitsOfDigits(Decimal(n));
    var s := IntToString(v);
    assert s[0] == '-' || IsDigit(s[0]);
    assert SkipSpace(s) == s;
    if v < 0 {
      assert s[1..] == Decimal(n);
    }
  }

  // ---------------------------------------------------------------------
  // The configuration record
  // ---------------------------------------------------------------------

  /** The process-wide `Config*` variables. */
  datatype Config = Config(
    makePrimary: int,
    hideMainMenuEntry: int,
    skipLines: int,
    scaling: seq<int>,
    deinterlace: seq<int>,
    skipChromaDeinterlace: seq<int>,
    denoise: seq<int>,
    sharpen: seq<int>,
    audioDelay: int,
    audioPassthrough: int,
    autoCropInterval: int,
    autoCropDelay: int,
    autoCropTolerance: int,
    suspendClose: int,
    suspendX11: int)
  {
    /** One entry per resolution class in every per-resolution array. */
    predicate Shaped() {
      |scaling| == RESOLUTIONS && |deinterlace| == RESOLUTIONS &&
      |skipChromaDeinterlace| == RESOLUTIONS && |denoise| == RESOLUTIONS && |sharpen| == RESOLUTIONS
    }

    /** Shaped, and every `char` variable within the range of a `char`. */
    predicate WellFormed() {
      Shaped() &&
      InCharRange(makePrimary) && InCharRange(hideMainMenuEntry) &&
      InCharRange(suspendClose) && InCharRange(suspendX11)
    }
  }

  /** The zero-initialised statics the plugin starts with. */
  function InitialConfig(): (c: Config)
    ensures c.WellFormed()
  {
    var z := [0, 0, 0, 0];
    Config(0, 0, 0, z, z, z, z, z, 0, 0, 0, 0, 0, 0, 0)
  }

  function ResArray(c: Config, f: ResField): seq<int> {
    match f
    case Scaling => c.scaling
    case Deinterlace => c.deinterlace
    case SkipChromaDeinterlace => c.skipChromaDeinterlace
    case Denoise => c.denoise
    case Sharpen => c.sharpen
  }

  /** The value of the variable key `k` names. */
  function Get(c: Config, k: Key): int
    requires c.Shaped() && ValidKey(k)
  {
    match k
    case MakePrimary => c.makePrimary
    case HideMainMenuEntry => c.hideMainMenuEntry
    case SkipLines => c.skipLines
    case PerResolution(i, f) => ResArray(c, f)[i]
    case AudioDelay => c.audioDelay
    case AudioPassthrough => c.audioPassthrough
    case AutoCropInterval => c.autoCropInterval
    case AutoCropDelay => c.autoCropDelay
    case AutoCropTolerance => c.autoCropTolerance
    case SuspendClose => c.suspendClose
    case SuspendX11 => c.suspendX11
  }

  /** The record after assigning `v` to the variable key `k` names. */
  function Set(c: Config, k: Key, v: int): (r: Config)
    requires c.Shaped() && ValidKey(k)
    ensures r.Shaped()
    ensures Get(r, k) == Narrow(k, v)
    ensures forall k' :: ValidKey(k') && k' != k ==> Get(r, k') == Get(c, k')
    ensures c.WellFormed() ==> r.WellFormed()
  {
    match k
    case MakePrimary => c.(makePrimary := ToChar(v))
    case HideMainMenuEntry => c.(hideMainMenuEntry := ToChar(v))
    case SkipLines => c.(skipLines := v)
    case PerResolution(i, f) => (
      match f
      case Scaling => c.(scaling := c.scaling[i := v])
      case Deinterlace => c.(deinterlace := c.deinterlace[i := v])
      case SkipChromaDeinterlace => c.(skipChromaDeinterlace := c.skipChromaDeinterlace[i := v])
      case Denoise => c.(denoise := c.denoise[i := v])
      case Sharpen => c.(sharpen := c.sharpen[i := v]))
    case AudioDelay => c.(audioDelay := v)
    case AudioPassthrough => c.(audioPassthrough := v)
    case AutoCropInterval => c.(autoCropInterval := v)
    case AutoCropDelay => c.(autoCropDelay := v)
    case AutoCropTolerance => c.(autoCropTolerance := v)
    case SuspendClose => c.(suspendClose := ToChar(v))
    case SuspendX11 => c.(suspendX11 := ToChar(v))
  }

  /** Two records that agree on every key are the same record. */
  lemma ConfigExtensionality(c1: Config, c2: Config)
    requires c1.Shaped() && c2.Shaped()
    requires forall k :: ValidKey(k) ==> Get(c1, k) == Get(c2, k)
    ensures c1 == c2
  {
    forall f: ResField ensures ResArray(c1, f) == ResArray(c2, f) {
      forall i | 0 <= i < RESOLUTIONS ensures ResArray(c1, f)[i] == ResArray(c2, f)[i] {
        assert Get(c1, PerResolution(i, f)) == Get(c2, PerResolution(i, f));
      }
    }
    assert ResArray(c1, Scaling) == ResArray(c2, Scaling);
    assert ResArray(c1, Deinterlace) == ResArray(c2, Deinterlace);
    assert ResArray(c1, SkipChromaDeinterlace) == ResArray(c2, SkipChromaDeinterlace);
    assert ResArray(c1, Denoise) == ResArray(c2, Denoise);
    assert ResArray(c1, Sharpen) == ResArray(c2, Sharpen);
    assert Get(c1, MakePrimary) == Get(c2, MakePrimary);
    assert Get(c1, HideMainMenuEntry) == Get(c2, HideMainMenuEntry);
    assert Get(c1, SkipLines) == Get(c2, SkipLines);
    assert Get(c1, AudioDelay) == Get(c2, AudioDelay);
    assert Get(c1, AudioPassthrough) == Get(c2, AudioPassthrough);
    assert Get(c1, AutoCropInterval) == Get(c2, AutoCropInterval);
    assert Get(c1, AutoCropDelay) == Get(c2, AutoCropDelay);
    assert Get(c1, AutoCropTolerance) == Get(c2, AutoCropTolerance);
    assert Get(c1, SuspendClose) == Get(c2, SuspendClose);
    assert Get(c1, SuspendX11) == Get(c2, SuspendX11);
  }

  // ---------------------------------------------------------------------
  // SetupParse on values, and loading a whole setup file through it
  // ---------------------------------------------------------------------

  /**
   * SetupParse(name, value) on the record: None when the name is not a key
   * (the function returns false and nothing changes), otherwise the record
   * with exactly that key's variable set to `atoi(value)`.
   */
  function Parse(c: Config, name: string, value: string): (r: Option<Config>)
    requires c.Shaped()
    ensures r.Some? ==> r.value.Shaped() && (c.WellFormed() ==> r.value.WellFormed())
  {
    LookupKeySound(name);
    match LookupKey(name)
    case None => None
    case Some(k) => Some(Set(c, k, Atoi(value)))
  }

  /**
   * Parse rejects exactly the names that are no key's name; a key's name
   * sets that key's variable to `atoi(value)` (narrowed to `char` where the
   * variable is one) and leaves every other variable as it was.
   */
  lemma ParseSound(c: Config, name: string, value: string)
    requires c.Shaped()
    ensures Parse(c, name, value).None? <==> forall k :: ValidKey(k) ==> KeyName(k) != name
    ensures forall k :: ValidKey(k) && KeyName(k) == name ==>
      var r := Parse(c, name, value);
      r.Some? && Get(r.value, k) == Narrow(k, Atoi(value)) &&
      forall k' :: ValidKey(k') && k' != k ==> Get(r.value, k') == Get(c, k')
  {
    LookupKeySound(name);
    forall k | ValidKey(k) && KeyName(k) == name ensures LookupKey(name) == Some(k) {
      LookupKeyName(k);
    }
  }

  /**
   * The host reading its setup file: every `name = value` line is offered to
   * SetupParse in order; lines it does not recognise are skipped.
   */
  function Load(c: Config, entries: seq<(string, string)>): (r: Config)
    requires c.Shaped()
    ensures r.Shaped() && (c.WellFormed() ==> r.WellFormed())
    decreases |entries|
  {
    if entries == [] then c
    else
      match Parse(c, entries[0].0, entries[0].1)
      case None => Load(c, entries[1..])
      case Some(c') => Load(c', entries[1..])
  }

  /** The setup lines that persist the keys `ks` of record `c`, as SetupStore writes them. */
  function Entries(c: Config, ks: seq<Key>): seq<(string, string)>
    requires c.Shaped()
    requires forall j :: 0 <= j < |ks| ==> ValidKey(ks[j])
  {
    if ks == [] then [] else [(KeyName(ks[0]), IntToString(Get(c, ks[0])))] + Entries(c, ks[1..])
  }

  /** A well-formed record's char variables already hold char values. */
  lemma NarrowGet(c: Config, k: Key)
    requires c.WellFormed() && ValidKey(k)
    ensures Narrow(k, Get(c, k)) == Get(c, k)
  {
  }

  /** The first line written for `ks` sets the first key of `ks` to its value in `c`. */
  lemma LoadEntriesHead(c0: Config, c: Config, ks: seq<Key>)
    requires c0.Shaped() && c.Shaped()
    requires forall j :: 0 <= j < |ks| ==> ValidKey(ks[j])
    requires ks != []
    ensures Load(c0, Entries(c, ks)) == Load(Set(c0, ks[0], Get(c, ks[0])), Entries(c, ks[1..]))
  {
    var k0, v := ks[0], Get(c, ks[0]);
    var e := Entries(c, ks);
    assert e[0] == (KeyName(k0), IntToString(v));
    assert e[1..] == Entries(c, ks[1..]);
    AtoiIntToString(v);
    LookupKeyName(k0);
    assert Parse(c0, KeyName(k0), IntToString(v)) == Some(Set(c0, k0, v));
  }

  /**
   * Loading the lines written for keys `ks` of `c` sets every key in `ks` to
   * its value in `c` and leaves every other key as it was.
   */
  lemma {:induction false} LoadEntries(c0: Config, c: Config, ks: seq<Key>, k: Key)
    requires c0.Shaped() && c.WellFormed()
    requires forall j :: 0 <= j < |ks| ==> ValidKey(ks[j])
    requires ValidKey(k)
    decreases |ks|
    ensures Get(Load(c0, Entries(c, ks)), k) == if k in ks then Get(c, k) else Get(c0, k)
  {
    if ks != [] {
      var k0, v := ks[0], Get(c, ks[0]);
      var c1 := Set(c0, k0, v);
      LoadEntriesHead(c0, c, ks);
      LoadEntries(c1, c, ks[1..], k);
      assert ks == [k0] + ks[1..];
      if k == k0 {
        NarrowGet(c, k0);
      }
    }
  }
}
