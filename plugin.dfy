/**
 * The plugin object `cPluginSoftHdDevice`: its setup-parameter parser, its
 * main-menu entry and action, and its SVDRP commands SUSP and RESU.
 */
module Plugin {
  import opened Wrappers
  import opened Engine
  import opened EngineState
  import opened Setup
  import opened Statics
  import opened Control
  import opened Setters

  // ---------------------------------------------------------------------
  // SetupParse
  // ---------------------------------------------------------------------

  /** The settings SetupParse makes once it has found key `k`. */
  method Assign(g: Globals, k: Key, value: string)
    requires g.Valid() && ValidKey(k)
    modifies g`config, g`log
    ensures g.Valid()
    ensures g.config == Set(old(g.config), k, Atoi(value))
    ensures g.log == old(g.log) + SetterEvents(g.config, k)
  {
    g.config := Set(g.config, k, Atoi(value));
    QuietAppend(g.log, SetterEvents(g.config, k));
    g.log := g.log + SetterEvents(g.config, k);
  }

  /**
   * The tests of one pass of SetupParse's resolution loop: on a match the
   * field of class `i` is set and its array handed to the engine.
   */
  method ParseResolution(g: Globals, i: nat, name: string, value: string) returns (ok: bool)
    requires g.Valid() && i < RESOLUTIONS
    modifies g`config, g`log
    ensures g.Valid()
    ensures ok == LookupField(name, i).Some?
    ensures ok ==> g.config == Set(old(g.config), PerResolution(i, LookupField(name, i).value), Atoi(value))
    ensures ok ==> g.log == old(g.log) + SetterEvents(g.config, PerResolution(i, LookupField(name, i).value))
    ensures !ok ==> g.config == old(g.config) && g.log == old(g.log)
  {
    if name == ResolutionKeyName(i, Scaling) {
      Assign(g, PerResolution(i, Scaling), value);
      return true;
    }
    if name == ResolutionKeyName(i, Deinterlace) {
      Assign(g, PerResolution(i, Deinterlace), value);
      return true;
    }
    if name == ResolutionKeyName(i, SkipChromaDeinterlace) {
      Assign(g, PerResolution(i, SkipChromaDeinterlace), value);
      return true;
    }
    if name == ResolutionKeyName(i, Denoise) {
      Assign(g, PerResolution(i, Denoise), value);
      return true;
    }
    if name == ResolutionKeyName(i, Sharpen) {
      Assign(g, PerResolution(i, Sharpen), value);
      return true;
    }
    return false;
  }

  /**
   * SetupParse's resolution loop: the tests of every class in turn, until
   * one of them matches.
   */
  method ParseResolutions(g: Globals, name: string, value: string) returns (ok: bool)
    requires g.Valid()
    modifies g`config, g`log
    ensures g.Valid()
    ensures ok == LookupResolution(name, 0).Some?
    ensures ok ==> g.config == Set(old(g.config), LookupResolution(name, 0).value, Atoi(value))
    ensures ok ==> g.log == old(g.log) + SetterEvents(g.config, LookupResolution(name, 0).value)
    ensures !ok ==> g.config == old(g.config) && g.log == old(g.log)
  {
    var i := 0;
    while i < RESOLUTIONS
      invariant 0 <= i <= RESOLUTIONS
      invariant LookupResolution(name, i) == LookupResolution(name, 0)
      invariant g.Valid() && g.config == old(g.config) && g.log == old(g.log)
    {
      ok := ParseResolution(g, i, name, value);
      if ok {
        return;
      }
      i := i + 1;
    }
    return false;
  }

  /**
   * `SetupParse(name, value)`: true exactly when `name` is a setup key, and
   * then the record is the one Parse describes (only that key's variable
   * changes, to `atoi(value)`) and the engine gets that key's setter; false
   * leaves everything as it was.
   */
  method SetupParse(g: Globals, name: string, value: string) returns (ok: bool)
    requires g.Valid()
    modifies g`config, g`log
    ensures g.Valid()
    ensures ok == LookupKey(name).Some?
    ensures ok ==> Parse(old(g.config), name, value) == Some(g.config)
    ensures ok ==> g.log == old(g.log) + SetterEvents(g.config, LookupKey(name).value)
    ensures !ok ==> Parse(old(g.config), name, value) == None && g.config == old(g.config) && g.log == old(g.log)
  {
    if name == "MakePrimary" {
      Assign(g, MakePrimary, value);
      return true;
    }
    if name == "HideMainMenuEntry" {
      Assign(g, HideMainMenuEntry, value);
      return true;
    }
    if name == "SkipLines" {
      Assign(g, SkipLines, value);
      return true;
    }
    ok := ParseResolutions(g, name, value);
    if ok {
      return;
    }
    var key := LookupTail(name);
    if key.Some? {
      Assign(g, key.value, value);
      return true;
    }
  }

  // ---------------------------------------------------------------------
  // Main menu
  // ---------------------------------------------------------------------

  /** The main-menu text `MAINMENUENTRY` (translation is not modelled). */
  const MainMenuText: string := "Suspend Soft-HD-Device"

  /** `MainMenuEntry()`: no entry (NULL) when `HideMainMenuEntry` is set. */
  function MainMenuEntry(c: Config): Option<string> {
    if c.hideMainMenuEntry != 0 then None else Some(MainMenuText)
  }

  /**
   * The entry as the setup file decides it: once SetupParse has read
   * `HideMainMenuEntry = v`, the entry is hidden exactly when `atoi(v)`,
   * narrowed to the `char` variable, is not 0; any other key leaves the
   * entry as it was.
   */
  lemma MainMenuEntryParsed(c: Config, name: string, v: string)
    requires c.Shaped()
    ensures name == "HideMainMenuEntry" ==>
      Parse(c, name, v).Some? &&
      (MainMenuEntry(Parse(c, name, v).value).None? <==> ToChar(Atoi(v)) != 0) &&
      (MainMenuEntry(Parse(c, name, v).value).Some? ==> MainMenuEntry(Parse(c, name, v).value).value == MainMenuText)
    ensures name != "HideMainMenuEntry" && Parse(c, name, v).Some? ==>
      MainMenuEntry(Parse(c, name, v).value) == MainMenuEntry(c)
  {
    ParseSound(c, name, v);
    if name == "HideMainMenuEntry" {
      LookupKeyName(HideMainMenuEntry);
    } else if Parse(c, name, v).Some? {
      var k := LookupKey(name).value;
      LookupKeySound(name);
      assert k != HideMainMenuEntry;
      assert Get(Parse(c, name, v).value, HideMainMenuEntry) == Get(c, HideMainMenuEntry);
    }
  }

  /** `HideMainMenuEntry = 256` wraps to 0 in the `char` variable: the entry stays visible. */
  lemma HideMainMenuEntryWraps(c: Config)
    requires c.Shaped()
    ensures MainMenuEntry(Parse(c, "HideMainMenuEntry", "256").value) == Some(MainMenuText)
  {
    assert Atoi("256") == 256 by {
      assert Decimal(2) == "2";
      assert Decimal(25) == Decimal(2) + "5";
      assert Decimal(256) == Decimal(25) + "6";
      assert IntToString(256) == "256";
      AtoiIntToString(256);
    }
    assert ToChar(256) == 0;
    MainMenuEntryParsed(c, "HideMainMenuEntry", "256");
  }

  /** The events of entering suspend mode from the menu or SVDRP. */
  function SuspendEvents(c: Config): (r: seq<Event>)
    ensures |r| > 0 && r[|r| - 1] == Suspend(c.suspendClose, c.suspendClose, c.suspendX11)
    ensures Quiet(r[..|r| - 1])
  {
    [ControlLaunch, ControlAttach, Suspend(c.suspendClose, c.suspendClose, c.suspendX11)]
  }

  /**
   * Launch a new suspend control, attach it, and suspend the engine with
   * `Suspend.Close` for video and audio and `Suspend.X11` for X11.
   */
  method EnterSuspend(g: Globals)
    requires g.Valid() && !g.suspended
    modifies g`suspended, g`log
    ensures g.Valid() && g.suspended && EngineSuspended(g.log)
    ensures g.log == old(g.log) + SuspendEvents(g.config)
  {
    var control := new SoftHdControl(g);
    ghost var e := SuspendEvents(g.config);
    QuietAppend(g.log, e[..2]);
    g.log := g.log + [ControlLaunch] + [ControlAttach];
    assert g.log == old(g.log) + e[..2];
    LastOfStep(g.log, e[2], FormatOf);
    LastOfStep(g.log, e[2], SuspendOf);
    g.log := g.log + [Suspend(g.config.suspendClose, g.config.suspendClose, g.config.suspendX11)];
  }

  /**
   * `MainMenuAction()`: when not suspended, enter suspend mode and, if the
   * host has a user-inactivity time set, mark the user inactive; when already
   * suspended, nothing happens.
   */
  method MainMenuAction(g: Globals, userInactiveTime: int)
    requires g.Valid()
    modifies g`suspended, g`log
    ensures g.Valid() && g.suspended && EngineSuspended(g.log)
    ensures old(g.suspended) ==> g.log == old(g.log)
    ensures !old(g.suspended) ==>
      g.log == old(g.log) + SuspendEvents(g.config) + (if userInactiveTime != 0 then [SetUserInactive] else [])
  {
    if !g.suspended {
      EnterSuspend(g);
      if userInactiveTime != 0 {
        QuietAppend(g.log, [SetUserInactive]);
        g.log := g.log + [SetUserInactive];
      }
    }
  }

  /**
   * The inactivity check of `MainThreadHook()`: while the user is inactive
   * the engine is suspended on every call, but no player is installed, so
   * the plugin itself does not count as suspended.
   */
  method MainThreadHook(g: Globals, userInactive: bool)
    requires g.Valid()
    modifies g`log
    ensures g.Valid()
    ensures g.log == old(g.log) +
      (if userInactive then [Suspend(g.config.suspendClose, g.config.suspendClose, g.config.suspendX11)] else [])
    ensures userInactive ==> EngineSuspended(g.log)
  {
    if userInactive {
      var e := Suspend(g.config.suspendClose, g.config.suspendClose, g.config.suspendX11);
      LastOfStep(g.log, e, FormatOf);
      LastOfStep(g.log, e, SuspendOf);
      g.log := g.log + [e];
    }
  }

  // ---------------------------------------------------------------------
  // SVDRP
  // ---------------------------------------------------------------------

  /** ASCII lower case, as `strcasecmp` compares in the C locale. */
  function ToLower(ch: char): char {
    if 'A' <= ch <= 'Z' then (ch as int + 32) as char else ch
  }

  /** A string in ASCII lower case. */
  function LowerString(s: string): string {
    seq(|s|, i requires 0 <= i < |s| => ToLower(s[i]))
  }

  /** `strcasecmp(a, b) == 0`, compared character by character. */
  predicate EqualIgnoringCase(a: string, b: string) {
    |a| == |b| && forall i :: 0 <= i < |a| ==> ToLower(a[i]) == ToLower(b[i])
  }

  /** Two strings compare equal ignoring case exactly when their lower-case forms are equal. */
  lemma EqualIgnoringCaseLower(a: string, b: string)
    ensures EqualIgnoringCase(a, b) <==> LowerString(a) == LowerString(b)
  {
    var la, lb := LowerString(a), LowerString(b);
    assert |la| == |a| && |lb| == |b|;
    if EqualIgnoringCase(a, b) {
      assert forall i :: 0 <= i < |la| ==> la[i] == ToLower(a[i]) == ToLower(b[i]) == lb[i];
    }
    if la == lb {
      forall i | 0 <= i < |a|
        ensures ToLower(a[i]) == ToLower(b[i])
      {
        assert la[i] == ToLower(a[i]) && lb[i] == ToLower(b[i]);
      }
    }
  }

  /**
   * Comparing commands ignoring case is an equivalence: every command
   * matches itself, matching is symmetric, and it is transitive.
   */
  lemma EqualIgnoringCaseEquivalence(a: string, b: string, c: string)
    ensures EqualIgnoringCase(a, a)
    ensures EqualIgnoringCase(a, b) ==> EqualIgnoringCase(b, a)
    ensures EqualIgnoringCase(a, b) && EqualIgnoringCase(b, c) ==> EqualIgnoringCase(a, c)
  {
  }

  /** The events RESU makes, given the inactivity time and whether the plugin was suspended. */
  function ResumeEvents(userInactiveTime: int, wasSuspended: bool): seq<Event> {
    (if userInactiveTime != 0 then [SetUserInactiveTimeout] else []) +
    (if wasSuspended then [ControlShutdown] + EndEvents(true) else []) +
    [Resume]
  }

  /**
   * RESU shuts the suspend control down exactly when the plugin was
   * suspended; it ends with `Resume`, which it also makes once before
   * exactly then (from the control's destructor); and whatever came before,
   * it leaves the engine resumed with its display format untouched.
   */
  lemma ResumeEventsEffect(log: seq<Event>, userInactiveTime: int, wasSuspended: bool)
    ensures var r := ResumeEvents(userInactiveTime, wasSuspended);
      (ControlShutdown in r) == wasSuspended && (SetUserInactiveTimeout in r) == (userInactiveTime != 0) &&
      |r| > 0 && r[|r| - 1] == Resume && (Resume in r[..|r| - 1]) == wasSuspended &&
      EngineFormat(log + r) == EngineFormat(log) && !EngineSuspended(log + r)
  {
    var r := ResumeEvents(userInactiveTime, wasSuspended);
    var t: seq<Event> := if userInactiveTime != 0 then [SetUserInactiveTimeout] else [];
    var init := t + (if wasSuspended then [ControlShutdown, PlayerDetach, Resume] else []);
    assert r == init + [Resume];
    assert r[..|r| - 1] == init;
    assert log + r == log + init + [Resume];
    ResumeAfter(log, init);
  }

  /** No command is both SUSP and RESU. */
  lemma SuspIsNotResu(command: string)
    ensures !(EqualIgnoringCase(command, "SUSP") && EqualIgnoringCase(command, "RESU"))
  {
    if EqualIgnoringCase(command, "SUSP") {
      assert ToLower(command[0]) == 's';
    }
  }

  /**
   * SVDRP's RESU: the inactivity timeout is restored if one is set, the
   * suspend control is shut down if there is one (its destructor deletes the
   * player and resumes), and then the engine is resumed.
   */
  method ResumeCommand(g: Globals, userInactiveTime: int)
    requires g.Valid()
    modifies g`suspended, g`log
    ensures g.Valid() && !g.suspended && !EngineSuspended(g.log)
    ensures g.log == old(g.log) + ResumeEvents(userInactiveTime, old(g.suspended))
  {
    var inactive: seq<Event> := if userInactiveTime != 0 then [SetUserInactiveTimeout] else [];
    if userInactiveTime != 0 {
      QuietAppend(g.log, [SetUserInactiveTimeout]);
      g.log := g.log + [SetUserInactiveTimeout];
    }
    ghost var shutdown: seq<Event> := if g.suspended then [ControlShutdown] + EndEvents(true) else [];
    ShutdownControl(g);
    ResumeEngine(g);
    AppendAssoc(old(g.log), inactive, shutdown);
    AppendAssoc(old(g.log), inactive + shutdown, [Resume]);
  }

  /**
   * `if (cSoftHdControl::Player) cControl::Shutdown()`: the host deletes the
   * suspend control, whose destructor deletes the player and resumes.
   */
  method ShutdownControl(g: Globals)
    requires g.Valid()
    modifies g`suspended, g`log
    ensures g.Valid() && !g.suspended
    ensures g.log == old(g.log) + if old(g.suspended) then [ControlShutdown] + EndEvents(true) else []
  {
    if g.suspended {
      QuietAppend(g.log, [ControlShutdown]);
      g.log := g.log + [ControlShutdown];
      EndSuspend(g);
      AppendAssoc(old(g.log), [ControlShutdown], EndEvents(true));
    } else {
      assert g.log == old(g.log) + [];
    }
  }

  /**
   * `SVDRPCommand(command)`: SUSP enters suspend mode unless already
   * suspended; RESU resumes; any other command is not handled (NULL).
   * Commands are compared ignoring case.
   */
  method SvdrpCommand(g: Globals, command: string, userInactiveTime: int) returns (reply: Option<string>)
    requires g.Valid()
    modifies g`suspended, g`log
    ensures g.Valid()
    ensures EqualIgnoringCase(command, "SUSP") && old(g.suspended) ==>
      reply == Some("SoftHdDevice already suspended") && g.suspended && g.log == old(g.log)
    ensures EqualIgnoringCase(command, "SUSP") && !old(g.suspended) ==>
      reply == Some("SoftHdDevice is suspended") && g.suspended && g.log == old(g.log) + SuspendEvents(g.config)
    ensures EqualIgnoringCase(command, "RESU") ==>
      reply == Some("SoftHdDevice is resumed") && !g.suspended && !EngineSuspended(g.log) &&
      g.log == old(g.log) + ResumeEvents(userInactiveTime, old(g.suspended))
    ensures !EqualIgnoringCase(command, "SUSP") && !EqualIgnoringCase(command, "RESU") ==>
      reply == None && g.suspended == old(g.suspended) && g.log == old(g.log)
  {
    SuspIsNotResu(command);
    if EqualIgnoringCase(command, "SUSP") {
      if g.suspended {
        return Some("SoftHdDevice already suspended");
      }
      EnterSuspend(g);
      return Some("SoftHdDevice is suspended");
    }
    if EqualIgnoringCase(command, "RESU") {
      ResumeCommand(g, userInactiveTime);
      return Some("SoftHdDevice is resumed");
    }
    return None;
  }
}
