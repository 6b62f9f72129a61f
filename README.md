# softhddevice: OSD flush, setup parameters and suspend mode

This project is a Dafny model of the logic in `softhddevice.cpp`, the VDR
plugin front end of the soft HD device, which does more than forward a call:

* **The paletted OSD flush.**
  * `cSoftOsd::Flush` picks a box for every bitmap layer: its full extent
    when the global `OsdDirty` flag forces a repaint, else its dirty box.
  * It clips the box to the OSD size and converts it into a row-major
    `w*h` ARGB buffer.
  * It uploads the buffer at the layer's absolute offset, cleans the layer,
    and finally clears `OsdDirty`.
  * `cSoftOsd::SetActive` forces such a repaint or closes the engine's OSD.
* **The setup parameters.**
  * `cPluginSoftHdDevice::SetupParse` dispatches on the key name over a flat
    record: 4 resolution classes times 5 fields, plus 10 scalar variables.
  * `cMenuSetupSoft::Store` assigns that record, persists every key with
    `SetupStore`, and calls the engine setters.
  * Reading the persisted lines back through SetupParse restores the
    record that was stored.
* **The change guard of `cSoftHdDevice::SetVideoDisplayFormat`.** The
  engine only hears about a format that differs from the previous call's.
* **Suspend mode.**
  * The static `cSoftHdControl::Player` is the "suspended" flag.
  * It is set by SVDRP `SUSP` and by the main-menu action, and cleared by
    SVDRP `RESU`, by `cSoftHdControl::ProcessKey` and by the control's
    destructor.

## How calls are modelled

Calls into the engine and into the host are not executed. Each one becomes
an entry of a ghost log of `Engine.Event`s that the methods append to:

* engine calls: `OsdDrawARGB`, `OsdClose`, `VideoSet*`,
  `CodecSetAudioPassthrough`, `Suspend`, `Resume`;
* host calls: `SetupStore`, the base class handler of
  `SetVideoDisplayFormat`, `cControl::Launch`/`Attach`/`Shutdown`, the
  player's `Detach`, and the `ShutdownHandler` setters.

The file-scope statics live in one object, `Statics.Globals`:

* the `Config*` variables (`Setup.Config`);
* `OsdDirty`;
* `cSoftHdControl::Player != NULL`;
* SetVideoDisplayFormat's `last`.

Its invariant `Valid` ties the statics to the log:

* `last` is the format the engine was last given;
* while `Player` is set, the engine's last suspend/resume call was a
  suspend (the engine can also be suspended with no player:
  `MainThreadHook` suspends it while the user is inactive);
* every `char` variable holds a `char` value.

Every public operation that changes the statics keeps `Valid`. The suspend control's constructor installs the player before the engine is suspended, so it is only a step of `EnterSuspend`, which as a whole restores `Valid`.

## Modules

| module | file | contents |
|---|---|---|
| Wrappers | wrappers.dfy | `Option` |
| Engine, EngineState | engine.dfy | the events; the format and suspend state a log leaves the engine in |
| Setup | setup.dfy | keys and their names, `atoi`/`%d`, the `Config` record, SetupParse on values (`Parse`), loading a setup file |
| Setters | setters.dfy | the engine setter that follows each key |
| Statics | statics.dfy | the file-scope statics |
| Bitmaps | bitmap.dfy | the host's `cBitmap` as Flush uses it: dirty box, `GetColor`, clipping, the ARGB conversion loop |
| Osd | osd.dfy | `cSoftOsd`: SetActive, Flush |
| Device | device.dfy | `SetVideoDisplayFormat` |
| Control | control.dfy | `cSoftHdPlayer`/`cSoftHdControl` |
| Plugin | plugin.dfy | SetupParse, MainMenuEntry/Action, SVDRPCommand |
| Menu | menu.dfy | `cMenuSetupSoft`: its values and `Store`, and the store/load round trip |

## Model

| member | source | states |
|---|---|---|
| Bitmaps.Clip | softhddevice.cpp:265-281 | the origin is kept; width and height are at most the OSD's; a side within the OSD is kept (x2/y2 unchanged), a longer one is cut to exactly the OSD's length; a non-negative side stays non-negative and never grows |
| Bitmaps.Bitmap.GetColor | softhddevice.cpp:292 | the colour of a pixel is its palette entry; `AreaColorsAt` and `LayerEventsPixels` are proved about it |
| Bitmaps.Bitmap.RowsAt | softhddevice.cpp:289-294 | in the first n rows of a box, the index `i + j*w` is in range and holds the colour of pixel (x1+i, y1+j) |
| Bitmaps.Bitmap.AreaColorsLength | softhddevice.cpp:288 | the converted area has exactly w*h cells |
| Bitmaps.Bitmap.AreaColorsAt | softhddevice.cpp:289-294 | for every (x, y) of the box, `(x - x1) + (y - y1) * w` lies in [0, w*h) and holds `GetColor(x, y)` |
| Bitmaps.Bitmap.Clean | softhddevice.cpp:298 | the bitmap has no dirty box any more |
| Bitmaps.Bitmap.ToArgb | softhddevice.cpp:288-294 | the nested x/y loops fill a fresh `w*h` array whose contents are the area's colours in row-major order |
| Osd.UploadBox | softhddevice.cpp:256-281 | there is no upload exactly when no repaint is forced and the layer has no dirty box; the box uploaded lies inside the bitmap and fits the OSD |
| Osd.UploadBoxSize | softhddevice.cpp:256-281 | forced: origin (0, 0) with size min(bitmap, OSD) per side; otherwise the dirty box's origin with size min(dirty box, OSD) per side |
| Osd.LayerEvents | softhddevice.cpp:256-296 | a layer makes at most one upload, and none exactly when not forced and not dirty |
| Osd.LayerEventsBounds | softhddevice.cpp:265-296 | every upload has 0 <= w <= OSD width, 0 <= h <= OSD height and a buffer of exactly w*h cells |
| Osd.LayerEventsPixels | softhddevice.cpp:288-296 | the upload goes to (Left + X0 + x1, Top + Y0 + y1), and cell `(x - x1) + (y - y1) * w` of its buffer is the palette colour of pixel (x, y) |
| Osd.FlushLog | softhddevice.cpp:244-301 | the uploads of the layer loop for the first n layers, in layer order; its bounds are proved by `FlushLogBounds` |
| Osd.FlushLogBounds | softhddevice.cpp:244-300 | a paletted flush makes at most one upload per layer, and every upload fits the OSD and has a w*h buffer |
| Osd.FlushLogClean | softhddevice.cpp:256-263 | with no layer dirty and no forced repaint, a flush uploads nothing |
| Osd.FlushLogForced | softhddevice.cpp:244-296 | a forced flush uploads every layer once, in order, at the layer's offset, with its full size cut to the OSD size |
| Osd.PixmapLogAt | softhddevice.cpp:306-326 | a true-colour flush makes one upload per rendered pixmap, in order, at the OSD position plus the pixmap's view port, with the pixmap's data |
| Osd.Dirties | softhddevice.cpp:256-263 | the dirty box of every layer as the loop finds it before cleaning any; `FlushPaletted` and `Flush` state their uploads in terms of it |
| Osd.SoftOsd.constructor | softhddevice.cpp:179-189 | the new OSD is active and `OsdDirty` is set; no engine call is made; the statics stay valid |
| Osd.SoftOsd.SetActive | softhddevice.cpp:164-177 | the same state again is a no-op; switching on sets `OsdDirty`; switching off makes one `OsdClose`; nothing else happens; the statics stay valid |
| Osd.SoftOsd.Destroy | softhddevice.cpp:191-194 | the OSD becomes inactive, with one `OsdClose` if and only if it was active |
| Osd.SoftOsd.FlushBitmap | softhddevice.cpp:256-298 | the log grows by exactly the layer's upload (`LayerEvents`) and the bitmap is clean |
| Osd.SoftOsd.FlushedUpTo | softhddevice.cpp:244-301 | the state after i passes of the layer loop: layers 0 to i - 1 clean, the rest still dirty as before, and the log grown by exactly their uploads |
| Osd.SoftOsd.FlushLayer | softhddevice.cpp:248-299 | one pass of the layer loop takes `FlushedUpTo` from i to i + 1: the log grows by layer i's upload and layer i becomes clean; the statics stay valid |
| Osd.SoftOsd.FlushLayers | softhddevice.cpp:244-300 | the log grows by the uploads of all layers in order and every layer is clean; the statics stay valid |
| Osd.SoftOsd.FlushPaletted | softhddevice.cpp:233-302 | the uploads of all layers computed from their dirty boxes and `OsdDirty` before the call; all layers clean; `OsdDirty` cleared |
| Osd.SoftOsd.FlushTrueColor | softhddevice.cpp:306-326 | the log grows by the uploads of the rendered pixmaps in order |
| Osd.SoftOsd.Flush | softhddevice.cpp:214-327 | inactive: no upload, every dirty box and `OsdDirty` unchanged; paletted: as FlushPaletted; true colour: as FlushTrueColor, with bitmaps and `OsdDirty` untouched; in every case the statics stay valid |
| Statics.Globals.constructor | softhddevice.cpp:61-89 | the statics start zeroed, with no player, no `last` format and an empty log (with `OsdDirty` at line 154) |
| Device.SetVideoDisplayFormat | softhddevice.cpp:893-909 | the host handler is always called; the engine is called, `last` updated and `OsdDirty` set only when the format differs from `last`; the engine's format changes exactly when it differed |
| Device.SetVideoDisplayFormatTwice | softhddevice.cpp:893-909 | a second identical call reaches only the host: no second engine event, `OsdDirty` as the first call left it |
| Control.DeletePlayer | softhddevice.cpp:615-619 | deleting the player detaches it exactly when there is one, and clears `Player` (the player's destructor, lines 579-582, detaches it) |
| Control.EndEvents | softhddevice.cpp:615-620 | leaving suspend ends with `Resume`, and detaches a player exactly when one was installed |
| Control.EndSuspend | softhddevice.cpp:615-620 | leaving suspend keeps the statics valid, clears `Player` and leaves the engine resumed (and the destructor's copy at lines 633-638) |
| Control.ResumeEngine | softhddevice.cpp:620 | `Resume()` appends one event and leaves the engine resumed (also lines 638 and 1371) |
| Control.SoftHdControl.constructor | softhddevice.cpp:626-629 | a new player is installed: the plugin counts as suspended |
| Control.EndsSuspend | softhddevice.cpp:614 | the keys that end suspend are Back, Stop and every key that is not modeless; `ProcessKey` is proved against it |
| Control.SoftHdControl.ProcessKey | softhddevice.cpp:612-624 | a non-modeless key, Back or Stop returns osEnd, clears `Player` and resumes once; any other key returns osContinue and changes nothing |
| Control.SoftHdControl.Destroy | softhddevice.cpp:631-639 | the destructor clears `Player`, detaching it if there was one, then resumes |
| Setup.KeyName | softhddevice.cpp:515-557 | the name each key is persisted under; `KeyNameInjective` and `LookupKeyName` are proved about it |
| Setup.LookupField | softhddevice.cpp:1243-1275 | the five `strcmp` tests of one resolution class; `LookupFieldSound` is proved about it |
| Setup.LookupResolution | softhddevice.cpp:1242-1276 | a key found by the resolution loop from class i on is a per-resolution key of class i or later |
| Setup.LookupTail | softhddevice.cpp:1278-1310 | the tests after the loop find only scalar keys |
| Setup.LookupKey | softhddevice.cpp:1224-1311 | every key found is a valid key |
| Setup.LookupFieldSound | softhddevice.cpp:1242-1276 | a field found for class i has exactly the name `"<Resolution[i]>.<Field>"` |
| Setup.LookupResolutionSound | softhddevice.cpp:1242-1276 | the loop finds a key exactly when some class from i on has a field of that name, and the key found has that name |
| Setup.LookupTailSound | softhddevice.cpp:1278-1310 | the tests after the loop find exactly the scalar keys with that name |
| Setup.LookupKeySound | softhddevice.cpp:1224-1311 | the name is recognised exactly when it is the name of some key, and the key found has that name |
| Setup.ResolutionKeyNameInjective | softhddevice.cpp:54-59 | distinct (class, field) pairs give distinct `"%s.%s"` names (names built as at line 1245) |
| Setup.KeyNameInjective | softhddevice.cpp:515-557 | distinct keys are persisted under distinct names |
| Setup.LookupKeyName | softhddevice.cpp:515-557 | SetupParse finds every key under the name Store persists it with (parsed by lines 1230-1310) |
| Setup.ToChar | softhddevice.cpp:61-89 | assigning an int to a signed 8-bit `char` gives a value in [-128, 128) congruent to it modulo 256, the value itself when it fits (the `char` variables at lines 61-62 and 88-89, assigned at 1231) |
| Setup.Atoi | softhddevice.cpp:1231 | C's `atoi`: leading white space, an optional sign, the longest run of digits, 0 without digits; `AtoiIntToString` is proved about it |
| Setup.IntToString | softhddevice.cpp:515-557 | the text `SetupStore` writes for an int value (`%d`): a minus sign for a negative value, then its decimal digits; `AtoiIntToString` is proved about it |
| Setup.AtoiIntToString | softhddevice.cpp:1231 | `atoi` reads back exactly the int that `%d` writes (for the ints persisted at lines 515-557) |
| Setup.InitialConfig | softhddevice.cpp:61-89 | the zeroed statics form a well-formed record |
| Setup.Set | softhddevice.cpp:1230-1310 | assigning key k changes k's variable to the (for `char` variables, narrowed) value, and no other variable |
| Setup.Parse | softhddevice.cpp:1224-1311 | a record SetupParse produces is well formed when the old one was |
| Setup.ParseSound | softhddevice.cpp:1224-1311 | rejects exactly the names that are no key's name; a key's name sets that key's variable to `atoi(value)` (narrowed for `char`) and keeps every other variable |
| Setup.Load | softhddevice.cpp:1224-1311 | offering a setup file's lines to SetupParse in order keeps a well-formed record well formed; unknown names are skipped |
| Setup.LoadEntries | softhddevice.cpp:1224-1311 | loading the lines written for keys ks sets every key in ks to its stored value and leaves every other key unchanged (for lines as persisted at 515-557) |
| Setters.Call | softhddevice.cpp:538-554 | an engine setter changes neither the format nor the suspend state and persists nothing (the same setters as at lines 1240-1300) |
| Setters.SetterOf | softhddevice.cpp:1230-1310 | a key has no setter exactly when its variable is a `char` |
| Setters.SetterEvents | softhddevice.cpp:1230-1310 | after a key SetupParse makes at most one engine call, none for `char` keys; the call carries the key's new value (for per-resolution keys, the whole array of that field; for auto-crop keys, in its own position) |
| Plugin.Assign | softhddevice.cpp:1230-1309 | the key's variable takes `atoi(value)` and the key's setter is called with the new record |
| Plugin.ParseResolution | softhddevice.cpp:1242-1276 | one pass of the loop matches exactly when the name is one of class i's five names, and then sets that field; otherwise nothing changes |
| Plugin.ParseResolutions | softhddevice.cpp:1242-1276 | the loop matches exactly when `LookupResolution` finds a key, and then sets that key; otherwise nothing changes |
| Plugin.SetupParse | softhddevice.cpp:1224-1311 | returns true exactly for a setup key; then the new record is `Parse`'s and the engine gets that key's setter call; false leaves record and log unchanged |
| Plugin.MainMenuEntry | softhddevice.cpp:1156-1161 | no entry when `HideMainMenuEntry` is non-zero, else the suspend entry's text; `MainMenuEntryParsed` and `HideMainMenuEntryWraps` are proved about it |
| Plugin.MainMenuEntryParsed | softhddevice.cpp:1156-1161 | after SetupParse of `HideMainMenuEntry = v` the entry is hidden exactly when the `char` value of `atoi(v)` is non-zero, and otherwise has the suspend entry's text; any other key leaves the entry as it was (parsed at lines 1234-1236) |
| Plugin.HideMainMenuEntryWraps | softhddevice.cpp:1156-1161 | `HideMainMenuEntry = 256` wraps to 0 in the `char` variable, so the entry is shown |
| Plugin.MainThreadHook | softhddevice.cpp:1196-1201 | while the user is inactive the engine gets `Suspend(close, close, x11)` and is suspended, with no player installed; otherwise nothing is called; the statics stay valid |
| Plugin.SuspendEvents | softhddevice.cpp:1359-1362 | entering suspend is launch, attach, then `Suspend(close, close, x11)`, and leaves the engine suspended with its format unchanged; the launch and the attach are modelled as making no engine call (and lines 1172-1174) |
| Plugin.EnterSuspend | softhddevice.cpp:1359-1362 | launches, attaches and suspends; the plugin and the engine are then suspended (and lines 1172-1174) |
| Plugin.MainMenuAction | softhddevice.cpp:1166-1182 | when not suspended: suspend, then mark the user inactive only if an inactivity time is set; when suspended: nothing is called; suspended afterwards |
| Plugin.ResumeEvents | softhddevice.cpp:1364-1373 | the events RESU makes; `ResumeEventsEffect` is proved about it |
| EngineState.ResumeAfter | softhddevice.cpp:1364-1373 | a `Resume` after calls that leave the display format alone leaves the engine resumed with the format it had |
| Plugin.ResumeEventsEffect | softhddevice.cpp:1364-1373 | RESU shuts the control down exactly when suspended, restores the inactivity timeout exactly when one is set, ends with `Resume` and calls it once before exactly when suspended, leaves the engine resumed and keeps its display format |
| Plugin.LowerString | softhddevice.cpp:1354-1364 | a string put in ASCII lower case, character by character; `EqualIgnoringCaseLower` is proved about it |
| Plugin.EqualIgnoringCase | softhddevice.cpp:1354-1364 | `strcasecmp(a, b) == 0`: equal lengths and equal characters up to ASCII case; `EqualIgnoringCaseLower` and `EqualIgnoringCaseEquivalence` are proved about it |
| Plugin.EqualIgnoringCaseLower | softhddevice.cpp:1354-1364 | two commands compare equal ignoring case exactly when their lower-case forms are equal |
| Plugin.EqualIgnoringCaseEquivalence | softhddevice.cpp:1354-1364 | comparing ignoring case is reflexive, symmetric and transitive |
| Plugin.SuspIsNotResu | softhddevice.cpp:1354-1364 | no command matches both SUSP and RESU |
| Plugin.ShutdownControl | softhddevice.cpp:1368-1370 | shutting the control down runs its destructor only when suspended, and the plugin is not suspended afterwards |
| Plugin.ResumeCommand | softhddevice.cpp:1364-1373 | RESU always resumes: the log grows by `ResumeEvents`, `Player` is cleared and the engine resumed |
| Plugin.SvdrpCommand | softhddevice.cpp:1350-1375 | SUSP while suspended replies "already suspended" and calls nothing; SUSP otherwise suspends; RESU resumes; other commands return NULL and change nothing; names compare ignoring case |
| Menu.Stored | softhddevice.cpp:515-557 | after Store every variable holds the menu's value (narrowed for `char` variables), and the record is well formed |
| Menu.PersistedRender | softhddevice.cpp:511-558 | the lines Store persists are exactly the `name = %d` lines of the keys it persists, in order |
| Menu.StoreStepsPersistAll | softhddevice.cpp:515-557 | Store persists every key the parser knows |
| Menu.StoreThenLoad | softhddevice.cpp:515-557 | loading what Store persisted, over any starting record, gives back exactly the stored record (read back by lines 1224-1311) |
| Menu.StoredLineParses | softhddevice.cpp:515-557 | every persisted line names a key, and SetupParse sets that key to the stored value (parsed by lines 1230-1310) |
| Menu.StoreLogSegments | softhddevice.cpp:511-558 | Store's events are those of its six groups of statements, in source order |
| Menu.StoreLog | softhddevice.cpp:511-558 | the events Store makes for a record change neither the engine's format nor its suspend state |
| Menu.RenderQuiet | softhddevice.cpp:511-558 | Store changes neither the format nor the suspend state the engine has |
| Menu.MenuSetupSoft.constructor | softhddevice.cpp:441-503 | the menu starts from the current `Config*` values |
| Menu.MenuSetupSoft.Store | softhddevice.cpp:511-558 | the statics stay valid; the record becomes `Stored(values)`; the log grows by exactly `StoreLog` of the new record |
| Menu.MenuSetupSoft.StoreSegments | softhddevice.cpp:511-558 | the six groups of statements, in order, set the whole record and log their groups' events |
| Menu.MenuSetupSoft.StoreGeneral | softhddevice.cpp:515-520 | MakePrimary, HideMainMenuEntry and SkipLines are assigned and persisted, then the skip-lines setter is called |
| Menu.MenuSetupSoft.StoreResolutions | softhddevice.cpp:522-537 | after the loop the five arrays hold the menu's values and every other variable is unchanged |
| Menu.MenuSetupSoft.StoreClass | softhddevice.cpp:525-536 | entry i of each of the five arrays is assigned and persisted under its `"%s.%s"` name |
| Menu.MenuSetupSoft.ApplyResolutionSetters | softhddevice.cpp:538-542 | the five per-resolution setters get the five arrays |
| Menu.MenuSetupSoft.StoreAudio | softhddevice.cpp:544-547 | audio delay and pass-through are assigned, persisted and handed to the engine |
| Menu.MenuSetupSoft.StoreAutoCrop | softhddevice.cpp:549-554 | the three auto-crop variables are assigned and persisted, then handed to the engine in one call |
| Menu.MenuSetupSoft.StoreSuspend | softhddevice.cpp:556-557 | the two suspend variables are assigned (narrowed to `char`) and persisted |

## Left out

- The forwarding members of `cSoftHdDevice` are left out. These are `SetVolumeDevice`, `GetSTC`, `Poll`, `Flush`, `PlayVideo`, `PlayAudio`, `GrabImage`, `GetVideoSize` and `GetOsdSize`. Each is a plain call into the engine, which is not part of this model.
- `Clear`, `Play`, `Freeze` and `Mute` are left out: each calls the host's `cDevice::X()` and then the engine's `::X()`.
- `TrickSpeed` is left out: it only logs.
- The audio-device hooks `SetAudioTrackDevice`, `SetDigitalAudioDevice` and `SetAudioChannelDevice` are left out: their bodies are empty. `GetAudioChannelDevice` returns 0.
- `PlayTsVideo` and `Housekeeping` are left out: they are compiled out by `#if 0`.
- The constructor and destructor of `cSoftHdDevice` are left out: they do nothing.
- The plugin's lifecycle members are left out. The constructor does nothing. The destructor calls the engine's `SoftHdDeviceExit()`. `Initialize` creates the device (`MyDevice`). `Stop` calls the engine's `::Stop()`.
- The plugin's descriptive members are left out. `Version` and `Description` return constant texts. `CommandLineHelp` returns the engine's help text. `SVDRPHelpPages` returns the SUSP/RESU help. `SetupMenu` returns a new `cMenuSetupSoft`, which `Menu.MenuSetupSoft.constructor` models.
- `HasDecoder` and `CanReplay` are left out: each returns the constant `true` and calls nothing.
- `GetSpuDecoder` is left out: it is compiled out by `#if 0`, and would build the host's `cDvbSpuDecoder`.
- `PlayTsAudio` is left out: it calls the engine's `AudioPoller()` and then hands the data to the host's `cDevice::PlayTsAudio`; it is built only without `USE_AUDIO_THREAD`.
- `cSoftHdDevice::SetPlayMode` is left out. It does nothing for `pmNone`. For the external play mode it calls `Suspend(1, 1, 0)` and does not register a player. For every other mode it calls the engine's `SetPlayMode`, which is not part of this model.
- `cSoftHdDevice::StillPicture` is left out. It hands TS data (first byte 0x47) to the host's `cDevice::StillPicture` and anything else to the engine.
- Plugin.SuspendEvents: `cControl::Attach()` makes the host call `SetPlayMode`, which resumes the engine (the comment at line 1358 says so). The model treats the launch and the attach as making no engine call, because `Suspend` follows at once, so the engine is suspended after SUSP either way.
- `cSoftOsdProvider` (`CreateOsd`, `ProvidesTrueColor`) is left out: it only constructs the OSD and reports a constant.
- Osd.SoftOsd.FlushTrueColor: the pixmaps the host renders under `LOCK_PIXMAPS` come in as a parameter (`rendered`). The cross-thread lock, `RenderPixmaps()` and the deletion of each pixmap after its upload are not modelled.
- The OSD size (`::GetOsdSize`) is a parameter of Flush. Bitmap pixels are immutable sequences, and the OSD's layers (`GetBitmap(i)`) are given to the constructor. Drawing into bitmaps belongs to the host and is not modelled.
- The `USE_YAEPG` video-window code and the `video_aspect`/`pixel_aspect` doubles are left out (conditional build, floating point).
- The widget building of the `cMenuSetupSoft` constructor is left out: the model keeps only the copying of the `Config*` values into the menu's own values. `tr`/`trVDR` translation is left out too, and `MAINMENUENTRY` is kept untranslated.
- `ShutdownHandler` is reduced to `GetUserInactiveTime()` (a parameter of the menu action and of RESU), `IsUserInactive()` (the `userInactive` parameter of `MainThreadHook`), and the `SetUserInactive()`/`SetUserInactiveTimeout()` calls, which are log events.
- The deferred primary-device switch (`DoMakePrimary`, `Start`, the first branch of `MainThreadHook`, `MakePrimaryDevice`) is left out, as is the engine's own `::MainThreadHook()`, and so are `FeedKeyPress`, argument processing, logging and the DEBUG `abort()`.
- `ISMODELESSKEY` belongs to the host: the model carries its verdict as a flag on each key.
- `cControl::Shutdown()` is modelled as the host deleting the suspend control, which runs its destructor. The host's own bookkeeping of the current control is not modelled.
- `cControl::Launch` of a new control while the host still holds an old one is not modelled.
- Setup.Atoi: reads optional leading white space, an optional sign and decimal digits, as C's `atoi` does. It does not model the undefined behaviour of a value outside the range of `int`, and the `int` variables are unbounded integers.
- Setup.ToChar: `char` is taken to be a signed 8-bit type with wrap-around on assignment. C leaves the signedness to the platform.
- Store's `char buf[128]` key buffer is modelled as the string itself: every key name is far shorter than 128 bytes.

## Notes on the code

- The record has 10 scalar variables.
- SetupParse compares key names case-sensitively (`strcmp`), and SVDRPCommand compares commands ignoring case (`strcasecmp`).
- RESU while suspended calls `Resume()` twice: once from the control's destructor, during `cControl::Shutdown()`, and once more directly. `Plugin.ResumeEvents` records both calls.
- SUSP and the main-menu action pass `ConfigSuspendClose` for both the video and the audio argument of `Suspend`, and `ConfigSuspendX11` for X11.
