/**
 * The dummy player and control the plugin installs while suspended
 * (`cSoftHdPlayer`, `cSoftHdControl`). The static `cSoftHdControl::Player`
 * is the flag `Globals.suspended`.
 */
module Control {
  import opened Engine
  import opened EngineState
  import opened Statics

  /**
   * A remote key as ProcessKey sees it: `kBack`, `kStop`, or another key,
   * with the host's verdict `ISMODELESSKEY` on it.
   */
  datatype RemoteKey = Back | Stop | OtherKey(code: int, modeless: bool)

  /** The host's `eOSState` values ProcessKey returns. */
  datatype OsState = OsContinue | OsEnd

  /** A key that ends suspend mode: any key with a mode, or Back or Stop. */
  predicate EndsSuspend(key: RemoteKey) {
    !key.OtherKey? || !key.modeless
  }

  /** `delete Player; Player = NULL`: the player's destructor detaches it. */
  method DeletePlayer(g: Globals)
    modifies g`suspended, g`log
    ensures !g.suspended
    ensures g.log == old(g.log) + (if old(g.suspended) then [PlayerDetach] else [])
  {
    if g.suspended {
      g.log := g.log + [PlayerDetach];
      g.suspended := false;
    }
  }

  /** The events of DeletePlayer followed by `Resume()`. */
  function EndEvents(wasSuspended: bool): (r: seq<Event>)
    ensures |r| > 0 && r[|r| - 1] == Resume && Quiet(r[..|r| - 1])
    ensures (PlayerDetach in r) == wasSuspended
  {
    (if wasSuspended then [PlayerDetach] else []) + [Resume]
  }

  /**
   * Leaving suspend mode, as both ProcessKey and the destructor do it: the
   * player is deleted and the engine resumed, which keeps the statics valid.
   */
  method EndSuspend(g: Globals)
    requires g.config.WellFormed() && g.lastFormat == EngineFormat(g.log)
    modifies g`suspended, g`log
    ensures g.Valid() && !g.suspended && !EngineSuspended(g.log)
    ensures g.log == old(g.log) + EndEvents(old(g.suspended))
  {
    DeletePlayer(g);
    ghost var detached := g.log;
    QuietAppend(old(g.log), detached[|old(g.log)|..]);
    assert detached == old(g.log) + detached[|old(g.log)|..];
    ResumeEngine(g);
  }

  /** `Resume()`: the engine is resumed; with no player installed the statics stay valid. */
  method ResumeEngine(g: Globals)
    requires g.config.WellFormed() && g.lastFormat == EngineFormat(g.log) && !g.suspended
    modifies g`log
    ensures g.Valid() && !EngineSuspended(g.log)
    ensures g.log == old(g.log) + [Resume]
  {
    LastOfStep(g.log, Resume, FormatOf);
    LastOfStep(g.log, Resume, SuspendOf);
    g.log := g.log + [Resume];
  }

  class SoftHdControl {
    /** `cSoftHdControl()`: a new player is installed; the plugin counts as suspended. */
    constructor (g: Globals)
      modifies g`suspended
      ensures g.suspended
    {
      new;
      g.suspended := true;
    }

    /**
     * `ProcessKey(key)`: a key that ends suspend mode deletes the player,
     * resumes the engine and ends the control; any other key changes nothing.
     */
    method ProcessKey(g: Globals, key: RemoteKey) returns (state: OsState)
      requires g.Valid()
      modifies g`suspended, g`log
      ensures g.Valid()
      ensures state == (if EndsSuspend(key) then OsEnd else OsContinue)
      ensures EndsSuspend(key) ==> !g.suspended && !EngineSuspended(g.log) && g.log == old(g.log) + EndEvents(old(g.suspended))
      ensures !EndsSuspend(key) ==> g.suspended == old(g.suspended) && g.log == old(g.log)
    {
      if EndsSuspend(key) {
        EndSuspend(g);
        return OsEnd;
      }
      return OsContinue;
    }

    /** `~cSoftHdControl()`: deletes the player if there is one, then resumes the engine. */
    method Destroy(g: Globals)
      requires g.config.WellFormed() && g.lastFormat == EngineFormat(g.log)
      modifies g`suspended, g`log
      ensures g.Valid() && !g.suspended && !EngineSuspended(g.log)
      ensures g.log == old(g.log) + EndEvents(old(g.suspended))
    {
      EndSuspend(g);
    }
  }
}
