/**
 * The conflict-pending state machine of the synchronisation component. The
 * application state belongs to the parent component and is changed through
 * `onStateChange`; here it is the field `appState`. The watcher that
 * delivers remote states and the dialog rendering are not part of this
 * model; `Date.now()` and the resolution time are parameters.
 */
module SyncManager {
  import opened Types
  import SyncUtils

  /** A pending conflict: the two states captured when it was detected, and when. */
  datatype SyncConflict = SyncConflict(localState: CanvasState, remoteState: CanvasState, timestamp: int)

  const ResolutionError := "충돌 해결 중 오류가 발생했습니다."

  class Manager {
    var appState: CanvasState
    var conflict: Option<SyncConflict>
    var error: Option<string>
    var isSyncing: bool

    constructor (currentState: CanvasState)
      ensures appState == currentState && conflict == None && error == None && !isSyncing
    {
      appState := currentState;
      conflict := None;
      error := None;
      isSyncing := false;
    }

    /**
     * The remote-change handler: a remote state equal to the current one is
     * handed on; a different one leaves the application state alone and
     * records a conflict holding both states.
     */
    method OnRemoteChange(remoteState: CanvasState, now: int)
      modifies this
      ensures !SyncUtils.DetectConflict(old(appState), remoteState) ==>
                appState == remoteState && conflict == old(conflict)
      ensures SyncUtils.DetectConflict(old(appState), remoteState) ==>
                appState == old(appState) && conflict == Some(SyncConflict(old(appState), remoteState, now))
      ensures error == old(error) && !isSyncing
    {
      isSyncing := true;
      var hasConflict := SyncUtils.DetectConflict(appState, remoteState);
      if hasConflict {
        conflict := Some(SyncConflict(appState, remoteState, now));
      } else {
        appState := remoteState;
      }
      isSyncing := false;
    }

    /**
     * `handleConflictResolution`: without a pending conflict nothing
     * happens. Otherwise the strategy is applied to the captured states, not
     * to the current one; success installs the result and clears the
     * conflict, failure sets the error and keeps the conflict.
     */
    method HandleConflictResolution(strategy: string, now: string)
      modifies this
      ensures old(conflict).None? ==>
                appState == old(appState) && conflict == None && error == old(error) && isSyncing == old(isSyncing)
      ensures old(conflict).Some? ==> !isSyncing
      ensures old(conflict).Some? && strategy in {"local", "remote", "merge"} ==>
                conflict == None && error == old(error) &&
                appState == match strategy
                  case "local" => old(conflict).value.localState
                  case "remote" => old(conflict).value.remoteState
                  case _ => SyncUtils.MergedState(old(conflict).value.localState,
                                                  old(conflict).value.remoteState, now)
      ensures old(conflict).Some? && strategy !in {"local", "remote", "merge"} ==>
                conflict == old(conflict) && appState == old(appState) && error == Some(ResolutionError)
    {
      if conflict.None? {
        return;
      }
      isSyncing := true;
      var resolved := SyncUtils.ResolveConflict(conflict.value.localState, conflict.value.remoteState,
                                                strategy, now);
      if resolved.Ok? {
        appState := resolved.value;
        conflict := None;
      } else {
        error := Some(ResolutionError);
      }
      isSyncing := false;
    }

    /** Closing the dialog drops the conflict and nothing else. */
    method CloseDialog()
      modifies this
      ensures conflict == None
      ensures appState == old(appState) && error == old(error) && isSyncing == old(isSyncing)
    {
      conflict := None;
    }

    /** Dismissing the error message clears it and nothing else. */
    method DismissError()
      modifies this
      ensures error == None
      ensures appState == old(appState) && conflict == old(conflict) && isSyncing == old(isSyncing)
    {
      error := None;
    }
  }
}
