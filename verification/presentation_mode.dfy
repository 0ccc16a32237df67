/**
  Entering and leaving presentation mode (src/context/content/presentationMode.ts; the store's
  own copy is src/context/ContentContext.tsx:307-326). The browser's fullscreen API is outside
  the model: the operations say which fullscreen request they issue, and a rejected request
  only logs a warning, so its outcome changes no state.
 */
module PresentationMode {
  import opened Common

  /** The three pieces of store state the two operations touch. */
  datatype ModeFlags = ModeFlags(isPresentationMode: bool, editMode: bool, focusedContentId: Option<Id>)

  /** The fullscreen call an operation makes, if any. */
  datatype FullscreenRequest = RequestFullscreen | ExitFullscreen | NoRequest

  /** `enterPresentationMode()`: presenting, out of edit mode, nothing focused; fullscreen is requested. */
  function Enter(m: ModeFlags): (r: (ModeFlags, FullscreenRequest))
    ensures r.0.isPresentationMode && !r.0.editMode && r.0.focusedContentId.None?
    ensures r.1 == RequestFullscreen
  {
    (ModeFlags(true, false, None), RequestFullscreen)
  }

  /**
    `exitPresentationMode()`: no longer presenting; edit mode and focus are left as they are.
    Leaving fullscreen is requested only when an element is fullscreen.
   */
  function Exit(m: ModeFlags, fullscreenActive: bool): (r: (ModeFlags, FullscreenRequest))
    ensures !r.0.isPresentationMode
    ensures r.0.editMode == m.editMode && r.0.focusedContentId == m.focusedContentId
    ensures r.1 == ExitFullscreen <==> fullscreenActive
    ensures r.1 != RequestFullscreen
  {
    (m.(isPresentationMode := false), if fullscreenActive then ExitFullscreen else NoRequest)
  }

  /**
    A round trip through presentation mode ends in preview mode with nothing focused; pressing
    either button a second time changes nothing more.
   */
  lemma EnterThenExit(m: ModeFlags, fullscreenActive: bool, again: bool)
    ensures Exit(Enter(m).0, fullscreenActive).0 == ModeFlags(false, false, None)
    ensures Enter(Enter(m).0).0 == Enter(m).0
    ensures Exit(Exit(m, fullscreenActive).0, again).0 == Exit(m, fullscreenActive).0
  {
  }
}
