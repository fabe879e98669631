/**
 * What the model keeps of the X server: the requests a display connection sends it and the
 * error values the display wrappers return. Xlib itself is not part of this model.
 */
module XProtocol {
  import opened Types

  /** xlib's `Button1`. */
  const Button1: u32 := 1
  /** xlib's `True` and `False`, as passed in a C `Bool`. */
  const XTrue: int := 1
  const XFalse: int := 0

  /**
   * Errors of the display wrappers (src/xorg/error.rs; the enum in src/input/xorg.rs has only
   * the first variant).
   */
  datatype XError = DisplayConnectionError | WireProtocolFailed

  /** A request that changes what the server or the user sees, in the order it is sent. */
  datatype Request =
    | Grab                                            // XGrabKeyboard on the root window
    | Ungrab                                          // XUngrabKeyboard
    | FakeButton(button: u32, press: int, delay: u64) // XTestFakeButtonEvent
    | SendButtonPress(button: u32, xRoot: i32, yRoot: i32) // XSendEvent of a ButtonPress
    | Warp(x: int, y: int)                            // XWarpPointer to an absolute root position
}
