/**
 * The display connection the `Input` object drives (`XDisplay` in src/input/xorg.rs). The server
 * is reduced to the pointer position it reports and the requests it has been sent.
 */
module InputXorg {
  import opened Types
  import opened Keycodes
  import opened XProtocol
  import Keymap

  /** The root coordinates of `PointerInfo` (the window-relative ones are not modelled). */
  datatype PointerInfo = PointerInfo(rootX: i32, rootY: i32)

  /** The screen size `get_window_info` reports. */
  datatype WindowInfo = WindowInfo(width: i32, height: i32)

  /** The `Bool` `test_fake_button` hands to XTest: `True` for a press, `False` for a release. */
  function PressFlag(isPress: bool): (press: int)
    ensures press == XTrue <==> isPress
    ensures press == XTrue || press == XFalse
  {
    if isPress then XTrue else XFalse
  }

  class XDisplay {
    /** The pointer position the server reports, in root-window coordinates. */
    var pointerX: i32
    var pointerY: i32
    /** Every request sent on this connection, oldest first. */
    ghost var sent: seq<Request>

    constructor (pointerX: i32, pointerY: i32)
      ensures this.pointerX == pointerX && this.pointerY == pointerY && sent == []
    {
      this.pointerX := pointerX;
      this.pointerY := pointerY;
      sent := [];
    }

    /** Opens the connection; fails exactly when the server cannot be reached. */
    static method New(connected: bool, pointerX: i32, pointerY: i32) returns (r: Result<XDisplay, XError>)
      ensures !connected ==> r == Err(DisplayConnectionError)
      ensures connected ==> (r.Ok? && fresh(r.value) && r.value.sent == []
        && r.value.pointerX == pointerX && r.value.pointerY == pointerY)
    {
      if !connected {
        return Err(DisplayConnectionError);
      }
      var display := new XDisplay(pointerX, pointerY);
      return Ok(display);
    }

    method GrabKeyboard()
      modifies this`sent
      ensures sent == old(sent) + [Grab]
    {
      sent := sent + [Grab];
    }

    method UngrabKeyboard()
      modifies this`sent
      ensures sent == old(sent) + [Ungrab]
    {
      sent := sent + [Ungrab];
    }

    /** Synthesises a press or a release of `button`, forwarding the button and the delay unchanged. */
    method TestFakeButton(button: u32, isPress: bool, delay: u64)
      modifies this`sent
      ensures sent == old(sent) + [FakeButton(button, PressFlag(isPress), delay)]
    {
      var press := XTrue;
      if !isPress {
        press := XFalse;
      }
      sent := sent + [FakeButton(button, press, delay)];
    }

    /** Moves the pointer to the absolute position given, wherever it was before. */
    method WarpPointer(x: i32, y: i32)
      modifies this
      ensures pointerX == x && pointerY == y
      ensures sent == old(sent) + [Warp(x, y)]
    {
      // the position `warp_pointer` queries first; XWarpPointer is given it as the source corner
      var from := QueryPointer();
      sent := sent + [Warp(x, y)];
      pointerX, pointerY := x, y;
    }

    /** The keys held according to the key vector the server returns. */
    method QueryKeymap(keymap: Keymap.KeyVector) returns (keys: set<Keycode>)
      requires Keymap.NoReservedBits(keymap)
      ensures keys == Keymap.HeldKeys(keymap)
    {
      keys := Keymap.Decode(keymap);
    }

    method QueryPointer() returns (info: PointerInfo)
      ensures info == PointerInfo(pointerX, pointerY)
    {
      info := PointerInfo(pointerX, pointerY);
    }
  }
}
