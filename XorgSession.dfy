/**
 * The display connection of src/xorg/mod.rs (`XDisplay` with its `XError` results). The server is
 * reduced to the pointer position it reports and the requests it has been sent.
 */
module XorgSession {
  import opened Types
  import opened Keycodes
  import opened XProtocol
  import Keymap

  /** The root coordinates of `PointerInfo` (the window-relative ones are not modelled). */
  datatype PointerInfo = PointerInfo(rootX: i32, rootY: i32)

  /** What `click_mouse` returns for the status of its XSendEvent: a zero status is a failure. */
  function ClickResult(status: int): (r: Result<(), XError>)
    ensures r.Err? <==> status == 0
    ensures r.Err? ==> r.error == WireProtocolFailed
  {
    if status == 0 then Err(WireProtocolFailed) else Ok(())
  }

  class XDisplay {
    /** The pointer position the server reports, in root-window coordinates. */
    var pointerX: i32
    var pointerY: i32
    /** Every request sent on this connection, oldest first. */
    ghost var sent: seq<Request>

    constructor (pointerX: i32, pointerY: i32)
      ensures this.pointerX == pointerX && this.pointerY == pointerY && sent == []
    {
      this.pointerX := pointerX;
      this.pointerY := pointerY;
      sent := [];
    }

    /** Opens the connection; fails exactly when the server cannot be reached. */
    static method New(connected: bool, pointerX: i32, pointerY: i32) returns (r: Result<XDisplay, XError>)
      ensures !connected ==> r == Err(DisplayConnectionError)
      ensures connected ==> (r.Ok? && fresh(r.value) && r.value.sent == []
        && r.value.pointerX == pointerX && r.value.pointerY == pointerY)
    {
      if !connected {
        return Err(DisplayConnectionError);
      }
      var display := new XDisplay(pointerX, pointerY);
      return Ok(display);
    }

    /** Moves the pointer by a relative offset from the position the server reports. */
    method MovePointer(dx: i32, dy: i32)
      requires InI32(pointerX + dx) && InI32(pointerY + dy)
      modifies this
      ensures pointerX == old(pointerX) + dx && pointerY == old(pointerY) + dy
      ensures sent == old(sent) + [Warp(old(pointerX) + dx, old(pointerY) + dy)]
    {
      var info := QueryPointer();
      WarpPointer(info.rootX + dx, info.rootY + dy);
    }

    method GrabKeyboard()
      modifies this`sent
      ensures sent == old(sent) + [Grab]
    {
      sent := sent + [Grab];
    }

    method UngrabKeyboard()
      modifies this`sent
      ensures sent == old(sent) + [Ungrab]
    {
      sent := sent + [Ungrab];
    }

    /**
     * Sends a Button1 press event at the current pointer position; the result reports whether the
     * server accepted the event.
     */
    method ClickMouse(status: int) returns (r: Result<(), XError>)
      modifies this`sent
      ensures r == ClickResult(status)
      ensures r.Err? <==> status == 0
      ensures sent == old(sent) + [SendButtonPress(Button1, pointerX, pointerY)]
    {
      var info := QueryPointer();
      sent := sent + [SendButtonPress(Button1, info.rootX, info.rootY)];
      if status == 0 {
        return Err(WireProtocolFailed);
      }
      return Ok(());
    }

    /** Moves the pointer to the absolute position given, wherever it was before. */
    method WarpPointer(x: i32, y: i32)
      modifies this
      ensures pointerX == x && pointerY == y
      ensures sent == old(sent) + [Warp(x, y)]
    {
      // the position `warp_pointer` queries first; XWarpPointer is given it as the source corner
      var from := QueryPointer();
      sent := sent + [Warp(x, y)];
      pointerX, pointerY := x, y;
    }

    /** The keys held according to the key vector the server returns. */
    method QueryKeymap(keymap: Keymap.KeyVector) returns (keys: set<Keycode>)
      requires Keymap.NoReservedBits(keymap)
      ensures keys == Keymap.HeldKeys(keymap)
    {
      keys := Keymap.Decode(keymap);
    }

    method QueryPointer() returns (info: PointerInfo)
      ensures info == PointerInfo(pointerX, pointerY)
    {
      info := PointerInfo(pointerX, pointerY);
    }
  }
}
