/**
 * The display connection the main loop uses (`Display` in src/xorg.rs), whose failures are
 * panics: a status of zero from the server aborts the process. A panic is modelled as an `Err`.
 */
module XorgDisplay {
  import opened Types
  import opened Keycodes
  import opened XProtocol
  import Keymap

  /** The panics of src/xorg.rs. */
  datatype Panic = ConnectionFailed | KeymapQueryFailed | PointerQueryFailed | WarpFailed

  class Display {
    /** The pointer position the server reports, in root-window coordinates. */
    var pointerX: i32
    var pointerY: i32
    /** Every request sent on this connection, oldest first. */
    ghost var sent: seq<Request>

    constructor (pointerX: i32, pointerY: i32)
      ensures this.pointerX == pointerX && this.pointerY == pointerY && sent == []
    {
      this.pointerX := pointerX;
      this.pointerY := pointerY;
      sent := [];
    }

    /** Opens the connection; panics exactly when the server cannot be reached. */
    static method New(connected: bool, pointerX: i32, pointerY: i32) returns (r: Result<Display, Panic>)
      ensures !connected ==> r == Err(ConnectionFailed)
      ensures connected ==> (r.Ok? && fresh(r.value) && r.value.sent == []
        && r.value.pointerX == pointerX && r.value.pointerY == pointerY)
    {
      if !connected {
        return Err(ConnectionFailed);
      }
      var display := new Display(pointerX, pointerY);
      return Ok(display);
    }

    /**
     * The keys held according to the key vector the server returns; panics exactly when the
     * query's status is zero.
     */
    method QueryKeymap(keymap: Keymap.KeyVector, status: int) returns (r: Result<set<Keycode>, Panic>)
      requires Keymap.NoReservedBits(keymap)
      ensures r.Err? <==> status == 0
      ensures r.Err? ==> r.error == KeymapQueryFailed
      ensures r.Ok? ==> r.value == Keymap.HeldKeys(keymap)
    {
      if status == 0 {
        return Err(KeymapQueryFailed);
      }
      var keys := Keymap.Decode(keymap);
      return Ok(keys);
    }

    /**
     * Moves the pointer by a relative offset from the position the server reports. Panics before
     * sending anything when the pointer query fails, and after the warp when the warp's status is
     * zero.
     */
    method MovePointer(dx: i32, dy: i32, queryStatus: int, warpStatus: int) returns (r: Result<(), Panic>)
      requires InI32(pointerX + dx) && InI32(pointerY + dy)
      modifies this
      ensures queryStatus == 0 ==> (r == Err(PointerQueryFailed)
        && pointerX == old(pointerX) && pointerY == old(pointerY) && sent == old(sent))
      ensures queryStatus != 0 ==> (r == (if warpStatus == 0 then Err(WarpFailed) else Ok(()))
        && pointerX == old(pointerX) + dx && pointerY == old(pointerY) + dy
        && sent == old(sent) + [Warp(old(pointerX) + dx, old(pointerY) + dy)])
    {
      var rootX, rootY := pointerX, pointerY;
      if queryStatus == 0 {
        return Err(PointerQueryFailed);
      }
      sent := sent + [Warp(rootX + dx, rootY + dy)];
      pointerX, pointerY := rootX + dx, rootY + dy;
      if warpStatus == 0 {
        return Err(WarpFailed);
      }
      return Ok(());
    }
  }
}
