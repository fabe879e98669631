/**
 * The `Input` object of src/input/mod.rs: a queue of pending actions, changed in place, and the
 * pointer position it keeps, which `update` clamps to the screen and warps to.
 */
module Input {
  import opened Types
  import opened Keycodes
  import opened XProtocol
  import opened InputXorg
  import Keymap

  datatype InputAction = NoAction | ClickMouse | ScrollMouse | FreezeKeyboard | UnfreezeKeyboard

  /** The requests `handle_action` sends for one action. */
  function Effects(action: InputAction): (effects: seq<Request>)
    ensures action == ClickMouse ==> effects == [FakeButton(Button1, XTrue, 10), FakeButton(Button1, XFalse, 10)]
    ensures action == FreezeKeyboard ==> effects == [Grab]
    ensures action == UnfreezeKeyboard ==> effects == [Ungrab]
    ensures effects == [] <==> action == NoAction || action == ScrollMouse
  {
    match action
    case ClickMouse => [FakeButton(Button1, PressFlag(true), 10), FakeButton(Button1, PressFlag(false), 10)]
    case FreezeKeyboard => [Grab]
    case UnfreezeKeyboard => [Ungrab]
    case NoAction => []
    case ScrollMouse => []
  }

  /** The requests sent by handling `actions` one after the other. */
  function EffectsOf(actions: seq<InputAction>): seq<Request> {
    if actions == [] then [] else EffectsOf(actions[..|actions| - 1]) + Effects(actions[|actions| - 1])
  }

  /** Handling one more action sends its requests after those already sent. */
  lemma EffectsOfSnoc(actions: seq<InputAction>, action: InputAction)
    ensures EffectsOf(actions + [action]) == EffectsOf(actions) + Effects(action)
  {
    assert (actions + [action])[..|actions|] == actions;
  }

  /** `block` sent `n` times over. */
  function Repeat(block: seq<Request>, n: nat): seq<Request> {
    if n == 0 then [] else Repeat(block, n - 1) + block
  }

  /**
   * The actions `update` hands to `handle_action`, in order. Each turn of its loop handles the
   * queue's LAST element and then removes its FIRST, so every turn handles the element that was
   * last on entry: the oldest queued action, once per queued element.
   */
  function DrainOrder(queue: seq<InputAction>): (handled: seq<InputAction>)
    ensures |handled| == |queue|
    ensures forall i :: 0 <= i < |handled| ==> handled[i] == queue[|queue| - 1]
  {
    if queue == [] then [] else [queue[|queue| - 1]] + DrainOrder(queue[1..])
  }

  /** Handling the same action `n` times sends its requests `n` times over. */
  lemma {:induction false} EffectsOfRepeated(actions: seq<InputAction>, action: InputAction)
    requires forall i :: 0 <= i < |actions| ==> actions[i] == action
    ensures EffectsOf(actions) == Repeat(Effects(action), |actions|)
  {
    if actions != [] {
      EffectsOfRepeated(actions[..|actions| - 1], action);
    }
  }

  /** Draining a non-empty queue sends the oldest action's requests once per queued element. */
  lemma DrainSendsOldest(queue: seq<InputAction>)
    requires queue != []
    ensures EffectsOf(DrainOrder(queue)) == Repeat(Effects(queue[|queue| - 1]), |queue|)
  {
    EffectsOfRepeated(DrainOrder(queue), queue[|queue| - 1]);
  }

  /** An action that differs from the oldest one is never handled. */
  lemma NewerActionsDropped(queue: seq<InputAction>, i: int)
    requires 0 <= i < |queue| && queue[i] != queue[|queue| - 1]
    ensures queue[i] !in DrainOrder(queue)
  {
  }

  /**
   * The drain is not first-in first-out: queueing FreezeKeyboard and then ClickMouse (the queue is
   * [ClickMouse, FreezeKeyboard], since `queue_action` inserts at the front) grabs the keyboard
   * twice and never clicks.
   */
  lemma DrainIsNotFifo()
    ensures DrainOrder([ClickMouse, FreezeKeyboard]) == [FreezeKeyboard, FreezeKeyboard]
    ensures DrainOrder([ClickMouse, FreezeKeyboard]) != [FreezeKeyboard, ClickMouse]
    ensures EffectsOf(DrainOrder([ClickMouse, FreezeKeyboard])) == [Grab, Grab]
  {
    assert DrainOrder([ClickMouse, FreezeKeyboard])[1] == FreezeKeyboard;
  }

  /**
   * The position `update` warps to: a single `else if` chain that tests x above the width, x below
   * zero, y above the height and y below zero, and corrects only the first violation it finds.
   */
  function ClampOnce(x: int, y: int, width: int, height: int): (p: (int, int))
    ensures p.0 == x || p.1 == y
    ensures p == (x, y) <==> 0 <= x <= width && 0 <= y <= height
    ensures 0 <= x <= width ==> p.0 == x && (0 <= height ==> 0 <= p.1 <= height)
    ensures !(0 <= x <= width) ==> p.1 == y && (0 <= width ==> 0 <= p.0 <= width)
    ensures p.0 != x ==> p.0 == (if x > width then width else 0)
    ensures p.1 != y ==> p.1 == (if y > height then height else 0)
  {
    if x > width then (width, y)
    else if x < 0 then (0, y)
    else if y > height then (x, height)
    else if y < 0 then (x, 0)
    else (x, y)
  }

  /**
   * A position off the screen on both axes keeps its y violation after one clamp, but a second
   * clamp (the next `update` without movement) puts it on the screen.
   */
  lemma ClampTwiceOnScreen(x: int, y: int, width: int, height: int)
    requires 0 <= width && 0 <= height
    ensures var p := ClampOnce(x, y, width, height);
      var q := ClampOnce(p.0, p.1, width, height);
      0 <= q.0 <= width && 0 <= q.1 <= height
  {
  }

  class Input {
    const display: XDisplay
    var mouseX: i32
    var mouseY: i32
    /** Pending actions, newest first. */
    var actionQueue: seq<InputAction>

    constructor (display: XDisplay, mouseX: i32, mouseY: i32)
      ensures this.display == display && this.mouseX == mouseX && this.mouseY == mouseY
      ensures actionQueue == []
    {
      this.display := display;
      this.mouseX := mouseX;
      this.mouseY := mouseY;
      actionQueue := [];
    }

    /**
     * Opens the display and starts at the pointer position the server reports, with an empty
     * queue; fails when the display cannot be opened.
     */
    static method New(connected: bool, pointerX: i32, pointerY: i32) returns (r: Result<Input, XError>)
      ensures !connected ==> r == Err(DisplayConnectionError)
      ensures connected ==> (r.Ok? && fresh(r.value) && fresh(r.value.display)
        && r.value.actionQueue == [] && r.value.mouseX == pointerX && r.value.mouseY == pointerY
        && r.value.display.sent == [])
    {
      var connection := XDisplay.New(connected, pointerX, pointerY);
      if connection.Err? {
        return Err(connection.error);
      }
      var display := connection.value;
      var first := display.QueryPointer();
      var second := display.QueryPointer();
      var input := new Input(display, first.rootX, second.rootY);
      return Ok(input);
    }

    /** Puts an action at the front of the queue. */
    method QueueAction(action: InputAction)
      modifies this`actionQueue
      ensures actionQueue == [action] + old(actionQueue)
      ensures |actionQueue| == |old(actionQueue)| + 1 && actionQueue[1..] == old(actionQueue)
    {
      actionQueue := [action] + actionQueue;
    }

    /** The keys held according to the key vector the server returns. */
    method GetKeys(keymap: Keymap.KeyVector) returns (keys: set<Keycode>)
      requires Keymap.NoReservedBits(keymap)
      ensures keys == Keymap.HeldKeys(keymap)
    {
      keys := display.QueryKeymap(keymap);
    }

    /**
     * Sends an action's requests: a Button1 press then release, 10 ms apart, for ClickMouse; a
     * keyboard grab for FreezeKeyboard; an ungrab for UnfreezeKeyboard; nothing otherwise.
     */
    method HandleAction(action: InputAction)
      modifies display`sent
      ensures display.sent == old(display.sent) + Effects(action)
      ensures action == ClickMouse ==>
        display.sent == old(display.sent) + [FakeButton(Button1, XTrue, 10), FakeButton(Button1, XFalse, 10)]
      ensures action == FreezeKeyboard ==> display.sent == old(display.sent) + [Grab]
      ensures action == UnfreezeKeyboard ==> display.sent == old(display.sent) + [Ungrab]
      ensures action == NoAction || action == ScrollMouse ==> display.sent == old(display.sent)
    {
      match action {
        case ClickMouse =>
          display.TestFakeButton(Button1, true, 10);
          display.TestFakeButton(Button1, false, 10);
        case FreezeKeyboard =>
          display.GrabKeyboard();
        case UnfreezeKeyboard =>
          display.UngrabKeyboard();
        case _ =>
      }
    }

    /**
     * The loop at the head of `update`: as many turns as there are queued actions, each handling
     * the queue's last element and then removing its first.
     */
    method DrainQueue()
      modifies this`actionQueue, display`sent
      ensures actionQueue == []
      ensures display.sent == old(display.sent) + EffectsOf(DrainOrder(old(actionQueue)))
    {
      ghost var queue := actionQueue;
      ghost var sent := display.sent;
      ghost var handled: seq<InputAction> := [];
      var n := |actionQueue|;
      for i := 0 to n
        invariant actionQueue == queue[i..]
        invariant handled == DrainOrder(queue)[..i]
        invariant display.sent == sent + EffectsOf(handled)
      {
        var action := if actionQueue != [] then actionQueue[|actionQueue| - 1] else NoAction;
        HandleAction(action);
        actionQueue := actionQueue[1..];
        EffectsOfSnoc(handled, action);
        assert sent + EffectsOf(handled + [action]) == sent + EffectsOf(handled) + Effects(action);
        handled := handled + [action];
      }
      assert DrainOrder(queue)[..n] == DrainOrder(queue);
    }

    /**
     * Drains the queue (handling the oldest action once per queued element), clamps the position
     * to the screen with one `else if` chain, and warps the pointer there as the last request.
     */
    method Update(window: WindowInfo)
      modifies this, display
      ensures actionQueue == []
      ensures (mouseX, mouseY) == ClampOnce(old(mouseX), old(mouseY), window.width, window.height)
      ensures display.sent
           == old(display.sent) + EffectsOf(DrainOrder(old(actionQueue))) + [Warp(mouseX, mouseY)]
      ensures display.pointerX == mouseX && display.pointerY == mouseY
    {
      DrainQueue();

      if mouseX > window.width {
        mouseX := window.width;
      } else if mouseX < 0 {
        mouseX := 0;
      } else if mouseY > window.height {
        mouseY := window.height;
      } else if mouseY < 0 {
        mouseY := 0;
      }
      display.WarpPointer(mouseX, mouseY);
    }
  }
}
