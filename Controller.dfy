/**
 * One pass of the main polling loop (the body of `loop` in src/main.rs): sample the held keys,
 * read the shared mode, switch mode on I or Escape, and in normal mode nudge the pointer by one
 * pixel per held direction key.
 */
module Controller {
  import opened Types
  import opened Keycodes
  import opened Modes
  import opened XProtocol
  import Keymap
  import XorgDisplay

  /** A relative pointer move, as passed to `move_pointer`. */
  datatype Move = Move(dx: int, dy: int)

  /** What one tick decides: the mode it ends in, the modes it writes, and the moves it makes. */
  datatype TickPlan = TickPlan(mode: Mode, writes: seq<Mode>, moves: seq<Move>)

  /** One pixel along exactly one axis. */
  predicate IsUnitStep(m: Move) {
    (m.dx == 0 && (m.dy == 1 || m.dy == -1)) || (m.dy == 0 && (m.dx == 1 || m.dx == -1))
  }

  /** The moves of normal mode: H left, L right, J by (0, -1), K by (0, 1), each on its own, in that order. */
  function Moves(keys: set<Keycode>): seq<Move> {
    (if H in keys then [Move(-1, 0)] else [])
    + (if L in keys then [Move(1, 0)] else [])
    + (if J in keys then [Move(0, -1)] else [])
    + (if K in keys then [Move(0, 1)] else [])
  }

  /**
   * Each direction key fires on its own: a tick makes the move of every held direction key, and
   * only those, each one pixel along one axis.
   */
  lemma MovesOfKeys(keys: set<Keycode>)
    ensures |Moves(keys)| <= 4
    ensures forall m :: m in Moves(keys) ==> IsUnitStep(m)
    ensures Move(-1, 0) in Moves(keys) <==> H in keys
    ensures Move(1, 0) in Moves(keys) <==> L in keys
    ensures Move(0, -1) in Moves(keys) <==> J in keys
    ensures Move(0, 1) in Moves(keys) <==> K in keys
    ensures Moves(keys) == [] <==> H !in keys && L !in keys && J !in keys && K !in keys
  {
  }

  /** A tick makes no move exactly when no direction key is held. */
  lemma NoMoves(keys: set<Keycode>)
    ensures Moves(keys) == [] <==> H !in keys && L !in keys && J !in keys && K !in keys
  {
  }

  /** The total displacement of a sequence of moves. */
  function Net(moves: seq<Move>): (int, int) {
    if moves == [] then (0, 0)
    else
      var before := Net(moves[..|moves| - 1]);
      (before.0 + moves[|moves| - 1].dx, before.1 + moves[|moves| - 1].dy)
  }

  /** The warps `move_pointer` sends for `moves` made one after the other from (x, y). */
  function Warps(x: int, y: int, moves: seq<Move>): seq<Request> {
    if moves == [] then []
    else Warps(x, y, moves[..|moves| - 1]) + [Warp(x + Net(moves).0, y + Net(moves).1)]
  }

  /**
   * The decision of one tick, given the held keys and the mode read from the store. I switches to
   * insert mode and writes it; Escape, checked afterwards, switches to normal mode and writes it;
   * moves are made only when the tick ends in normal mode.
   */
  function Plan(keys: set<Keycode>, stored: Mode): (plan: TickPlan)
    ensures Keycode.I in keys ==> |plan.writes| > 0 && plan.writes[0] == Insert
    ensures Escape in keys ==> plan.mode == Normal && |plan.writes| > 0 && plan.writes[|plan.writes| - 1] == Normal
    ensures Keycode.I in keys && Escape !in keys ==> plan.mode == Insert && plan.writes == [Insert]
    ensures Keycode.I in keys && Escape in keys ==> plan.writes == [Insert, Normal]
    ensures Keycode.I !in keys && Escape !in keys ==> plan.mode == stored && plan.writes == []
    ensures Keycode.I !in keys && Escape in keys ==> plan.writes == [Normal]
    ensures plan.writes != [] ==> plan.writes[|plan.writes| - 1] == plan.mode
    ensures plan.mode == Insert ==> plan.moves == []
    ensures plan.mode == Normal ==> plan.moves == Moves(keys)
    ensures |plan.moves| <= 4
    ensures forall m :: m in plan.moves ==> IsUnitStep(m)
  {
    var mode := if Escape in keys then Normal else if Keycode.I in keys then Insert else stored;
    TickPlan(
      mode,
      (if Keycode.I in keys then [Insert] else []) + (if Escape in keys then [Normal] else []),
      if mode == Normal then Moves(keys) else [])
  }

  /** The moves made so far, extended by `m` when its key is held. */
  function Extend(done: seq<Move>, held: bool, m: Move): seq<Move> {
    done + (if held then [m] else [])
  }

  /** Extending the moves made so far shifts their displacement by the new move. */
  lemma NetOfExtend(done: seq<Move>, held: bool, m: Move)
    ensures Net(Extend(done, held, m)) == (Net(done).0 + (if held then m.dx else 0), Net(done).1 + (if held then m.dy else 0))
  {
    if held {
      assert Extend(done, held, m)[..|done|] == done;
    } else {
      assert Extend(done, held, m) == done;
    }
  }

  /** Extending the moves made so far adds one warp, to where the new move ends. */
  lemma WarpsOfExtend(x: int, y: int, done: seq<Move>, held: bool, m: Move)
    ensures Warps(x, y, Extend(done, held, m))
      == Warps(x, y, done) + (if held then [Warp(x + Net(done).0 + m.dx, y + Net(done).1 + m.dy)] else [])
  {
    if held {
      assert Extend(done, held, m)[..|done|] == done;
    } else {
      assert Extend(done, held, m) == done;
    }
  }

  /** The moves of a tick are the moves of H, L, J and K, each added when its key is held. */
  lemma MovesByKey(keys: set<Keycode>)
    ensures Moves(keys) == Extend(Extend(Extend(Extend([], H in keys, Move(-1, 0)), L in keys, Move(1, 0)),
                                                J in keys, Move(0, -1)), K in keys, Move(0, 1))
  {
    assert [] + (if H in keys then [Move(-1, 0)] else []) == (if H in keys then [Move(-1, 0)] else []);
  }

  /** The displacement of moves made one after the other adds up. */
  lemma {:induction false} NetOfAppend(a: seq<Move>, b: seq<Move>)
    ensures Net(a + b) == (Net(a).0 + Net(b).0, Net(a).1 + Net(b).1)
  {
    if b == [] {
      assert a + b == a;
    } else {
      assert (a + b)[..|a + b| - 1] == a + b[..|b| - 1];
      NetOfAppend(a, b[..|b| - 1]);
    }
  }

  /**
   * In normal mode the net displacement of a tick is (L - H, K - J), counting each held key as 1:
   * H and L cancel, and so do J and K.
   */
  lemma NetDisplacement(keys: set<Keycode>)
    ensures Net(Moves(keys)) == ((if L in keys then 1 else 0) - (if H in keys then 1 else 0),
                                 (if K in keys then 1 else 0) - (if J in keys then 1 else 0))
    ensures H in keys && L in keys ==> Net(Moves(keys)).0 == 0
    ensures J in keys && K in keys ==> Net(Moves(keys)).1 == 0
  {
    var e1 := Extend([], H in keys, Move(-1, 0));
    var e2 := Extend(e1, L in keys, Move(1, 0));
    var e3 := Extend(e2, J in keys, Move(0, -1));
    MovesByKey(keys);
    NetOfExtend([], H in keys, Move(-1, 0));
    NetOfExtend(e1, L in keys, Move(1, 0));
    NetOfExtend(e2, J in keys, Move(0, -1));
    NetOfExtend(e3, K in keys, Move(0, 1));
  }

  /** The state of the store and the display after the tick made its decision for `plan`. */
  ghost predicate Effected(plan: TickPlan, store: ModeFile, oldContent: Option<string>, oldWritten: seq<Mode>,
                           openDenied: bool)
    reads store
  {
    && store.written == oldWritten + plan.writes
    && store.content == (if plan.writes == [] then ContentAfterRead(oldContent, openDenied)
                         else Some(Serialize(plan.mode)))
  }

  /** The warps of moves made one after the other: the second batch starts where the first ended. */
  lemma {:induction false} WarpsOfAppend(x: int, y: int, a: seq<Move>, b: seq<Move>)
    ensures Warps(x, y, a + b) == Warps(x, y, a) + Warps(x + Net(a).0, y + Net(a).1, b)
  {
    if b == [] {
      assert a + b == a;
    } else {
      var init := b[..|b| - 1];
      assert (a + b)[..|a + b| - 1] == a + init;
      WarpsOfAppend(x, y, a, init);
      NetOfAppend(a, b);
    }
  }

  /** The warps of one tick's moves, written out key by key. */
  lemma WarpsOfMoves(x: int, y: int, keys: set<Keycode>)
    ensures var dx := (if L in keys then 1 else 0) - (if H in keys then 1 else 0);
      Warps(x, y, Moves(keys))
      == (if H in keys then [Warp(x - 1, y)] else [])
       + (if L in keys then [Warp(x + dx, y)] else [])
       + (if J in keys then [Warp(x + dx, y - 1)] else [])
       + (if K in keys then [Warp(x + dx, y + (if J in keys then 0 else 1))] else [])
  {
    var e1 := Extend([], H in keys, Move(-1, 0));
    var e2 := Extend(e1, L in keys, Move(1, 0));
    var e3 := Extend(e2, J in keys, Move(0, -1));
    MovesByKey(keys);
    NetOfExtend([], H in keys, Move(-1, 0));
    NetOfExtend(e1, L in keys, Move(1, 0));
    NetOfExtend(e2, J in keys, Move(0, -1));
    var dx := (if L in keys then 1 else 0) - (if H in keys then 1 else 0);
    var wh: seq<Request> := if H in keys then [Warp(x - 1, y)] else [];
    var wl: seq<Request> := if L in keys then [Warp(x + dx, y)] else [];
    var wj: seq<Request> := if J in keys then [Warp(x + dx, y - 1)] else [];
    var wk: seq<Request> := if K in keys then [Warp(x + dx, y + (if J in keys then 0 else 1))] else [];
    WarpsOfExtend(x, y, [], H in keys, Move(-1, 0));
    assert Warps(x, y, e1) == wh;
    WarpsOfExtend(x, y, e1, L in keys, Move(1, 0));
    assert Warps(x, y, e2) == wh + wl;
    WarpsOfExtend(x, y, e2, J in keys, Move(0, -1));
    assert Warps(x, y, e3) == wh + wl + wj;
    WarpsOfExtend(x, y, e3, K in keys, Move(0, 1));
  }

  /**
   * The mode part of a tick: read the shared mode, then switch to insert mode (and write it) when
   * I is held, then to normal mode (and write it) when Escape is held.
   */
  method SwitchMode(store: ModeFile, keys: set<Keycode>, openDenied: bool) returns (mode: Mode)
    modifies store
    ensures var plan := Plan(keys, ReadMode(old(store.content), openDenied));
      mode == plan.mode && Effected(plan, store, old(store.content), old(store.written), openDenied)
  {
    mode := store.GetCurrentMode(openDenied);
    if Keycode.I in keys {
      mode := Insert;
      store.Write(mode);
    }
    if Escape in keys {
      mode := Normal;
      store.Write(mode);
    }
  }

  /**
   * One `if keys.contains(..) { display.move_pointer(..) }` block of a tick, made after the moves
   * `done` from (x, y): the move `m` is made when its key is `held`, and panics when the server
   * answers the pointer query or the warp with status zero.
   */
  method MoveIfHeld(display: XorgDisplay.Display, held: bool, m: Move, queryStatus: int, warpStatus: int,
                    ghost x: int, ghost y: int, ghost sent: seq<Request>, ghost done: seq<Move>)
    returns (r: Result<(), XorgDisplay.Panic>)
    requires IsUnitStep(m)
    requires held ==> InI32(display.pointerX + m.dx) && InI32(display.pointerY + m.dy)
    requires display.pointerX == x + Net(done).0 && display.pointerY == y + Net(done).1
    requires display.sent == sent + Warps(x, y, done)
    modifies display
    ensures r.Err? <==> held && (queryStatus == 0 || warpStatus == 0)
    ensures r.Ok? ==>
      && display.pointerX == x + Net(Extend(done, held, m)).0
      && display.pointerY == y + Net(Extend(done, held, m)).1
      && display.sent == sent + Warps(x, y, Extend(done, held, m))
  {
    if !held {
      assert Extend(done, held, m) == done;
      return Ok(());
    }
    r := display.MovePointer(m.dx, m.dy, queryStatus, warpStatus);
    assert Extend(done, held, m)[..|done|] == done;
  }

  /**
   * The movement part of a tick in normal mode: one `move_pointer` per held direction key, in the
   * order H, L, J, K. Panics at the first move when the server answers its pointer query or its
   * warp with status zero.
   */
  method Nudge(display: XorgDisplay.Display, keys: set<Keycode>, queryStatus: int, warpStatus: int)
    returns (r: Result<(), XorgDisplay.Panic>)
    requires I32Min < display.pointerX < I32Max && I32Min < display.pointerY < I32Max
    modifies display
    ensures r.Err? <==> Moves(keys) != [] && (queryStatus == 0 || warpStatus == 0)
    ensures r.Ok? ==>
      && display.pointerX == old(display.pointerX) + Net(Moves(keys)).0
      && display.pointerY == old(display.pointerY) + Net(Moves(keys)).1
      && display.sent == old(display.sent) + Warps(old(display.pointerX), old(display.pointerY), Moves(keys))
  {
    ghost var x, y, sent := display.pointerX, display.pointerY, display.sent;
    ghost var done: seq<Move> := [];
    NoMoves(keys);
    assert sent + [] == sent;
    r := MoveIfHeld(display, H in keys, Move(-1, 0), queryStatus, warpStatus, x, y, sent, done);
    if r.Err? {
      return;
    }
    NetOfExtend(done, H in keys, Move(-1, 0));
    done := Extend(done, H in keys, Move(-1, 0));
    r := MoveIfHeld(display, L in keys, Move(1, 0), queryStatus, warpStatus, x, y, sent, done);
    if r.Err? {
      return;
    }
    NetOfExtend(done, L in keys, Move(1, 0));
    done := Extend(done, L in keys, Move(1, 0));
    r := MoveIfHeld(display, J in keys, Move(0, -1), queryStatus, warpStatus, x, y, sent, done);
    if r.Err? {
      return;
    }
    NetOfExtend(done, J in keys, Move(0, -1));
    done := Extend(done, J in keys, Move(0, -1));
    r := MoveIfHeld(display, K in keys, Move(0, 1), queryStatus, warpStatus, x, y, sent, done);
    if r.Err? {
      return;
    }
    MovesByKey(keys);
  }

  /**
   * One tick. Panics (an `Err`) when the key-map query fails, before anything else happens, or at
   * the first pointer move when the server answers a pointer query or a warp with status zero.
   * Otherwise the tick ends in the planned mode, the store holds what was written last, and the
   * pointer has moved by the net displacement, one warp per move.
   */
  method Tick(display: XorgDisplay.Display, store: ModeFile, keymap: Keymap.KeyVector, keymapStatus: int,
              openDenied: bool, queryStatus: int, warpStatus: int)
    returns (r: Result<Mode, XorgDisplay.Panic>)
    requires Keymap.NoReservedBits(keymap)
    requires I32Min < display.pointerX < I32Max && I32Min < display.pointerY < I32Max
    modifies display, store
    ensures keymapStatus == 0 ==>
      (r == Err(XorgDisplay.KeymapQueryFailed) && unchanged(display) && unchanged(store))
    ensures keymapStatus != 0 ==>
      var plan := Plan(Keymap.HeldKeys(keymap), ReadMode(old(store.content), openDenied));
      && Effected(plan, store, old(store.content), old(store.written), openDenied)
      && (r.Err? <==> plan.moves != [] && (queryStatus == 0 || warpStatus == 0))
      && (r.Ok? ==>
            && r.value == plan.mode
            && display.pointerX == old(display.pointerX) + Net(plan.moves).0
            && display.pointerY == old(display.pointerY) + Net(plan.moves).1
            && display.sent == old(display.sent) + Warps(old(display.pointerX), old(display.pointerY), plan.moves))
  {
    var held := display.QueryKeymap(keymap, keymapStatus);
    if held.Err? {
      return Err(held.error);
    }
    var keys := held.value;
    var mode := SwitchMode(store, keys, openDenied);
    if mode == Normal {
      var moved := Nudge(display, keys, queryStatus, warpStatus);
      if moved.Err? {
        return Err(moved.error);
      }
    }
    return Ok(mode);
  }
}
