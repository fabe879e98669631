# vim-global: a verified model of the modal keyboard-to-mouse controller

vim-global lets the keyboard drive the X11 mouse pointer in two modes, as a modal editor does:
in NORMAL mode H, L, J and K move the pointer one pixel per tick; in INSERT mode keys go to the
applications. This project models the sequential logic of that tool in Dafny and proves what it does:

- **Key translation** (`Keycodes`): `Keycode::from_kernel_code`, the total map from a `u8` kernel
  scan code to a portable key, with its two alias pairs (left/right Control, left/right Shift) and
  the `Unknown` fallback.
- **Mode store** (`Modes`): the two-valued mode and the file `/tmp/vim_global_mode_current` that
  shares it between processes, abstracted to its content (`None` while the file does not exist).
  `get_current_mode` and `write` are methods of a class whose content field they update.
- **Key-map decoding** (`Keymap`): the nested loop that turns the 32-byte vector of XQueryKeymap
  into a set of held keys. It is written once and shared by the three display wrappers, which
  carry identical copies of it.
- **Display wrappers** (`InputXorg`, `XorgSession`, `XorgDisplay`): the three X11 connection types.
  The X server is reduced to the pointer position it reports, which a warp sets and a query
  returns, and to a ghost trace `sent` of the requests it receives (`XProtocol.Request`). Status
  codes the server returns are method parameters.
- **The `Input` object** (`Input`): the action queue, changed in place, and the pointer position
  that `update` clamps to the screen and warps to.
- **One tick of the main loop** (`Controller`): sample the keys, read the mode, switch mode on I
  or Escape, and in NORMAL mode make one relative move per held direction key. `Plan` states the
  decision of a tick as a value; `Tick` is the imperative loop body, proved against `Plan`.

A panic of the source (`assert_ne!` on a status, `panic!` on a failed connection) is modelled as
an `Err` result that stops the operation at the point where the source would abort.

## Behaviour worth knowing

- `queue_action` inserts at the front, and each turn of `update`'s loop handles the LAST element
  and then removes the FIRST. So every turn handles the element that was last on entry, the oldest
  queued action: it is handled once per queued element, and every other queued action is dropped
  (`Input.DrainOrder`, `Input.DrainIsNotFifo`).
- In NORMAL mode H moves the pointer by (-1, 0), L by (1, 0), J by (0, -1) and K by (0, 1).
- The clamp in `update` is one `else if` chain, so at most one coordinate is corrected per
  `update` (`Input.ClampOnce`). A second `update` puts a point that is off both axes on the screen
  (`Input.ClampTwiceOnScreen`).
- A failure to open the mode file for any reason other than its absence is not an error: the read
  returns NORMAL and leaves the file alone.

## Model

| member | source | states |
|---|---|---|
| Keycodes.FromKernelCode | src/lib.rs:81-155 | total on `u8`; the key is not `Unknown` exactly when the code is 1 to 70, 97 or 125 |
| Keycodes.KernelCode | src/lib.rs:6-78 | every key other than `Unknown` has a kernel code that translates back to it |
| Keycodes.KernelCodeOfTranslation | src/lib.rs:83-152 | translating a named code and taking the key's lowest code gives back the code, with 97 folded onto 29 and 54 onto 42 |
| Keycodes.OnlyAliasesCollide | src/lib.rs:128-132 | two distinct codes translate to the same known key only when they are {29, 97} or {42, 54} |
| Keycodes.AliasPairs | src/lib.rs:128-132 | 29 and 97 both give Control; 42 and 54 both give Shift |
| Keycodes.ControllerKeys | src/lib.rs:84-117 | codes 2 to 10 give Key1 to Key9 and 11 gives Key0; 1, 23, 35, 36, 37 and 38 give Escape, I, H, J, K and L |
| Modes.Parse | src/lib.rs:176-179 | a read gives INSERT exactly for the text "INSERT" and NORMAL for any other text |
| Modes.Serialize | src/lib.rs:190-196 | INSERT is written as "INSERT" and NORMAL as "NORMAL", and parsing the text gives the mode back |
| Modes.ReadMode | src/lib.rs:167-188 | a read gives INSERT exactly when the file opens and holds exactly "INSERT"; anything else, "" and "NORMAL" included, gives NORMAL |
| Modes.ContentAfterRead | src/lib.rs:180-187 | a read creates a missing file with empty content and leaves an existing file, or one it cannot open, unchanged |
| Modes.ReadAfterWrite | src/lib.rs:176-200 | reading the file just written gives the mode written and does not change the file |
| Modes.ReadIsStable | src/lib.rs:167-188 | a second read gives the same mode and leaves the file as the first read did |
| Modes.ModeFile.GetCurrentMode | src/lib.rs:167-188 | returns INSERT exactly for an openable file holding "INSERT"; a missing file is created empty and read as NORMAL |
| Modes.ModeFile.Write | src/lib.rs:190-201 | the file holds the mode's text afterwards, whatever it held before, and a read gives the mode back |
| Keymap.Decode | src/input/xorg.rs:118-128 | the nested loop collects exactly the keys of the set bits, `from_kernel_code(ix * 8 + bit - 8)`, given no bit in byte 0 |
| Keymap.HeldKeysMembers | src/input/xorg.rs:118-128 | a key is reported exactly when some set bit's kernel code translates to it |
| Keymap.NothingHeld | src/input/xorg.rs:109-131 | an all-zero key vector reports no key |
| Keymap.BothControlsCollapse | src/input/xorg.rs:118-128 | left and right Control held together are reported as the single key Control |
| InputXorg.PressFlag | src/input/xorg.rs:63-67 | the flag is True exactly for a press and False otherwise |
| InputXorg.XDisplay.New | src/input/xorg.rs:26-37 | fails with DisplayConnectionError exactly when the server cannot be reached |
| InputXorg.XDisplay.GrabKeyboard | src/input/xorg.rs:42-54 | sends one keyboard grab |
| InputXorg.XDisplay.UngrabKeyboard | src/input/xorg.rs:56-61 | sends one keyboard ungrab |
| InputXorg.XDisplay.TestFakeButton | src/input/xorg.rs:63-72 | sends one fake button event with the button and delay unchanged and the press flag of `is_press` |
| InputXorg.XDisplay.WarpPointer | src/input/xorg.rs:83-106 | the pointer ends at the absolute position given, whatever it was, and one warp is sent |
| InputXorg.XDisplay.QueryKeymap | src/input/xorg.rs:108-132 | the result is the set of keys the key vector reports |
| InputXorg.XDisplay.QueryPointer | src/input/xorg.rs:134-164 | returns the pointer's root position |
| XorgSession.ClickResult | src/xorg/mod.rs:99-113 | `Err(WireProtocolFailed)` exactly when the send status is 0, `Ok(())` otherwise |
| XorgSession.XDisplay.New | src/xorg/mod.rs:22-33 | fails with DisplayConnectionError exactly when the server cannot be reached |
| XorgSession.XDisplay.MovePointer | src/xorg/mod.rs:35-42 | the pointer moves by (dx, dy) from the queried position, with one warp to that target |
| XorgSession.XDisplay.GrabKeyboard | src/xorg/mod.rs:47-59 | sends one keyboard grab |
| XorgSession.XDisplay.UngrabKeyboard | src/xorg/mod.rs:61-66 | sends one keyboard ungrab |
| XorgSession.XDisplay.ClickMouse | src/xorg/mod.rs:68-114 | sends one Button1 press at the pointer's root position and fails exactly when the send status is 0 |
| XorgSession.XDisplay.WarpPointer | src/xorg/mod.rs:116-139 | the pointer ends at the absolute position given, and one warp is sent |
| XorgSession.XDisplay.QueryKeymap | src/xorg/mod.rs:141-165 | the result is the set of keys the key vector reports |
| XorgSession.XDisplay.QueryPointer | src/xorg/mod.rs:167-197 | returns the pointer's root position |
| XorgDisplay.Display.New | src/xorg.rs:10-20 | panics exactly when the server cannot be reached |
| XorgDisplay.Display.QueryKeymap | src/xorg.rs:24-46 | panics exactly when the query status is 0; otherwise the set of keys the key vector reports |
| XorgDisplay.Display.MovePointer | src/xorg.rs:48-90 | panics with nothing sent when the pointer query fails; otherwise warps to the queried position plus (dx, dy) and panics afterwards when the warp status is 0 |
| Input.Effects | src/input/mod.rs:67-79 | ClickMouse gives a Button1 press then release, 10 ms apart; FreezeKeyboard a grab; UnfreezeKeyboard an ungrab; NoAction and ScrollMouse nothing |
| Input.DrainOrder | src/input/mod.rs:39-42 | `update` handles as many actions as were queued, each of them the element last in the queue on entry |
| Input.EffectsOfRepeated | src/input/mod.rs:39-42 | handling one action n times sends its requests n times over |
| Input.DrainSendsOldest | src/input/mod.rs:39-42 | draining a non-empty queue sends the oldest action's requests once per queued element |
| Input.NewerActionsDropped | src/input/mod.rs:40-41 | a queued action that differs from the oldest one is never handled |
| Input.DrainIsNotFifo | src/input/mod.rs:39-42 | queueing FreezeKeyboard then ClickMouse grabs twice and never clicks |
| Input.ClampOnce | src/input/mod.rs:46-54 | at most one coordinate changes, none exactly on the screen; a changed coordinate becomes the bound it crossed (width, 0, height or 0); an x on the screen is kept and y is brought onto it, otherwise y is kept and x is brought onto it |
| Input.ClampTwiceOnScreen | src/input/mod.rs:46-54 | clamping twice puts any point on a non-empty screen |
| Input.Input.New | src/input/mod.rs:23-36 | fails exactly when the display cannot be opened; otherwise starts at the reported pointer position with an empty queue and nothing sent |
| Input.Input.QueueAction | src/input/mod.rs:62-64 | the queue becomes the action followed by the old queue, one longer |
| Input.Input.GetKeys | src/input/mod.rs:58-60 | the result is the set of keys the key vector reports |
| Input.Input.HandleAction | src/input/mod.rs:66-80 | ClickMouse sends a Button1 press then release, 10 ms apart; FreezeKeyboard a grab; UnfreezeKeyboard an ungrab; the others nothing |
| Input.Input.DrainQueue | src/input/mod.rs:39-42 | the queue ends empty and the requests sent are those of `DrainOrder` of the old queue, handled in turn |
| Input.Input.Update | src/input/mod.rs:38-56 | the queue ends empty, the handled actions are `DrainOrder` of the old queue, the position is `ClampOnce` of the old one, and the last request is one warp there |
| Controller.MovesOfKeys | src/main.rs:28-42 | a NORMAL tick makes H's (-1, 0), L's (1, 0), J's (0, -1) and K's (0, 1) exactly when the key is held, at most four unit steps, none when no direction key is held |
| Controller.Plan | src/main.rs:11-43 | I writes and enters INSERT; Escape, checked after I, writes and enters NORMAL, and alone writes only NORMAL; with neither the stored mode stays and nothing is written; moves only in NORMAL, at most four unit steps |
| Controller.NoMoves | src/main.rs:27-43 | a NORMAL tick makes no move exactly when none of H, L, J and K is held |
| Controller.NetOfAppend | src/main.rs:28-42 | the displacement of moves made one after the other is the sum of their displacements |
| Controller.NetDisplacement | src/main.rs:28-42 | the net move of a NORMAL tick is (L - H, K - J), so H and L cancel and J and K cancel |
| Controller.WarpsOfAppend | src/main.rs:28-42 | the warps of a second batch of moves start where the first batch ended |
| Controller.WarpsOfMoves | src/main.rs:28-42 | the warps of one tick, key by key: H to x - 1, L to x + (L - H), J to y - 1, K to y + 1 or back to y after J |
| Controller.SwitchMode | src/main.rs:11-21 | the mode and the writes are those of `Plan` for the mode read from the file |
| Controller.MoveIfHeld | src/main.rs:28-30 | a move is made only when its key is held, and panics exactly when it is made and a status is 0 |
| Controller.Nudge | src/main.rs:27-43 | panics exactly when some move is due and a status is 0; otherwise the pointer moves by the net displacement with one warp per move |
| Controller.Tick | src/main.rs:9-43 | panics before any effect when the key-map query fails; otherwise the file, the mode, the pointer and the warps are those of `Plan` for the held keys and the mode read |

## Left out

- The Xlib and XTest calls themselves (XOpenDisplay, XQueryKeymap, XQueryPointer, XWarpPointer,
  XGrabKeyboard, XUngrabKeyboard, XSendEvent, XTestFakeButtonEvent, XDisplayWidth, XDisplayHeight,
  XFlush, XGetInputFocus, XDefaultRootWindow) are foreign calls. What they return (key vector,
  pointer position, screen size, status, whether the connection opens) is a parameter, and what
  they do is a request appended to the ghost trace.
- The server is assumed to put the pointer exactly where it is warped. A pointer moved by the user
  between two queries is not modelled.
- `get_window_info` (src/input/xorg.rs:74-81) is not called by the model: `Input.Input.Update` takes the
  screen size as a parameter.
- The window-relative coordinates `win_x` and `win_y` of `PointerInfo`, and the focus window and
  event fields of `click_mouse`'s `XButtonEvent`, are not modelled: the trace records only the
  button and the root position.
- `get_default_root_window`, the root-window arguments and the grab modes are not modelled.
- The raw `[0; 32].as_mut_ptr()` buffer and `from_raw_parts` are replaced by a 32-element sequence.
- Keymap.Decode and every QueryKeymap require that byte 0 of the key vector has no bit set,
  because `x11_key - 8` underflows its `u8` there and the source would panic in a debug build or
  wrap in a release build. The X server never reports keycodes 0 to 7.
- XorgSession.XDisplay.MovePointer, XorgDisplay.Display.MovePointer and Controller.Nudge require
  that the moved position stays within `i32`, instead of modelling the overflow of
  `root_x + translation`. Controller.Tick requires the pointer strictly inside the `i32` range for
  the same reason.
- Controller.Tick gives every pointer query and every warp of one tick the same status
  (`queryStatus`, `warpStatus`), so it does not model a first move that succeeds followed by a
  second that fails for a different reason.
- The `unwrap()` panics of reading, creating and writing the mode file are not modelled: file I/O
  on the abstract content always succeeds. Another process writing the file between two reads is
  not modelled either.
- The infinite `loop` of src/main.rs, its 1 ms `sleep`, `println!` and all `tracing` output: one
  tick is modelled.
- The `Display` and `Error` implementations of `XError` (src/xorg/error.rs:9-18,
  src/input/xorg.rs:172-180) produce message strings only. src/input/xorg.rs declares its own
  `XError` with the single variant DisplayConnectionError; the model uses one `XError` with both
  variants, and InputXorg only ever returns DisplayConnectionError.
