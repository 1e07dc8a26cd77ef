# Edit program: input handling and operation pipeline

A Dafny model of the core of the Amulet map editor's edit program. It covers two parts.

The first is the 3D canvas's input handling (`World3dCanvas`). It tracks the set of held key codes, the mouse lock and the pointer positions. Each 33 ms input tick turns these into the movement handed to the camera. The mouse wheel adjusts the camera speed, and a resize sets the aspect ratio.

The second is the operation pipeline (`EditExtension`, `OperationUI`, `SelectDestinationUI`). An operation declares an ordered list of input kinds. Pressing "Run Operation" then takes one of these routes:

- run the operation at once;
- stage a structure first (from a structure callable run on the world, or from a snapshot of the selection) and show the destination panel;
- reject the operation.

The extension's confirm handler (`_destination_select_confirm`) runs the operation's main entry point with the panel's destination and the staged structure. Its cancel handler (`_destination_select_cancel`) goes back to the operation panel. The panel's own "Cancel" and "Confirm" buttons are created but never bound to these handlers (see "## Left out").

Files:

- `canvas.dfy` (module `Canvas`): `Step` is the reference definition of one input event on a `CanvasState` value, and `Replay` applies a sequence of events. The class `World3dCanvas` holds the same state in fields that its handlers update in place, and each handler is proved to agree with `Step`. The lemmas cover single events and whole event sequences.
- `operations.dfy` (module `Operations`): the pipeline as values, with these parts:
  - operation descriptors;
  - the arguments resolved for declared kinds (`Gather`);
  - the log of calls into the world store;
  - the reference definitions `RunOperationEffect`, `MainOperationEffect`, `CancelEffect` and `ConfirmEffect`;
  - lemmas for ordering, abort conditions, undo flags and end-to-end flows.
- `edit.dfy` (module `Edit`): the classes for the registry, the two panels and the extension. `EditExtension.RunStructureCallable` and `EditExtension.RunMainOperation` gather inputs in `while` loops whose invariants tie the partial argument list to `Gather`. Their postconditions, and those of `StageStructure`, `RunOperation`, `DestinationSelectCancel` and `DestinationSelectConfirm`, equate the new abstract `Session()` with the reference definitions.

Abstractions:

- The world store is a log of `Call(entry, args, createUndo)`.
- The render world's selection box is passed in as `(selectState, min, max)`.
- The object a structure callable returns is passed in, tagged with whether it is a Structure.
- What an options dialog returns is passed in as a `PluginValue`.
- `wx.MessageBox` texts are `EditExtension.messages`, and `log.error` entries are `OperationUI.logged`.
- An exception the code raises (`NotImplementedError`, or a `KeyError` for a missing `"wxoptions"` dialog) is an `Outcome` of `Raised(…)` with no further state change.

Constants follow the code and wxWidgets:

- `WXK_NONE` = 0, `WXK_ESCAPE` = 27, `WXK_SPACE` = 32, `WXK_SHIFT` = 306.
- The key map: W = 87, S = 83, A = 65, D = 68.
- Look sensitivity 0.07, wheel step 0.2, speed floor 0.1.
- The box counts as confirmed when `select_state == 2`.
- Spin-control range ±30000000.

Behaviour that the code has and the model keeps:

- With a structure callable, the callable is run on the world (without undo) before an operation that declares only `dst_box_multiple` is rejected with `NotImplementedError` (`Operations.MultipleDestinationsRejected`).
- A resize to width 0 and a positive height gives an aspect ratio of 0. `AspectFor` promises a positive ratio only for a positive width, and exactly 1 when the height is not positive.
- Confirming returns to the operation panel even when the main run aborted for a missing selection. The selection is read again at confirm time.
- `dst_box_multiple` is always resolved to `None` in a main run.
- "Change Options" does nothing for an operation that declares `options`, even when it also declares `wxoptions`.
- A wheel event with a zero wheel delta raises `ZeroDivisionError` before any assignment, so the model leaves the state unchanged.

## Model

| member | source | states |
|---|---|---|
| Canvas.Axis | amulet_map_editor/plugins/programs/edit/edit.py:113-126 | a movement axis is in {-1, 0, 1}: 1 exactly when only its positive key is held, -1 exactly when only its negative key is held, 0 exactly when both or neither are held |
| Canvas.WheelSpeed | amulet_map_editor/plugins/programs/edit/edit.py:107-110 | after a wheel step the speed is the old speed plus 0.2 x rotation / delta when that sum is at least 0.1, and exactly 0.1 otherwise |
| Canvas.TickMovement | amulet_map_editor/plugins/programs/edit/edit.py:113-137 | each movement axis is -1, 0 or 1, and 0 exactly when both or neither of its keys are held; pitch and yaw are 0 while the mouse is unlocked or has not moved since the last tick |
| Canvas.Step | amulet_map_editor/plugins/programs/edit/edit.py:107-201 | one input event: only a key press adds a held key, only a middle click locks the mouse, Escape and focus loss clear the keys and unlock the mouse, only a wheel event changes the camera speed (to at least 0.1), and only a resize changes the size and aspect ratio |
| Canvas.AspectFor | amulet_map_editor/plugins/programs/edit/edit.py:195-200 | with a positive height the ratio times the height is the width; otherwise it is exactly 1 (no division by zero); it is positive whenever the width is |
| Canvas.PressAddsKey | amulet_map_editor/plugins/programs/edit/edit.py:176-182 | pressing a key other than Escape adds its code to the held set and changes nothing else |
| Canvas.ReleaseRemovesOnlyThatKey | amulet_map_editor/plugins/programs/edit/edit.py:169-174 | releasing a key removes its code if held and leaves every other key and all other state untouched |
| Canvas.PressThenRelease | amulet_map_editor/plugins/programs/edit/edit.py:169-182 | a press followed by a release of the same key leaves the held set as the old set without that key |
| Canvas.EscapeResets | amulet_map_editor/plugins/programs/edit/edit.py:176-190 | pressing Escape or losing focus empties the held set and unlocks the mouse, keeping camera speed and aspect ratio |
| Canvas.LockedTickRecentres | amulet_map_editor/plugins/programs/edit/edit.py:128-135 | a tick with the mouse locked puts the pointer at the canvas centre, so the next tick without motion yields zero pitch and yaw |
| Canvas.FloorKept | amulet_map_editor/plugins/programs/edit/edit.py:107-110 | no sequence of input events brings a camera speed that is at least 0.1 below 0.1 |
| Canvas.FloorAfterWheel | amulet_map_editor/plugins/programs/edit/edit.py:107-110 | after any event sequence containing a wheel event (non-zero delta) the camera speed is at least 0.1, whatever the rotations |
| Canvas.HeldKeysWerePressed | amulet_map_editor/plugins/programs/edit/edit.py:169-190 | after any event sequence every held key was held at the start or pressed during the sequence |
| Canvas.World3dCanvas.constructor | amulet_map_editor/plugins/programs/edit/edit.py:39-87 | the canvas starts with no held keys, the mouse unlocked and all pointer coordinates 0 |
| Canvas.World3dCanvas.MouseWheel | amulet_map_editor/plugins/programs/edit/edit.py:107-111 | the new state is the wheel step of the old; with a non-zero delta the camera speed is at least 0.1 |
| Canvas.World3dCanvas.ProcessInputs | amulet_map_editor/plugins/programs/edit/edit.py:113-137 | returns the tick movement of the old state (axes from the key map, look deltas 0.07 x pointer delta when locked, 0 otherwise) and recentres the pointer when locked |
| Canvas.World3dCanvas.ToggleMouseLock | amulet_map_editor/plugins/programs/edit/edit.py:139-147 | unlocks a locked mouse; otherwise locks it with the current and last pointer at the click position |
| Canvas.World3dCanvas.ReleaseMouse | amulet_map_editor/plugins/programs/edit/edit.py:157-163 | the mouse is unlocked and nothing else changes |
| Canvas.World3dCanvas.OnMouseMotion | amulet_map_editor/plugins/programs/edit/edit.py:165-167 | the pointer follows the motion only while the mouse is locked |
| Canvas.World3dCanvas.OnKeyRelease | amulet_map_editor/plugins/programs/edit/edit.py:169-174 | the new state is the release step: the key code (Unicode key, or raw code when none) leaves the held set |
| Canvas.World3dCanvas.OnKeyPress | amulet_map_editor/plugins/programs/edit/edit.py:176-182 | the new state is the press step: the key code joins the held set, and Escape then clears it and unlocks the mouse |
| Canvas.World3dCanvas.OnLossFocus | amulet_map_editor/plugins/programs/edit/edit.py:184-186 | losing focus acts as Escape |
| Canvas.World3dCanvas.Escape | amulet_map_editor/plugins/programs/edit/edit.py:188-190 | the held set is empty and the mouse unlocked, nothing else changes |
| Canvas.World3dCanvas.SetSize | amulet_map_editor/plugins/programs/edit/edit.py:195-201 | the aspect ratio becomes width/height, or 1 for a non-positive height, and the canvas size is recorded |
| Operations.SelectionOf | amulet_map_editor/plugins/programs/edit/edit.py:356-367 | a selection exists exactly when select_state is 2, and then it is the single box from min to max |
| Operations.Resolve | amulet_map_editor/plugins/programs/edit/edit.py:433-447 | a recognised kind fails to resolve exactly when it is src_box and no box is confirmed |
| Operations.Gather | amulet_map_editor/plugins/programs/edit/edit.py:431-448 | gathering aborts exactly when src_box is gathered and declared with no confirmed box; otherwise it yields one argument per recognised declared kind |
| Operations.GatherAt | amulet_map_editor/plugins/programs/edit/edit.py:433-447 | declared order is kept: the k-th declared kind supplies the argument at the index counting the recognised kinds declared before it; unknown kinds are skipped |
| Operations.Stage | amulet_map_editor/plugins/programs/edit/edit.py:373-397 | staging keeps the phase and options, logs at most one call and only the structure callable without undo, and yields a structure exactly when it adds no message (otherwise exactly one message) |
| Operations.MainOperationEffect | amulet_map_editor/plugins/programs/edit/edit.py:431-449 | the main run keeps the phase; it adds a "no selection" message and no call exactly when src_box is declared with no confirmed box, and otherwise appends one call to the main entry point with undo |
| Operations.RunOperationEffect | amulet_map_editor/plugins/programs/edit/edit.py:369-418 | "Run Operation" logs at most one call, raises NotImplementedError exactly when only dst_box_multiple is declared and staging succeeded, and changes the phase only to the destination panel holding the staged structure when dst_box is declared |
| Operations.CancelEffect | amulet_map_editor/plugins/programs/edit/edit.py:420-422 | cancelling returns to idle and keeps the world log, messages and options |
| Operations.ConfirmEffect | amulet_map_editor/plugins/programs/edit/edit.py:424-429 | confirming returns to idle and either appends one main call with undo or adds a message, never both |
| Operations.StagingArgs | amulet_map_editor/plugins/programs/edit/edit.py:375-384 | a structure callable is given only selections and option dictionaries |
| Operations.MissingSelectionMakesNoCall | amulet_map_editor/plugins/programs/edit/edit.py:369-393 | on every route, an operation declaring src_box with no confirmed box makes no world call, keeps the panel and shows one "no selection" message |
| Operations.StagingRunsCallableWithoutUndo | amulet_map_editor/plugins/programs/edit/edit.py:374-389 | with a structure callable, exactly one call with createUndo false is logged, with the gathered source box and options; a non-Structure result aborts before the destination panel with a message |
| Operations.StagedAwaitsDestination | amulet_map_editor/plugins/programs/edit/edit.py:399-408 | a staged structure with dst_box declared moves the pipeline to the destination panel holding the path, operation, inputs and structure |
| Operations.MultipleDestinationsRejected | amulet_map_editor/plugins/programs/edit/edit.py:399-412 | dst_box_multiple without dst_box raises NotImplementedError after staging and leaves the panel unchanged |
| Operations.SinglePhaseRunsImmediately | amulet_map_editor/plugins/programs/edit/edit.py:414-417 | an operation declaring no destination kind logs one main call with undo at once and never stages |
| Operations.ConfirmPlacesDestinationAndStructure | amulet_map_editor/plugins/programs/edit/edit.py:424-449 | confirming returns to idle and appends one main call with undo, whose argument at each dst_box position is the destination and at each structure position is the staged structure |
| Operations.StageThenCancel | amulet_map_editor/plugins/programs/edit/edit.py:369-422 | a two-phase run then a cancel leaves only the undo-free structure call in the world log |
| Operations.StageThenConfirm | amulet_map_editor/plugins/programs/edit/edit.py:369-449 | a two-phase run then a confirm logs the structure call without undo, then the main call with undo, and returns to idle |
| Edit.OperationUI.constructor | amulet_map_editor/plugins/programs/edit/edit.py:218-237 | the chooser starts on a registered operation with the options button state computed for it |
| Edit.OperationUI.SelectionChange | amulet_map_editor/plugins/programs/edit/edit.py:243-253 | the options button is enabled exactly when the chosen operation declares options or wxoptions |
| Edit.OperationUI.ChangeOptions | amulet_map_editor/plugins/programs/edit/edit.py:255-266 | options are stored under the operation's path only when its dialog returns a dict; any other value is logged as an error; declared options do nothing; a missing dialog raises KeyError; with the button disabled nothing changes |
| Edit.Clamp | amulet_map_editor/plugins/programs/edit/edit.py:280-282 | a destination coordinate lies within ±30000000 and is unchanged when already within it |
| Edit.SelectDestinationUI.constructor | amulet_map_editor/plugins/programs/edit/edit.py:270-283 | a new destination panel has nothing set up and its spin controls at 0 |
| Edit.SelectDestinationUI.Setup | amulet_map_editor/plugins/programs/edit/edit.py:290-294 | setup stores the path, operation, input definitions and structure |
| Edit.SelectDestinationUI.EnterDestination | amulet_map_editor/plugins/programs/edit/edit.py:280-282 | the spin controls hold the typed coordinates clamped to their range |
| Edit.SelectDestinationUI.Destination | amulet_map_editor/plugins/programs/edit/edit.py:307-318 | the destination handed on at confirm is within the spin controls' range |
| Edit.EditExtension.constructor | amulet_map_editor/plugins/programs/edit/edit.py:479-491 | the extension starts idle, with the operation panel shown, the destination panel hidden after construction, its spin controls at 0 and an empty world log |
| Edit.EditExtension.GetBox | amulet_map_editor/plugins/programs/edit/edit.py:356-367 | returns the confirmed selection, or nothing with a "no selection" message added |
| Edit.EditExtension.RunMainOperation | amulet_map_editor/plugins/programs/edit/edit.py:431-449 | the loop gathers the declared inputs in order and the new session is the main-run effect: one main call, or none and a message when the box is missing |
| Edit.EditExtension.RunStructureCallable | amulet_map_editor/plugins/programs/edit/edit.py:374-389 | the loop gathers source box and options in declared order; the new session and staged structure are the reference staging: no call when the box is missing, else one call without undo, and a structure only when the result is a Structure |
| Edit.EditExtension.StageStructure | amulet_map_editor/plugins/programs/edit/edit.py:373-397 | the new session and staged structure are the reference staging: by structure callable, by snapshot of the confirmed selection, or a "should not happen" message |
| Edit.EditExtension.RunOperation | amulet_map_editor/plugins/programs/edit/edit.py:369-418 | the new session and outcome are those of the reference run (stage by callable or snapshot, show the destination panel, reject, or run at once), exactly one panel stays shown, and the destination spin controls are untouched |
| Edit.EditExtension.DestinationSelectCancel | amulet_map_editor/plugins/programs/edit/edit.py:420-422 | back to the operation panel with nothing else changed |
| Edit.EditExtension.DestinationSelectConfirm | amulet_map_editor/plugins/programs/edit/edit.py:424-429 | the main run with the panel's destination and staged structure, then back to the operation panel |

## Left out

- OpenGL setup, clearing, drawing and buffer swaps (edit.py:42-49, 203-210): rendering side effects with nothing to verify.
- Resource-pack discovery and file writes (edit.py:51-59): file-system I/O and a foreign library.
- The canvas's `enable`, `disable`, `close`, `is_closeable` and `_gc` (edit.py:89-105, 212-214) and the extension's `disable`, `close` and `is_closeable` (edit.py:507-519) forward to the render world, which is not part of this model.
- The timers (edit.py:63-70): the draw and garbage-collection timers only forward to the render world. The 33 ms input timer drives `_process_inputs`, which is modelled as the `InputTick` event; the timing itself is not modelled.
- `EditExtension.enable` (edit.py:451-505): the construction of the two panels and the hiding of the destination panel (edit.py:479-491) are modelled by the `EditExtension` constructor. Widget building, menu buttons and layout, and the `set_size` re-applied on every enable (edit.py:502) are left out; a `set_size` is modelled only as the `SetSize` handler on its own.
- Left and right clicks (edit.py:149-155): they only forward to the render world's selection state machine, which is not part of this model. The selection box reaches the pipeline as a parameter.
- `move_camera`: the tick returns the movement it would hand over. Camera pose integration, the mesh cache and raycasting live in the render world, which is not part of this model.
- Cursor changes, `CaptureMouse`/`ReleaseMouse`, `WarpPointer`, `SetFocus`, panel `Enable`/`Disable`, layout and widget construction: toolkit plumbing. Panel visibility is kept as the pipeline's phase.
- Floating point: speeds, ratios and pointer coordinates are exact reals, so rounding is not modelled.
- The world store's own behaviour (`run_operation` results and failures, `undo`, `redo`, `save`, edit.py:347-354) is not part of this model. The main call passes no `create_undo` argument; the log records it as `true`, the world store's default.
- `Structure.from_world` (edit.py:394) is modelled as a snapshot of the selection; the render world's dimension is not modelled.
- The arguments given to a plugin's options dialog (the panel, the world and the current options, edit.py:261) are not recorded; only its return value is modelled.
- The look keys of the key map (edit.py:31-34): the code never reads them, so the model does not declare them.
- Options held by reference: plugin code receives the stored options dictionary itself, not a copy. This happens in the options dialog (edit.py:261), the structure callable (edit.py:384) and the main entry point (edit.py:447). The model treats options as values and assumes plugin code never changes that dictionary in place. The clauses that keep the options store unchanged depend on that assumption: those of `Stage`, `MainOperationEffect`, `RunOperationEffect` and `OperationUI.ChangeOptions` (in the branches that store nothing).
- The destination panel's "Cancel" and "Confirm" buttons (edit.py:285-288) are never bound, and `_on_cancel`/`_on_confirm` (edit.py:304-318) are referenced nowhere; as written the panel has no working exit. The model takes the extension's `_destination_select_cancel` and `_destination_select_confirm` (edit.py:420-429) as invoked anyway, with the panel's stored setup and spin values, so `DestinationSelectCancel`, `DestinationSelectConfirm`, `StageThenCancel` and `StageThenConfirm` describe the flow the wiring evidently intends.
- Weak references and closing the world through the window tree (edit.py:220, 521-522): object lifetime and UI navigation.
- The wheel delta and the spin controls: two behaviours of the toolkit are assumed.
  - The toolkit's wheel delta is taken as given, and a zero delta is modelled as leaving the state unchanged.
  - Spin controls clamp typed values to their range.
