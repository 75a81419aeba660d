# snap-rust core, modelled in Dafny

snap-rust is a screenshot tool. After a capture it lets the user annotate the
image with a pen or crop it, undo and redo those edits, and drive everything
through global hotkeys that can be reconfigured in a settings panel. This
project models three pieces of it and proves properties about them.

- **The annotation history** (`History`, and the fields and methods of
  `App.SnapRustApp`). The image on screen (`snapshot`) sits beside two deques
  of checkpoints (`snapshots_undo`, `snapshots_redo`). The model covers:
  - undo and redo;
  - the arrival of a new capture;
  - the end of a pen or crop drag, including the normalisation of the crop
    rectangle to a top-left corner plus a size.
- **The hotkey configuration** (`HotkeysUtils`, `Settings`, and `App`). Each
  `Hotkey` record keeps a committed chord, a draft chord that the settings
  panel edits, and the chord it registered. The model covers:
  - the parsers `string_to_key` and `string_to_modifiers`;
  - opening the settings panel;
  - the normalisation of the key box;
  - "Apply" with its duplicate check;
  - "Cancel";
  - the credits page and the tools toggle, for the panel flags they set;
  - the dispatch of a pressed hotkey to its action;
  - the pen-size clamp.
- **The line rasteriser** (`ToolUtils`): the Bresenham loop
  `get_line_points`.

Images are opaque values. `crop_imm` and `draw_line` become function
parameters, and so does the floating-point widget-to-image mapping. Each
`SnapRustApp` method changes its fields in place as the source does, and is
proved to make the value-level transition that `History` or `Settings`
defines. The properties are proved about those transitions.

## Model

| member | source | states |
|---|---|---|
| ToolUtils.GetLinePoints | src/app/tool_utils.rs:12-41 | For inputs inside (-2^28, 2^28):<br>- the result starts at (x0, y0), ends at (x1, y1), and reaches (x1, y1) nowhere earlier;<br>- it has max(\|x1-x0\|, \|y1-y0\|) + 1 points;<br>- consecutive points differ by 0 or sx in x and by 0 or sy in y, and never by 0 in both;<br>- every point lies in the bounding box of the endpoints;<br>- the k-th point is LinePoint(k): k steps along the longer axis, and along the other axis the whole number of steps nearest to k times the ratio of the two deltas, a tie staying toward the start. |
| ToolUtils.NearLineIsLinePoint | src/app/tool_utils.rs:29-37 | A point in the bounding box that is k steps along the longer axis and whose error term lies in the loop's half-open window is exactly LinePoint(k), so the loop's error bounds pin each point down. |
| ToolUtils.ShallowLineExample | src/app/tool_utils.rs:12-41 | The line (0,0)→(4,2) gives exactly (0,0), (1,0), (2,1), (3,1), (4,2). |
| ToolUtils.LoopStep | src/app/tool_utils.rs:29-37 | One pass of the loop body from a point other than the end keeps the error-term invariant. It also shows that:<br>- `2 * err` fits in an i32;<br>- neither coordinate passes its end value;<br>- the point moves to a neighbour toward the end;<br>- the dominant axis advances by exactly one. |
| ToolUtils.StepsAreMonotone | src/app/tool_utils.rs:15-18 | Along a connected path, x moves monotonically toward x1 and y toward y1. Each step adds at least one to the progress. |
| ToolUtils.NoRepeatedPoints | src/app/tool_utils.rs:29-37 | A connected path, such as the rasteriser's output, never visits a point twice. |
| ToolUtils.RowLinePoints | src/app/tool_utils.rs:12-41 | A horizontal line from left to right gives exactly (x0, y), (x0+1, y), …, (x1, y) in order. |
| ToolUtils.FiveStepExample | src/app/tool_utils.rs:12-41 | The line (0,0)→(5,0) gives exactly (0,0), (1,0), …, (5,0). |
| ToolUtils.SinglePointLine | src/app/tool_utils.rs:22-27 | Equal endpoints give the single point [(x0, y0)]. |
| HotkeysUtils.StringToKey | src/app/hotkeys_utils.rs:46-76 | `s` parses exactly when it is one character whose upper case is a letter A–Z. The code is the key carrying that letter. |
| HotkeysUtils.StringToKeyMatchesUpper | src/app/hotkeys_utils.rs:46-76 | `string_to_key(s)` is `Some` exactly when the upper case of `s` is one of the 26 one-letter names. That name is the code's letter. The empty string and longer strings give `None`. |
| HotkeysUtils.StringToKeyIgnoresCase | src/app/hotkeys_utils.rs:47 | `string_to_key(s) == string_to_key(uppercase(s))`. |
| HotkeysUtils.StringToKeyOfLetter | src/app/hotkeys_utils.rs:48-73 | Each of the 26 codes is what its own letter parses to. |
| HotkeysUtils.StringToKeyInjective | src/app/hotkeys_utils.rs:46-76 | Two strings that parse to the same key have the same upper case. |
| HotkeysUtils.KeyLetterInjective | src/app/hotkeys_utils.rs:48-73 | Distinct codes carry distinct letters, so the A–Z mapping is one-to-one. |
| HotkeysUtils.StringToModifiers | src/app/hotkeys_utils.rs:78-87 | Accepts exactly "ALT", "CTRL" and "SHIFT" (anything else is the `todo!` panic, so it is a precondition). The result is the modifier with that name. |
| HotkeysUtils.ModifierRoundTrip | src/app/hotkeys_utils.rs:78-87 | Parsing a modifier's name gives that modifier back, so the three names map to three distinct modifiers. |
| HotkeysUtils.ModifiersAreCaseSensitive | src/app/hotkeys_utils.rs:79-82 | "alt", "Ctrl" and "shift" are not modifier names. |
| HotkeysUtils.ChordOf | src/app/hotkeys_utils.rs:19 | The chord built from a modifier name and a key name carries that modifier and the key of that letter. |
| HotkeysUtils.Hotkey.constructor | src/app/hotkeys_utils.rs:18-27 | `Hotkey::new` requires the key to parse. The label is stored as given, the draft pair equals the committed pair, and the registered chord is built from it. |
| HotkeysUtils.Hotkey.Register | src/app/hotkeys_utils.rs:30-32 | The registered chord is rebuilt from the committed pair. Only that field may change. |
| Settings.KeyEditAsWritten | src/app.rs:622-650 | The key-box edit as written. It stops the program (`None`) exactly when the box, after an emptied box is restored, holds one character of more than one byte. |
| Settings.KeyEditAsWrittenPanicsOnWideChar | src/app.rs:630-633 | Typing "é" into a box holding "C" reaches the failing `unwrap`. |
| Settings.KeyEditAsWrittenAcceptsNonKey | src/app.rs:630-650 | Typing "1" before "C", or over a selected "C", leaves "1" in the box, and "1" names no key. |
| Settings.KeyEdit | src/app.rs:622-650 | The corrected edit. When the candidate character the edit proposes names a key, the box becomes that key's upper-case letter. When it names none, the box keeps its previous value. So a box that held a key name still holds one afterwards. |
| Settings.KeyEditOfEmpty | src/app.rs:626-628 | Emptying the box restores the previous key. |
| Settings.KeyEditOfUnchanged | src/app.rs:622-650 | On a frame with no typing, the box keeps its key. |
| Settings.KeyEditReplaces | src/app.rs:637-650 | A letter typed after or before the current key replaces it, in upper case. |
| Settings.KeyEditAgreesWhenSourceSucceeds | src/app.rs:622-650 | Whenever the edit as written completes with a key name, the corrected edit gives the same one. |
| Settings.DraftChordsDistinct | src/app.rs:661-670 | The hash-set loop reports valid exactly when the draft pairs are pairwise distinct. |
| Settings.LastMatch | src/app.rs:124-130 | Gives the label of the last binding whose chord is the fired one, or `None` exactly when no binding has that chord. |
| Settings.Resolve | src/app.rs:124-130 | The listener loop computes LastMatch: the last match wins. |
| Settings.ClampPenSize | src/app.rs:525-530 | The result is in [1, 30], leaves sizes already in range alone, and is the nearest size in range. |
| History.Undo | src/app.rs:257-262 | With at most one checkpoint, nothing changes. Otherwise:<br>- the back of `undo` moves to the front of `redo`;<br>- the timeline is kept;<br>- `undo` shrinks by one but never below one entry;<br>- the new back is shown. |
| History.Redo | src/app.rs:264-269 | With an empty `redo`, nothing changes. Otherwise:<br>- the front of `redo` becomes the back of `undo` and is shown;<br>- the timeline is kept. |
| History.UndoThenRedo | src/app.rs:257-269 | With at least two checkpoints, undo then redo restores both deques and shows the newest checkpoint. From a settled state it is the identity. |
| History.RedoThenUndo | src/app.rs:257-269 | From a settled state with something to redo, redo then undo is the identity. |
| History.CaptureArrived | src/app.rs:754-762 | After a capture: `undo == [img]`, `redo` is empty and `snapshot == img`. |
| History.CropCorner | src/app.rs:323-333 | The corner is (min(x0,x1), min(y0,y1)) and the size is (\|x1-x0\|, \|y1-y0\|). The far corner is (max, max). |
| History.AsU32 | src/app.rs:335 | The `as u32` cast keeps values already in range, sends negatives to 0 and values above 2^32-1 to 2^32-1. |
| History.NormaliseCropTopLeft | src/app.rs:323-335 | For a drag inside the image, the crop starts at its top-left corner whichever way it was dragged. The two drag directions give the same rectangle. |
| History.Release | src/app.rs:314-339 | Under Pen the shown image becomes a new checkpoint. Under Crop the cropped image is shown and becomes one. In both cases:<br>- `undo` grows by one and keeps its prefix;<br>- `redo` is cleared;<br>- the state is settled.<br>Under None nothing changes. |
| History.UndoAfterRelease | src/app.rs:314-339 | From any state with a checkpoint and an image shown, including a pen stroke already drawn into the shown image, undo right after a release shows the last checkpoint from before the edit, restores the checkpoints, and keeps the edited image (the drawn image or the crop) for redo. |
| App.DispatchNeedsImage | src/app.rs:132-171 | "Take" asks for a capture at any time. Without an image, every other action does nothing. With an image, each of the eight labels has an effect. |
| App.SessionAfter | src/app.rs:163-171 | A dispatched command keeps the history consistent and its timeline intact. |
| App.CropRectOf | src/app.rs:320-335 | The source's in-place corner adjustment and casts compute NormaliseCrop. |
| App.DefaultHotkeys | src/app.rs:59-67 | Creates eight fresh, distinct hotkeys. Hotkey k carries the k-th default label on CTRL with its default letter, its draft pair is a copy of its committed pair, and each is ready and registered. |
| App.SnapRustApp.constructor | src/app.rs:56-90 | The state starts with no image, no history, no tool, pen size 1, both drag positions at (0, 0), no panel shown, and the eight default hotkeys with drafts equal to their committed pairs; the invariant holds. |
| App.SnapRustApp.Undo | src/app.rs:257-262 | Performs the History.Undo transition on the fields and keeps the invariant. |
| App.SnapRustApp.Redo | src/app.rs:264-269 | Performs the History.Redo transition on the fields and keeps the invariant. |
| App.SnapRustApp.OnCaptureArrived | src/app.rs:754-762 | Performs History.CaptureArrived on the fields. The tool and the hotkeys are outside its frame. |
| App.SnapRustApp.OnDragged | src/app.rs:273-305 | Runs only while the image is shown, neither settings nor credits cover it, and a tool is selected, as the central panel demands before calling `update_editing`. Records the drag's start on its first frame and the pointer on every frame. With the pen, it draws from the last position to the pointer and moves the last position along. Otherwise the image is untouched. |
| App.SnapRustApp.OnDragReleased | src/app.rs:314-339 | Under the same condition as OnDragged, performs History.Release on the fields, using the normalised rectangle of the two drag positions. |
| App.SnapRustApp.OnPointerIdle | src/app.rs:342-344 | Under the same condition as OnDragged, a frame without a drag ends the current drag. |
| App.SnapRustApp.SetPenSize | src/app.rs:520-530 | While the side panel is shown and the pen is selected, the pen size becomes ClampPenSize of the entered value. |
| App.SnapRustApp.ResetDrafts | src/app.rs:424-427 | After the loop, every draft pair equals its committed pair. |
| App.SnapRustApp.OpenSettings | src/app.rs:422-431 | From the top panel: the drafts are reset to the committed pairs, and the settings panel replaces the tools panel. |
| App.SnapRustApp.OpenCredits | src/app.rs:434-437 | From the top panel: the credits page replaces the tools panel and the top panel. |
| App.SnapRustApp.CloseCredits | src/app.rs:706-737 | "Back" on the credits page brings the top panel and the image back. |
| App.SnapRustApp.ToggleTools | src/app.rs:450-453 | Once there is a checkpoint, the toggle flips whether the side panel is shown. |
| App.SnapRustApp.EditDraftModifier | src/app.rs:611-618 | Only hotkey k's draft modifier changes, to the chosen name. |
| App.SnapRustApp.EditDraftKey | src/app.rs:622-650 | Only hotkey k's draft key changes, to KeyEdit of its previous value. |
| App.SnapRustApp.CommitDrafts | src/app.rs:674-678 | Every committed pair becomes its draft pair. |
| App.SnapRustApp.RegisterHotkeys | src/app.rs:109-113 | Every hotkey registers its committed pair. Nothing else in the records changes. |
| App.SnapRustApp.CommitAndRegister | src/app.rs:672-684 | The committed pairs become the old drafts, and the records are ready and registered again. |
| App.SnapRustApp.Apply | src/app.rs:659-687 | `valid_hotkeys` holds exactly when the old drafts are pairwise distinct. If valid, the committed pairs become the drafts and the panel closes. If not, the committed pairs, the bindings and the panel are unchanged. The drafts are kept either way. |
| App.SnapRustApp.Cancel | src/app.rs:690-694 | The warning is cleared and the panel closes. |
| App.SnapRustApp.Perform | src/app.rs:132-171 | Carries out a dispatched command: a request is handed back, a tool is selected, or undo or redo is performed. |
| App.SnapRustApp.OnHotkeyPressed | src/app.rs:121-171 | The fired chord resolves to the label of the last hotkey registered on it, and the command for that label is carried out. |

## Left out

- Rendering: the egui layout, panels, buttons, cursor icons and the dashed crop outline are not modelled. They are user interface only.
- Capture: `get_snapshot` is not modelled. It spawns a thread, sleeps, captures the screen and sends the image over a channel. Only the arrival of an image is modelled, as `OnCaptureArrived`, and "Take" only hands back a `Capture` request.
- Save and copy: `save_snapshot` and `copy_snapshot` are not modelled, because they are a file dialog, image encoding and the clipboard. "Save" and "Copy" only hand back a request.
- OS hotkeys: the calls into `GlobalHotKeyManager` are not modelled (register, unregister, and the event receiver with its pressed/released filter). `Register` keeps only the field update, and `unregister_hotkeys` changes no field. A fired event is given as the chord it carries.
- Hotkey ids: the library derives a hotkey's id from its chord, and the model compares chords in place of ids.
- Pixel work: `draw_line`, `crop_imm`, `linear_to_srgb` and `get_real_image_pos` are not modelled. The first two are opaque function parameters, the pen colour is left out, and the float widget-to-image mapping is the `toImage` parameter.
- History.NormaliseCrop: drag positions are `f32` in the source and are modelled as integers, so the truncation of `as u32` toward zero is not modelled. The saturation at 0 and 2^32-1 is.
- Unused fields: `display`, `timer`, `pen_color`, `rx`, `tx` and `manager` take no part in the modelled logic.
- ToolUtils.GetLinePoints: inputs are bounded to (-2^28, 2^28) so that `2 * err` and every coordinate stay inside i32. The model does not say what wrap-around would do outside that range.
- HotkeysUtils.Upper: `str::to_uppercase` is modelled character by character. Only the ASCII letters, dotless i and long s are mapped. Characters whose upper case is longer (such as ß) or maps elsewhere are kept, so `Upper` keeps the length. This does not change which strings `string_to_key` accepts.
- Settings.KeyEditAsWritten: the final `to_uppercase` is modelled by `Upper`, which keeps ß, é and the other characters outside ASCII apart from dotless i and long s. For an edit that keeps such a character the model stores it unchanged, where the source stores "SS" for ß and "É" for é. The model then predicts a panic on a later edit of a one-character box that the source, holding the two-character "SS", does not reach.
- App.SnapRustApp.EditDraftKey: the app uses the corrected `KeyEdit`, not `KeyEditAsWritten` (see Findings).
- App.DefaultHotkeys: the eight pushes of `SnapRustApp::default` are a loop over two tables of labels and letters.
- App.SnapRustApp.SetPenSize: the `usize` pen size is modelled as a natural number, so the `DragValue` widget's own range is not modelled.

## Findings

| source | as written | input that shows it | evidently intended | confidence | as-written member | corrected member |
|---|---|---|---|---|---|---|
| src/app.rs:630-633 | The box length is tested in bytes (`len() > 1`), then two characters are taken with `chars()` and both `unwrap`ped. | A box holding "C" is edited to "é" (two bytes, one character). The second `unwrap` panics. | Count characters, so that one typed character is never split. | not executed | Settings.KeyEditAsWrittenPanicsOnWideChar (on Settings.KeyEditAsWritten) | Settings.KeyEdit, Settings.KeyEditAgreesWhenSourceSucceeds |
| src/app.rs:637-650, src/app.rs:664-681, src/app/hotkeys_utils.rs:31 | Only the second character of a two-character box is checked to name a key, and a one-character box is not checked at all (src/app.rs:630). So a kept first character, or a character typed over a selected key, is stored unchecked, and "Apply" checks only duplicates. | A box holding "C" is edited to "1C", or its "C" is selected and "1" typed over it. The box becomes "1", "Apply" commits it, and `register` panics at `string_to_key(..).unwrap()`. | A draft key always names a key, so that every committed pair registers. | not executed | Settings.KeyEditAsWrittenAcceptsNonKey (on Settings.KeyEditAsWritten) | Settings.KeyEdit, Settings.KeyEditReplaces |
