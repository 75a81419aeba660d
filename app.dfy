/**
 * Model of the `SnapRustApp` state in src/app.rs that the core logic
 * updates: the annotation history, the editing tool and drag positions, the
 * pen size, and the configurable hotkeys with their settings panel. Every
 * method changes these fields in place as the source does, and is proved to
 * follow the value-level transitions of History and Settings.
 */
module App {
  import opened Wrappers
  import opened ToolUtils
  import opened HotkeysUtils
  import opened Settings
  import opened History

  /**
   * What a hotkey asks of the world outside the model: a new screen capture
   * (a thread that later delivers the image), the save dialog, the clipboard.
   */
  datatype Request = NoRequest | Capture | Save | Copy

  /** What a resolved hotkey does to the application. */
  datatype Command = Idle | Ask(request: Request) | SelectTool(tool: Tool) | StepBack | StepForward

  /**
   * The command for a resolved action label, `running` telling whether an
   * image is shown. Unknown labels and no label do nothing.
   */
  function Dispatch(action: Option<string>, running: bool): Command {
    if action.None? then Idle
    else if action.value == "Take" then Ask(Capture)
    else if !running then Idle
    else if action.value == "Save" then Ask(Save)
    else if action.value == "Copy" then Ask(Copy)
    else if action.value == "None" then SelectTool(Tool.None)
    else if action.value == "Pen" then SelectTool(Pen)
    else if action.value == "Crop" then SelectTool(Crop)
    else if action.value == "Undo" then StepBack
    else if action.value == "Redo" then StepForward
    else Idle
  }

  /**
   * "Take" asks for a capture at any time; every other action does
   * something only while an image is shown, and each of the eight labels
   * has its own command.
   */
  lemma DispatchNeedsImage(action: Option<string>, running: bool)
    ensures Dispatch(action, running) == Ask(Capture) <==> action == Some("Take")
    ensures !running ==> Dispatch(action, running) in {Idle, Ask(Capture)}
    ensures running && action.Some? && action.value in DefaultActions ==> Dispatch(action, running) != Idle
  {
  }

  /** The request a command hands on. */
  function RequestOf(command: Command): Request {
    if command.Ask? then command.request else NoRequest
  }

  /** The tool selected after a command. */
  function ToolAfter(command: Command, tool: Tool): Tool {
    if command.SelectTool? then command.tool else tool
  }

  /** The history after a command: undo and redo step through it and nothing else touches it. */
  function SessionAfter(command: Command, s: Session): (r: Session)
    ensures Consistent(s) ==> Consistent(r)
    ensures Timeline(r) == Timeline(s)
  {
    match command
    case StepBack => History.Undo(s)
    case StepForward => History.Redo(s)
    case _ => s
  }

  /**
   * The crop rectangle of a drag from `last` to `current` in image pixels,
   * computed as the release handler does: the size is the distance along each
   * axis, the corner starts at `last` and moves back by the size along any
   * axis where the drag went toward the origin, and all four are cast to
   * `u32`.
   */
  method CropRectOf(last: Point, current: Point) returns (rect: CropRect)
    ensures rect == NormaliseCrop(last, current)
  {
    var width := Abs(current.0 - last.0);
    var height := Abs(current.1 - last.1);
    var start := last;
    if current.0 < start.0 {
      start := (start.0 - width, start.1);
    }
    if current.1 < start.1 {
      start := (start.0, start.1 - height);
    }
    rect := CropRect(AsU32(start.0), AsU32(start.1), AsU32(width), AsU32(height));
  }

  /** The draft pairs of a list of hotkeys, in order. */
  function DraftsOf(hs: seq<Hotkey>): (r: seq<Draft>)
    reads hs`tmpModifier, hs`tmpCode
    ensures |r| == |hs|
    ensures forall k :: 0 <= k < |hs| ==> r[k] == (hs[k].tmpModifier, hs[k].tmpCode)
  {
    if hs == [] then [] else DraftsOf(hs[..|hs| - 1]) + [(hs[|hs| - 1].tmpModifier, hs[|hs| - 1].tmpCode)]
  }

  /** The committed pairs of a list of hotkeys, in order. */
  function CommittedOf(hs: seq<Hotkey>): (r: seq<Draft>)
    reads hs`modifier, hs`code
    ensures |r| == |hs|
    ensures forall k :: 0 <= k < |hs| ==> r[k] == (hs[k].modifier, hs[k].code)
  {
    if hs == [] then [] else CommittedOf(hs[..|hs| - 1]) + [(hs[|hs| - 1].modifier, hs[|hs| - 1].code)]
  }

  /** The registered chords of a list of hotkeys with their action labels, in order. */
  function BindingsOf(hs: seq<Hotkey>): (r: seq<Binding>)
    reads hs`registered, hs`actionLabel
    ensures |r| == |hs|
    ensures forall k :: 0 <= k < |hs| ==> r[k] == (hs[k].registered, hs[k].actionLabel)
  {
    if hs == [] then [] else BindingsOf(hs[..|hs| - 1]) + [(hs[|hs| - 1].registered, hs[|hs| - 1].actionLabel)]
  }

  /** The actions of the default hotkeys, and the letters they are bound to with CTRL. */
  const DefaultActions: seq<string> := ["Copy", "Save", "Take", "None", "Pen", "Crop", "Undo", "Redo"]
  const DefaultKeys: string := "CSTNPXZY"

  /** The committed pair of a hotkey names a key and is what is registered. */
  predicate CommittedReady(h: Hotkey)
    reads h`modifier, h`code, h`registered
  {
    h.Valid() && IsKeyName(h.code)
  }

  /** The draft pair of a hotkey names a modifier and a key. */
  predicate DraftReady(h: Hotkey)
    reads h`tmpModifier, h`tmpCode
  {
    IsModifierName(h.tmpModifier) && IsKeyName(h.tmpCode)
  }

  predicate Distinct(hs: seq<Hotkey>) {
    forall i, j :: 0 <= i < j < |hs| ==> hs[i] != hs[j]
  }

  /** Helpers over the whole list of records, each reading only the fields it needs. */
  predicate AllCommittedReady(hs: seq<Hotkey>)
    reads hs`modifier, hs`code, hs`registered
  {
    forall k :: 0 <= k < |hs| ==> CommittedReady(hs[k])
  }

  predicate AllDraftsReady(hs: seq<Hotkey>)
    reads hs`tmpModifier, hs`tmpCode
  {
    forall k :: 0 <= k < |hs| ==> DraftReady(hs[k])
  }

  /** Distinct hotkey records whose committed and draft pairs are all ready. */
  predicate AllReady(hs: seq<Hotkey>)
    reads hs`modifier, hs`code, hs`registered, hs`tmpModifier, hs`tmpCode
  {
    Distinct(hs) && AllCommittedReady(hs) && AllDraftsReady(hs)
  }

  /** Every committed pair names a modifier and a key. */
  predicate AllNamed(hs: seq<Hotkey>)
    reads hs`modifier, hs`code
  {
    forall k :: 0 <= k < |hs| ==> IsModifierName(hs[k].modifier) && IsKeyName(hs[k].code)
  }

  /** Every committed pair parses, as registering demands. */
  predicate AllParse(hs: seq<Hotkey>)
    reads hs`modifier, hs`code
  {
    forall k :: 0 <= k < |hs| ==> IsModifierName(hs[k].modifier) && StringToKey(hs[k].code).Some?
  }

  /** Every committed pair is what is registered. */
  predicate AllRegistered(hs: seq<Hotkey>)
    reads hs`modifier, hs`code, hs`registered
  {
    forall k :: 0 <= k < |hs| ==> hs[k].Valid()
  }

  lemma NamedParse(hs: seq<Hotkey>)
    requires AllNamed(hs)
    ensures AllParse(hs)
  {
    forall k | 0 <= k < |hs|
      ensures StringToKey(hs[k].code).Some?
    {
      UpperKeepsKeyName(hs[k].code);
    }
  }

  /** Registering hotkeys whose committed pairs name keys makes them ready again. */
  lemma ReadyAfterRegistering(hs: seq<Hotkey>)
    requires Distinct(hs) && AllNamed(hs) && AllDraftsReady(hs) && AllRegistered(hs)
    ensures AllReady(hs)
  {
  }

  lemma AllReadyAppend(hs: seq<Hotkey>, h: Hotkey)
    requires AllReady(hs) && h !in hs && CommittedReady(h) && DraftReady(h)
    ensures AllReady(hs + [h])
  {
  }

  /** `h` carries the `k`-th default action on CTRL and its default letter. */
  predicate IsDefault(h: Hotkey, k: nat)
    requires k < 8
    reads h`actionLabel, h`modifier, h`code, h`tmpModifier, h`tmpCode
  {
    && h.actionLabel == DefaultActions[k] && h.modifier == "CTRL" && h.code == [DefaultKeys[k]]
    && h.tmpModifier == h.modifier && h.tmpCode == h.code
  }

  lemma DefaultsAppend(hs: seq<Hotkey>, h: Hotkey)
    requires |hs| < 8 && IsDefault(h, |hs|)
    requires forall k :: 0 <= k < |hs| ==> IsDefault(hs[k], k)
    ensures forall k :: 0 <= k <= |hs| ==> IsDefault((hs + [h])[k], k)
  {
  }

  /** The `k`-th default hotkey: the action `DefaultActions[k]` on CTRL and the letter `DefaultKeys[k]`. */
  method NewDefaultHotkey(k: nat) returns (h: Hotkey)
    requires k < 8
    ensures fresh(h) && CommittedReady(h) && DraftReady(h)
    ensures IsDefault(h, k)
  {
    UpperKeepsKeyName([DefaultKeys[k]]);
    h := new Hotkey(DefaultActions[k], "CTRL", [DefaultKeys[k]]);
  }

  /**
   * The eight hotkeys of `SnapRustApp::default`, in order, one per entry of
   * the two tables above.
   */
  method DefaultHotkeys() returns (hs: seq<Hotkey>)
    ensures AllReady(hs) && fresh(set h | h in hs)
    ensures |hs| == 8
    ensures forall k :: 0 <= k < 8 ==> IsDefault(hs[k], k)
  {
    hs := [];
    for n := 0 to 8
      invariant |hs| == n && AllReady(hs) && fresh(set h | h in hs)
      invariant forall k :: 0 <= k < n ==> IsDefault(hs[k], k)
    {
      var h := NewDefaultHotkey(n);
      AllReadyAppend(hs, h);
      DefaultsAppend(hs, h);
      hs := hs + [h];
    }
  }

  class SnapRustApp {
    var snapshot: Option<Image>
    var snapshotsUndo: seq<Image>
    var snapshotsRedo: seq<Image>
    var showSettings: bool
    /** The credits page replaces the image, like the settings panel. */
    var showCredits: bool
    var showTools: bool
    var tool: Tool
    /** A drag is in progress and `lastPos` holds where it started or last drew. */
    var tooling: bool
    var penSize: nat
    var lastPos: Point
    var currentPos: Point
    /** The hotkey records; the list itself never changes, the records are updated in place. */
    const hotkeys: seq<Hotkey>
    var validHotkeys: bool

    function Hotkeys(): set<Hotkey>
    {
      set h | h in hotkeys
    }

    function CurrentSession(): Session
      reads this`snapshot, this`snapshotsUndo, this`snapshotsRedo
    {
      Session(snapshot, snapshotsUndo, snapshotsRedo)
    }

    /** The draft chords the settings panel shows, the committed chords, and the registered bindings. */
    function Drafts(): seq<Draft>
      reads hotkeys`tmpModifier, hotkeys`tmpCode
    {
      DraftsOf(hotkeys)
    }

    function Committed(): seq<Draft>
      reads hotkeys`modifier, hotkeys`code
    {
      CommittedOf(hotkeys)
    }

    function Bindings(): seq<Binding>
      reads hotkeys`registered, hotkeys`actionLabel
    {
      BindingsOf(hotkeys)
    }

    /**
     * The central panel shows the image, neither settings nor credits
     * covering it, and a tool is selected: the only state in which the
     * editing handlers below run.
     */
    predicate Editing()
      reads this`showSettings, this`showCredits, this`snapshot, this`tool
    {
      !showSettings && !showCredits && snapshot.Some? && tool != Tool.None
    }

    /** The top panel, with its settings, credits and tools buttons, is shown. */
    predicate TopPanelShown()
      reads this`showSettings, this`showCredits
    {
      !showSettings && !showCredits
    }

    /**
     * The invariant every method keeps: the history is consistent, the pen
     * size is in range, and the hotkeys are ready.
     */
    predicate Valid()
      reads this`snapshot, this`snapshotsUndo, this`snapshotsRedo, this`penSize
      reads hotkeys`modifier, hotkeys`code, hotkeys`registered, hotkeys`tmpModifier, hotkeys`tmpCode
    {
      Consistent(CurrentSession()) && MinPenSize <= penSize <= MaxPenSize && AllReady(hotkeys)
    }

    /**
     * `SnapRustApp::new`: no image and no history, no tool, pen size 1, and
     * the eight default hotkeys, all on CTRL, registered.
     */
    constructor()
      ensures Valid() && fresh(Hotkeys())
      ensures snapshot == Option.None && snapshotsUndo == [] && snapshotsRedo == []
      ensures tool == Tool.None && !tooling && penSize == 1
      ensures lastPos == (0, 0) && currentPos == (0, 0)
      ensures !showSettings && !showCredits && !showTools && validHotkeys
      ensures |hotkeys| == 8 && forall k :: 0 <= k < 8 ==> IsDefault(hotkeys[k], k)
    {
      var hs := DefaultHotkeys();
      snapshot := Option.None;
      snapshotsUndo := [];
      snapshotsRedo := [];
      showSettings := false;
      showCredits := false;
      showTools := false;
      tool := Tool.None;
      tooling := false;
      penSize := 1;
      lastPos := (0, 0);
      currentPos := (0, 0);
      hotkeys := hs;
      validHotkeys := true;
    }

    /** `undo`, on the fields: the transition History.Undo. */
    method Undo()
      requires Valid()
      modifies this`snapshot, this`snapshotsUndo, this`snapshotsRedo
      ensures Valid()
      ensures CurrentSession() == History.Undo(old(CurrentSession()))
    {
      if |snapshotsUndo| > 1 {
        var back := snapshotsUndo[|snapshotsUndo| - 1];
        snapshotsUndo := snapshotsUndo[..|snapshotsUndo| - 1];
        snapshotsRedo := [back] + snapshotsRedo;
        snapshot := Some(snapshotsUndo[|snapshotsUndo| - 1]);
      }
    }

    /** `redo`, on the fields: the transition History.Redo. */
    method Redo()
      requires Valid()
      modifies this`snapshot, this`snapshotsUndo, this`snapshotsRedo
      ensures Valid()
      ensures CurrentSession() == History.Redo(old(CurrentSession()))
    {
      if |snapshotsRedo| > 0 {
        var front := snapshotsRedo[0];
        snapshotsRedo := snapshotsRedo[1..];
        snapshotsUndo := snapshotsUndo + [front];
        snapshot := Some(snapshotsUndo[|snapshotsUndo| - 1]);
      }
    }

    /**
     * A captured image arriving from the capture thread: the history is
     * reseeded with it. The tool and the hotkeys are untouched.
     */
    method OnCaptureArrived(img: Image)
      requires Valid()
      modifies this`snapshot, this`snapshotsUndo, this`snapshotsRedo
      ensures Valid()
      ensures CurrentSession() == CaptureArrived(old(CurrentSession()), img)
    {
      snapshotsUndo := [];
      snapshotsRedo := [];
      snapshot := Some(img);
      snapshotsUndo := snapshotsUndo + [img];
    }

    /**
     * A frame of a drag over the image. The first frame of a drag records
     * where it started; every frame records the pointer, and with the pen a
     * stroke from the last position to the pointer is drawn on the image
     * shown, which leaves the history itself alone until the drag ends.
     * `hover` is the pointer relative to the image widget, if it is over it;
     * `toImage` maps a widget position to image pixels and `draw` stands for
     * `draw_line` with the pen size.
     */
    method OnDragged(hover: Option<Point>, toImage: Point -> Point, draw: (Image, Point, Point, nat) -> Image)
      requires Valid() && Editing()
      modifies this`snapshot, this`tooling, this`lastPos, this`currentPos
      ensures Valid() && Editing() && tooling
      ensures currentPos == (if hover.Some? then hover.value else old(currentPos))
      ensures var start := if !old(tooling) && hover.Some? then hover.value else old(lastPos);
        if tool == Pen then
          && snapshot == Some(draw(old(snapshot).value, toImage(start), toImage(currentPos), penSize))
          && lastPos == currentPos
        else
          snapshot == old(snapshot) && lastPos == start
    {
      if !tooling {
        lastPos := if hover.Some? then hover.value else lastPos;
        tooling := true;
      }
      currentPos := if hover.Some? then hover.value else currentPos;
      if tool == Pen {
        snapshot := Some(draw(snapshot.value, toImage(lastPos), toImage(currentPos), penSize));
        lastPos := currentPos;
      }
    }

    /**
     * The end of a drag: with the pen the drawn image becomes a checkpoint;
     * with the crop tool the image is cropped to the rectangle between the
     * two drag positions, normalised to start at its top-left corner, and the
     * crop becomes a checkpoint. `crop` stands for `crop_imm`.
     */
    method OnDragReleased(toImage: Point -> Point, crop: (Image, CropRect) -> Image)
      requires Valid() && Editing()
      modifies this`snapshot, this`snapshotsUndo, this`snapshotsRedo
      ensures Valid() && Editing()
      ensures CurrentSession()
        == Release(old(CurrentSession()), tool, NormaliseCrop(toImage(lastPos), toImage(currentPos)), crop)
    {
      if tool == Pen {
        snapshotsUndo := snapshotsUndo + [snapshot.value];
        snapshotsRedo := [];
      } else if tool == Crop {
        var rect := CropRectOf(toImage(lastPos), toImage(currentPos));
        var cropped := crop(snapshot.value, rect);
        snapshot := Some(cropped);
        snapshotsUndo := snapshotsUndo + [cropped];
        snapshotsRedo := [];
      }
    }

    /** A frame with no drag and no release: the next drag starts afresh. */
    method OnPointerIdle()
      requires Valid() && Editing()
      modifies this`tooling
      ensures Valid() && !tooling
    {
      tooling := false;
    }

    /**
     * The pen-size field of the side panel after it was set to `n`: clamped
     * to [1, 30]. The field is there only while the side panel is shown and
     * the pen is the tool.
     */
    method SetPenSize(n: nat)
      requires Valid() && showTools && tool == Pen
      modifies this`penSize
      ensures Valid()
      ensures penSize == ClampPenSize(n)
    {
      penSize := n;
      if penSize < 1 {
        penSize := 1;
      }
      if penSize > 30 {
        penSize := 30;
      }
    }

    /** The loop of the settings button: every draft becomes a copy of its committed pair. */
    method ResetDrafts()
      requires AllReady(hotkeys)
      modifies hotkeys`tmpModifier, hotkeys`tmpCode
      ensures AllReady(hotkeys)
      ensures Drafts() == Committed()
    {
      var hs := hotkeys;
      for n := 0 to |hs|
        invariant forall k :: 0 <= k < n ==> hs[k].tmpCode == hs[k].code && hs[k].tmpModifier == hs[k].modifier
      {
        hs[n].tmpCode := hs[n].code;
        hs[n].tmpModifier := hs[n].modifier;
      }
    }

    /** Opening the settings panel: the drafts are reset and the tools panel gives way to it. */
    method OpenSettings()
      requires Valid() && TopPanelShown()
      modifies this`showTools, this`showSettings, hotkeys`tmpModifier, hotkeys`tmpCode
      ensures Valid() && showSettings && !showTools
      ensures Drafts() == Committed()
    {
      ResetDrafts();
      showTools := false;
      showSettings := true;
    }

    /** The credits button: the tools panel gives way to the credits page. */
    method OpenCredits()
      requires Valid() && TopPanelShown()
      modifies this`showTools, this`showCredits
      ensures Valid() && showCredits && !showTools && !TopPanelShown()
    {
      showTools := false;
      showCredits := true;
    }

    /** The "Back" button of the credits page: the image and the top panel come back. */
    method CloseCredits()
      requires Valid() && showCredits && !showSettings
      modifies this`showCredits
      ensures Valid() && TopPanelShown()
    {
      showCredits := false;
    }

    /** The tools toggle, offered once there is a checkpoint: the side panel is shown or hidden. */
    method ToggleTools()
      requires Valid() && TopPanelShown() && |snapshotsUndo| > 0
      modifies this`showTools
      ensures Valid() && showTools == !old(showTools)
    {
      showTools := !showTools;
    }

    /** Choosing a modifier for hotkey `k` in its drop-down. */
    method EditDraftModifier(k: nat, m: Modifier)
      requires Valid() && showSettings && k < |hotkeys|
      modifies hotkeys[k..k + 1]`tmpModifier
      ensures Valid()
      ensures Drafts() == old(Drafts())[k := (ModifierName(m), old(Drafts())[k].1)]
    {
      hotkeys[k].tmpModifier := ModifierName(m);
    }

    /**
     * Editing the key box of hotkey `k`, which now holds `edited`. The box
     * is normalised with the corrected edit, so it keeps naming a key.
     */
    method EditDraftKey(k: nat, edited: string)
      requires Valid() && showSettings && k < |hotkeys|
      modifies hotkeys[k..k + 1]`tmpCode
      ensures Valid()
      ensures Drafts() == old(Drafts())[k := (old(Drafts())[k].0, KeyEdit(old(Drafts())[k].1, edited))]
    {
      hotkeys[k].tmpCode := KeyEdit(hotkeys[k].tmpCode, edited);
    }

    /** The commit loop of "Apply": every hotkey's committed pair becomes its draft pair. */
    method CommitDrafts()
      requires AllReady(hotkeys)
      modifies hotkeys`modifier, hotkeys`code
      ensures AllNamed(hotkeys) && AllDraftsReady(hotkeys)
      ensures Committed() == old(Drafts())
    {
      var hs := hotkeys;
      for n := 0 to |hs|
        invariant forall k :: 0 <= k < n ==> hs[k].modifier == hs[k].tmpModifier && hs[k].code == hs[k].tmpCode
      {
        hs[n].modifier := hs[n].tmpModifier;
        hs[n].code := hs[n].tmpCode;
      }
    }

    /** `register_hotkeys`, for its effect on the records: each hotkey registers its committed pair. */
    method RegisterHotkeys()
      requires AllParse(hotkeys)
      modifies hotkeys`registered
      ensures AllRegistered(hotkeys)
      ensures AllNamed(hotkeys) == old(AllNamed(hotkeys)) && AllDraftsReady(hotkeys) == old(AllDraftsReady(hotkeys))
    {
      var hs := hotkeys;
      for n := 0 to |hs|
        invariant forall k :: 0 <= k < n ==> hs[k].Valid()
      {
        hs[n].Register();
      }
    }

    /** The branch of "Apply" taken when the drafts are distinct: commit every draft, then register every hotkey. */
    method CommitAndRegister()
      requires AllReady(hotkeys)
      modifies hotkeys`modifier, hotkeys`code, hotkeys`registered
      ensures AllReady(hotkeys)
      ensures Committed() == old(Drafts())
    {
      CommitDrafts();
      NamedParse(hotkeys);
      RegisterHotkeys();
      ReadyAfterRegistering(hotkeys);
    }

    /**
     * "Apply": the draft chords are checked for duplicates; only if there
     * are none is every draft committed and registered and the panel closed.
     * `validHotkeys` records the outcome, and the drafts are kept either way.
     */
    method Apply()
      requires Valid() && showSettings
      modifies this`showSettings, this`validHotkeys, hotkeys`modifier, hotkeys`code, hotkeys`registered
      ensures Valid()
      ensures validHotkeys <==> PairwiseDistinct(old(Drafts()))
      ensures validHotkeys ==> Committed() == old(Drafts()) && !showSettings
      ensures !validHotkeys ==> Committed() == old(Committed()) && Bindings() == old(Bindings()) && showSettings == old(showSettings)
    {
      var valid := DraftChordsDistinct(Drafts());
      if valid {
        CommitAndRegister();
        showSettings := false;
      }
      validHotkeys := valid;
    }

    /** "Cancel": the panel closes and the warning is cleared; the drafts stay as they are. */
    method Cancel()
      requires Valid() && showSettings
      modifies this`validHotkeys, this`showSettings
      ensures Valid() && validHotkeys && !showSettings
    {
      validHotkeys := true;
      showSettings := false;
    }

    /** The command a press of `fired` stands for in the current state. */
    function PressedCommand(fired: HotKey): Command
      reads this`snapshot, hotkeys`registered, hotkeys`actionLabel
    {
      Dispatch(LastMatch(Bindings(), fired), snapshot.Some?)
    }

    /** Carrying out a command; the requests leave the fields alone. */
    method Perform(command: Command) returns (request: Request)
      requires Valid()
      modifies this`tool, this`snapshot, this`snapshotsUndo, this`snapshotsRedo
      ensures Valid()
      ensures request == RequestOf(command) && tool == ToolAfter(command, old(tool))
      ensures CurrentSession() == SessionAfter(command, old(CurrentSession()))
    {
      request := NoRequest;
      match command
      case Idle =>
      case Ask(r) => request := r;
      case SelectTool(t) => tool := t;
      case StepBack => Undo();
      case StepForward => Redo();
    }

    /**
     * A pressed hotkey: the fired chord is resolved to the label of the last
     * hotkey registered on it, and the command that label stands for is
     * carried out.
     */
    method OnHotkeyPressed(fired: HotKey) returns (request: Request)
      requires Valid()
      modifies this`tool, this`snapshot, this`snapshotsUndo, this`snapshotsRedo
      ensures Valid()
      ensures request == RequestOf(old(PressedCommand(fired)))
      ensures tool == ToolAfter(old(PressedCommand(fired)), old(tool))
      ensures CurrentSession() == SessionAfter(old(PressedCommand(fired)), old(CurrentSession()))
    {
      var action := Resolve(Bindings(), fired);
      var command := Dispatch(action, snapshot.Some?);
      request := Perform(command);
    }
  }
}
