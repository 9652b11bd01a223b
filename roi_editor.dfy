/**
  The interactive part of `ROIEditor` in debug_rois.py: resize-handle hit
  testing, the mouse-driven modes and the key handling, over the commands and
  stacks of `RoiCommands`. Coordinates are integers at a display scale of 1.
 */
module RoiEditor {
  import opened Text
  import opened RoiCommands

  datatype Mode = Idle | Drawing | Naming | Moving | Resizing

  function Abs(n: int): nat {
    if n < 0 then -n else n
  }

  function Min(a: int, b: int): int {
    if a <= b then a else b
  }

  function Max(a: int, b: int): int {
    if a >= b then a else b
  }

  // ---------------------------------------------------------------------------
  // Resize handles
  // ---------------------------------------------------------------------------

  datatype Handle = TL | TR | BL | BR | T | B | L | R

  /** The key of the handle in the `handles` dictionary of `get_handle_at`. */
  function HandleName(h: Handle): string {
    match h
    case TL => "tl"
    case TR => "tr"
    case BL => "bl"
    case BR => "br"
    case T => "t"
    case B => "b"
    case L => "l"
    case R => "r"
  }

  /** The dictionary's order, in which the handles are tried. */
  const HandleOrder: seq<Handle> := [TL, TR, BL, BR, T, B, L, R]

  /** The position of a handle in `HandleOrder`. */
  function Rank(h: Handle): (r: nat)
    ensures r < |HandleOrder| && HandleOrder[r] == h
  {
    match h
    case TL => 0
    case TR => 1
    case BL => 2
    case BR => 3
    case T => 4
    case B => 5
    case L => 6
    case R => 7
  }

  /** Where a handle sits on a ROI; the midpoints use floor division by 2. */
  function HandlePoint(h: Handle, roi: Roi): Point {
    var right, bottom := roi.left + roi.width, roi.top + roi.height;
    var midX, midY := roi.left + roi.width / 2, roi.top + roi.height / 2;
    match h
    case TL => Point(roi.left, roi.top)
    case TR => Point(right, roi.top)
    case BL => Point(roi.left, bottom)
    case BR => Point(right, bottom)
    case T => Point(midX, roi.top)
    case B => Point(midX, bottom)
    case L => Point(roi.left, midY)
    case R => Point(right, midY)
  }

  const Threshold := 10

  /** Strictly closer than the threshold on both axes. */
  predicate Near(p: Point, q: Point) {
    Abs(p.x - q.x) < Threshold && Abs(p.y - q.y) < Threshold
  }

  /** The index of the first handle of `hs` near `p`. */
  function FirstNear(hs: seq<Handle>, p: Point, roi: Roi): (r: Option<nat>)
    ensures r.Some? ==> r.value < |hs| && Near(p, HandlePoint(hs[r.value], roi))
    ensures forall j :: 0 <= j < |hs| && (r.None? || j < r.value) ==> !Near(p, HandlePoint(hs[j], roi))
  {
    if hs == [] then None
    else if Near(p, HandlePoint(hs[0], roi)) then Some(0)
    else match FirstNear(hs[1..], p, roi)
      case None => None
      case Some(i) => Some(i + 1)
  }

  /**
    The handle `get_handle_at` returns: the first one, in the order tl, tr, bl,
    br, t, b, l, r, whose point is near `p`; `None` when no handle is.
   */
  function HandleAt(p: Point, roi: Roi): (r: Option<Handle>)
    ensures r.None? <==> forall h: Handle :: !Near(p, HandlePoint(h, roi))
    ensures r.Some? ==> Near(p, HandlePoint(r.value, roi))
    ensures r.Some? ==> forall h: Handle :: Rank(h) < Rank(r.value) ==> !Near(p, HandlePoint(h, roi))
  {
    match FirstNear(HandleOrder, p, roi)
    case None =>
      forall h: Handle ensures !Near(p, HandlePoint(h, roi)) {
        assert HandleOrder[Rank(h)] == h;
      }
      None
    case Some(i) =>
      assert Rank(HandleOrder[i]) == i by {
        assert 0 <= i < 8;
      }
      Some(HandleOrder[i])
  }

  /** `'l' in handle`, and likewise for the other three sides. */
  predicate HasSide(h: Handle, side: char) {
    side in HandleName(h)
  }

  /** The substring tests pick out exactly the handles on each side. */
  lemma HandleSides(h: Handle)
    ensures HasSide(h, 'l') <==> h in {TL, BL, L}
    ensures HasSide(h, 'r') <==> h in {TR, BR, R}
    ensures HasSide(h, 't') <==> h in {TL, TR, T}
    ensures HasSide(h, 'b') <==> h in {BL, BR, B}
  {
  }

  /** The least ROI side `resize_roi` leaves. */
  const MinSide := 10

  /**
    `resize_roi`: the ROI `roi`, dragged since `orig` was copied, with handle `h`
    brought to `p`.
   */
  function Resized(roi: Roi, orig: Roi, h: Handle, p: Point): (r: Roi)
    ensures HasSide(h, 'l') ==>
      r.left + r.width == orig.left + orig.width && r.width >= MinSide
      && (p.x <= orig.left + orig.width - MinSide ==> r.left == p.x)
    ensures !HasSide(h, 'l') && HasSide(h, 'r') ==>
      r.left == roi.left && r.width == Max(MinSide, p.x - roi.left)
    ensures !HasSide(h, 'l') && !HasSide(h, 'r') ==> r.left == roi.left && r.width == roi.width
    ensures HasSide(h, 't') ==>
      r.top + r.height == orig.top + orig.height && r.height >= MinSide
      && (p.y <= orig.top + orig.height - MinSide ==> r.top == p.y)
    ensures !HasSide(h, 't') && HasSide(h, 'b') ==>
      r.top == roi.top && r.height == Max(MinSide, p.y - roi.top)
    ensures !HasSide(h, 't') && !HasSide(h, 'b') ==> r.top == roi.top && r.height == roi.height
  {
    var across :=
      if HasSide(h, 'l') then
        var newLeft := Min(p.x, orig.left + orig.width - MinSide);
        roi.(width := orig.left + orig.width - newLeft, left := newLeft)
      else if HasSide(h, 'r') then roi.(width := Max(MinSide, p.x - roi.left))
      else roi;
    if HasSide(h, 't') then
      var newTop := Min(p.y, orig.top + orig.height - MinSide);
      across.(height := orig.top + orig.height - newTop, top := newTop)
    else if HasSide(h, 'b') then across.(height := Max(MinSide, p.y - across.top))
    else across
  }

  /** The rectangle a release draws: its corners are the press point and the release point. */
  function DrawnRect(a: Point, b: Point): (r: Roi)
    ensures r.width >= 0 && r.height >= 0
    ensures (r.left == a.x && r.left + r.width == b.x) || (r.left == b.x && r.left + r.width == a.x)
    ensures (r.top == a.y && r.top + r.height == b.y) || (r.top == b.y && r.top + r.height == a.y)
  {
    Roi(Min(a.x, b.x), Min(a.y, b.y), Abs(a.x - b.x), Abs(a.y - b.y))
  }

  /** `rx <= x <= rx + rw and ry <= y <= ry + rh` */
  predicate Hits(boxes: map<string, Roi>, n: string, p: Point) {
    n in boxes && boxes[n].left <= p.x <= boxes[n].left + boxes[n].width
    && boxes[n].top <= p.y <= boxes[n].top + boxes[n].height
  }

  /** The index of the first name, in dictionary order, whose ROI contains `p`. */
  function FirstHit(names: seq<string>, boxes: map<string, Roi>, p: Point): (r: Option<nat>)
    ensures r.Some? ==> r.value < |names| && Hits(boxes, names[r.value], p)
    ensures forall j :: 0 <= j < |names| && (r.None? || j < r.value) ==> !Hits(boxes, names[j], p)
  {
    if names == [] then None
    else if Hits(boxes, names[0], p) then Some(0)
    else match FirstHit(names[1..], boxes, p)
      case None => None
      case Some(i) => Some(i + 1)
  }

  /** The ROI a press at `p` lands in, the first in dictionary order. */
  function RoiAt(d: Rois, p: Point): Option<string> {
    match FirstHit(d.names, d.boxes, p)
    case None => None
    case Some(i) => Some(d.names[i])
  }

  // ---------------------------------------------------------------------------
  // The editor
  // ---------------------------------------------------------------------------

  datatype MouseEvent = LeftButtonDown | MouseMove | LeftButtonUp | OtherMouseEvent

  const KeyNone := -1
  const KeyEnter := 13
  const KeyEscape := 27
  const KeyBackspace := 8
  const KeyUndo := 26
  const KeyRedo := 25
  const KeyQuit := 113
  const KeySave := 115
  const KeyHelp := 104
  const KeyDelete := 100
  const KeyOcr := 111
  /** The naming buffer accepts no character beyond this length. */
  const MaxName := 30

  class Editor {
    /** `history.rois`, `undo_stack` and `redo_stack`, which only ever change together through commands or a drag. */
    var history: History
    var mode: Mode
    /** `selected_roi`; a selected name is never empty, so Python's truth test is `Some?`. */
    var selected: Option<string>
    var drawingStart: Option<Point>
    var drawingCurrent: Option<Point>
    var showHelp: bool
    var namingBuffer: string
    var tempRoi: Option<Roi>
    var lastKey: int
    var dragStart: Option<Point>
    var dragOriginal: Option<Roi>
    var resizeHandle: Option<Handle>
    var ocrPreview: bool

    ghost predicate Valid()
      reads this
    {
      history.Valid() && UiValid()
    }

    /** What the mouse and key handlers rely on of the interface fields. */
    ghost predicate UiValid()
      reads this`selected, this`mode, this`drawingStart, this`tempRoi, this`dragStart, this`dragOriginal
      reads this`resizeHandle, this`namingBuffer
    {
      && (selected.Some? ==> selected.value != "")
      && (mode == Drawing ==> drawingStart.Some?)
      && (mode == Naming ==> tempRoi.Some?)
      && (mode == Moving ==> dragStart.Some? && dragOriginal.Some?)
      && (mode == Resizing ==> dragStart.Some? && dragOriginal.Some? && resizeHandle.Some?)
      && |namingBuffer| <= MaxName
    }

    /** `__init__` with `loaded` the dictionary `load_rois` read. */
    constructor (loaded: Rois)
      requires loaded.WellFormed()
      ensures Valid()
      ensures history == History(loaded, [], [])
      ensures mode == Idle && selected == None && drawingStart == None && drawingCurrent == None
      ensures !showHelp && namingBuffer == "" && tempRoi == None && lastKey == KeyNone
      ensures dragStart == None && dragOriginal == None && resizeHandle == None && !ocrPreview
    {
      history := History(loaded, [], []);
      mode := Idle;
      selected := None;
      drawingStart := None;
      drawingCurrent := None;
      showHelp := false;
      namingBuffer := "";
      tempRoi := None;
      lastKey := KeyNone;
      dragStart := None;
      dragOriginal := None;
      resizeHandle := None;
      ocrPreview := false;
    }

    /** `execute_command` */
    method ExecuteCommand(c: Command)
      requires Valid()
      modifies this`history
      ensures Valid()
      ensures history == Perform(old(history), c)
    {
      assert Perform(history, c).Valid() by {
        PerformValid(history, c);
      }
      history := Perform(history, c);
    }

    /** `undo` */
    method Undo()
      requires Valid()
      modifies this`history
      ensures Valid()
      ensures history == UndoStep(old(history))
    {
      assert UndoStep(history).Valid() by {
        UndoValid(history);
      }
      history := UndoStep(history);
    }

    /** `redo` */
    method Redo()
      requires Valid()
      modifies this`history
      ensures Valid()
      ensures history == RedoStep(old(history))
    {
      assert RedoStep(history).Valid() by {
        RedoValid(history);
      }
      history := RedoStep(history);
    }

    /** `get_handle_at`: the dictionary of handle points searched in order. */
    method GetHandleAt(p: Point, roi: Roi) returns (h: Option<Handle>)
      ensures h == HandleAt(p, roi)
    {
      var i := 0;
      while i < |HandleOrder|
        invariant 0 <= i <= |HandleOrder|
        invariant forall j :: 0 <= j < i ==> !Near(p, HandlePoint(HandleOrder[j], roi))
      {
        if Near(p, HandlePoint(HandleOrder[i], roi)) {
          return Some(HandleOrder[i]);
        }
        i := i + 1;
      }
      return None;
    }

    /** The search loop of a left-button press for the ROI under the pointer. */
    method ClickedRoi(p: Point) returns (clicked: Option<string>)
      ensures clicked == RoiAt(history.rois, p)
    {
      var i := 0;
      while i < |history.rois.names|
        invariant 0 <= i <= |history.rois.names|
        invariant forall j :: 0 <= j < i ==> !Hits(history.rois.boxes, history.rois.names[j], p)
      {
        if Hits(history.rois.boxes, history.rois.names[i], p) {
          return Some(history.rois.names[i]);
        }
        i := i + 1;
      }
      return None;
    }

    /** A press on a handle of the selected ROI starts RESIZING it from its current bounds. */
    twostate predicate PressedHandle(p: Point)
      reads this
    {
      var s := old(selected);
      && s.Some? && s.value in history.rois.boxes
      && mode == Resizing && resizeHandle == HandleAt(p, history.rois.boxes[s.value])
      && dragStart == Some(p) && dragOriginal == Some(history.rois.boxes[s.value])
      && selected == s && drawingStart == old(drawingStart) && drawingCurrent == old(drawingCurrent)
    }

    /** A press inside a ROI selects the first such ROI and starts MOVING it. */
    twostate predicate PressedRoi(p: Point, n: string)
      reads this
    {
      && n in history.rois.boxes
      && mode == Moving && selected == Some(n)
      && dragStart == Some(p) && dragOriginal == Some(history.rois.boxes[n])
      && resizeHandle == old(resizeHandle)
      && drawingStart == old(drawingStart) && drawingCurrent == old(drawingCurrent)
    }

    /** A press elsewhere clears the selection and starts DRAWING from the press point. */
    twostate predicate PressedEmpty(p: Point)
      reads this
    {
      && mode == Drawing && selected == None
      && drawingStart == Some(p) && drawingCurrent == Some(p)
      && resizeHandle == old(resizeHandle)
      && dragStart == old(dragStart) && dragOriginal == old(dragOriginal)
    }

    /**
      `mouse_callback` for `EVENT_LBUTTONDOWN` outside NAMING mode: a handle of
      the selected ROI starts a resize, else the first ROI under the point
      starts a move, else a rectangle is started; the ROIs and the key state
      are untouched.
     */
    twostate predicate Pressed(p: Point)
      reads this
    {
      var s := old(selected);
      var grab := s.Some? && s.value in old(history.rois).boxes && HandleAt(p, old(history.rois).boxes[s.value]).Some?;
      var hit := RoiAt(old(history.rois), p);
      && history == old(history)
      && showHelp == old(showHelp) && namingBuffer == old(namingBuffer) && tempRoi == old(tempRoi)
      && lastKey == old(lastKey) && ocrPreview == old(ocrPreview)
      && (grab ==> PressedHandle(p))
      && (!grab && hit.Some? && hit.value != "" ==> PressedRoi(p, hit.value))
      && (!grab && (hit.None? || hit.value == "") ==> PressedEmpty(p))
    }

    method Press(p: Point)
      requires Valid()
      modifies this`mode, this`resizeHandle, this`dragStart, this`dragOriginal
      modifies this`selected, this`drawingStart, this`drawingCurrent
      ensures Valid()
      ensures Pressed(p)
    {
      if selected.Some? && selected.value in history.rois.boxes {
        var h := GetHandleAt(p, history.rois.boxes[selected.value]);
        if h.Some? {
          StartResize(p, h.value);
          return;
        }
      }
      var clicked := ClickedRoi(p);
      if clicked.Some? && clicked.value != "" {
        FirstHitIsName(history.rois, p);
        StartMove(p, clicked.value);
      } else {
        StartDraw(p);
      }
    }

    /** The press branch that grabs handle `h` of the selected ROI. */
    method StartResize(p: Point, h: Handle)
      requires Valid() && selected.Some? && selected.value in history.rois.boxes
      modifies this`mode, this`resizeHandle, this`dragStart, this`dragOriginal
      ensures Valid()
      ensures mode == Resizing && resizeHandle == Some(h)
      ensures dragStart == Some(p) && dragOriginal == Some(history.rois.boxes[selected.value])
    {
      mode := Resizing;
      resizeHandle := Some(h);
      dragStart := Some(p);
      dragOriginal := Some(history.rois.boxes[selected.value]);
    }

    /** The press branch that selects the ROI `n` and starts moving it. */
    method StartMove(p: Point, n: string)
      requires Valid() && n in history.rois.boxes && n != ""
      modifies this`selected, this`mode, this`dragStart, this`dragOriginal
      ensures Valid()
      ensures mode == Moving && selected == Some(n)
      ensures dragStart == Some(p) && dragOriginal == Some(history.rois.boxes[n])
    {
      selected := Some(n);
      mode := Moving;
      dragStart := Some(p);
      dragOriginal := Some(history.rois.boxes[n]);
    }

    /** The press branch that starts drawing a new rectangle at `p`. */
    method StartDraw(p: Point)
      requires Valid()
      modifies this`mode, this`drawingStart, this`drawingCurrent, this`selected
      ensures Valid()
      ensures mode == Drawing && selected == None && drawingStart == Some(p) && drawingCurrent == Some(p)
    {
      mode := Drawing;
      drawingStart := Some(p);
      drawingCurrent := Some(p);
      selected := None;
    }

    /** `resize_roi`; `false` where the source raises `KeyError` for a selected name no longer present. */
    method ResizeRoi(p: Point) returns (ok: bool)
      requires Valid() && selected.Some? && dragOriginal.Some? && resizeHandle.Some?
      modifies this`history
      ensures Valid()
      ensures history.undo == old(history.undo) && history.redo == old(history.redo)
      ensures ok <==> selected.value in old(history.rois).boxes
      ensures ok ==> history.rois == Put(old(history.rois), selected.value,
        Resized(old(history.rois).boxes[selected.value], dragOriginal.value, resizeHandle.value, p))
      ensures !ok ==> history.rois == old(history.rois)
    {
      var name := selected.value;
      if name !in history.rois.boxes {
        return false;
      }
      var r := Resized(history.rois.boxes[name], dragOriginal.value, resizeHandle.value, p);
      PutWellFormed(history.rois, name, r);
      history := history.(rois := Put(history.rois, name, r));
      return true;
    }

    /**
      `mouse_callback` for `EVENT_MOUSEMOVE` outside NAMING mode: a drawing
      tracks the point, a move places the record at its original position plus
      the pointer's offset, clamped at 0, and a resize applies `resize_roi`;
      `ok` is false where the source raises `KeyError` for a selected name no
      longer present. Nothing else changes.
     */
    twostate predicate Dragged(p: Point, ok: bool)
      reads this
    {
      var m, s, d := old(mode), old(selected), old(history.rois);
      && mode == m && selected == s && drawingStart == old(drawingStart)
      && showHelp == old(showHelp) && namingBuffer == old(namingBuffer) && tempRoi == old(tempRoi)
      && lastKey == old(lastKey) && ocrPreview == old(ocrPreview)
      && dragStart == old(dragStart) && dragOriginal == old(dragOriginal) && resizeHandle == old(resizeHandle)
      && history.undo == old(history.undo) && history.redo == old(history.redo)
      && (m == Drawing ==> ok && drawingCurrent == Some(p) && history.rois == d)
      && (m == Moving && s.Some? ==>
            && dragStart.Some? && dragOriginal.Some?
            && drawingCurrent == old(drawingCurrent)
            && (ok <==> s.value in d.boxes)
            && (ok ==> history.rois == Put(d, s.value, d.boxes[s.value].(
                  left := Max(0, dragOriginal.value.left + p.x - dragStart.value.x),
                  top := Max(0, dragOriginal.value.top + p.y - dragStart.value.y))))
            && (!ok ==> history.rois == d))
      && (m == Resizing && s.Some? ==>
            && dragOriginal.Some? && resizeHandle.Some?
            && drawingCurrent == old(drawingCurrent)
            && (ok <==> s.value in d.boxes)
            && (ok ==> history.rois == Put(d, s.value,
                  Resized(d.boxes[s.value], dragOriginal.value, resizeHandle.value, p)))
            && (!ok ==> history.rois == d))
      && (m != Drawing && !(m in {Moving, Resizing} && s.Some?) ==>
            ok && history.rois == d && drawingCurrent == old(drawingCurrent))
    }

    method Drag(p: Point) returns (ok: bool)
      requires Valid()
      modifies this`history, this`drawingCurrent
      ensures Valid()
      ensures Dragged(p, ok)
    {
      ok := true;
      if mode == Drawing {
        drawingCurrent := Some(p);
      } else if mode == Moving && selected.Some? {
        var name := selected.value;
        if name !in history.rois.boxes {
          return false;
        }
        var moved := history.rois.boxes[name].(
          left := Max(0, dragOriginal.value.left + p.x - dragStart.value.x),
          top := Max(0, dragOriginal.value.top + p.y - dragStart.value.y));
        PutWellFormed(history.rois, name, moved);
        history := history.(rois := Put(history.rois, name, moved));
      } else if mode == Resizing && selected.Some? {
        ok := ResizeRoi(p);
      }
    }

    /**
      `mouse_callback` for `EVENT_LBUTTONUP` outside NAMING mode: a drawn
      rectangle over 10 by 10 pixels goes to NAMING, a smaller one back to IDLE;
      a move or resize records one command when it changed the record and
      returns to IDLE; `ok` is false where the source raises `KeyError`.
      Nothing else changes.
     */
    twostate predicate Released(p: Point, ok: bool)
      reads this
    {
      var m, s := old(mode), old(selected);
      && selected == s && dragStart == old(dragStart) && dragOriginal == old(dragOriginal)
      && showHelp == old(showHelp) && lastKey == old(lastKey) && ocrPreview == old(ocrPreview)
      && (m == Drawing ==> ok && DrawReleased(p))
      && (m == Moving && s.Some? ==> MoveReleased(ok))
      && (m == Resizing && s.Some? ==> ResizeReleased(ok))
      && (m != Drawing && !(m in {Moving, Resizing} && s.Some?) ==>
            && ok && mode == m && history == old(history) && resizeHandle == old(resizeHandle)
            && tempRoi == old(tempRoi) && namingBuffer == old(namingBuffer)
            && drawingStart == old(drawingStart) && drawingCurrent == old(drawingCurrent))
    }

    /** The end of a drawing: NAMING for a rectangle over 10 by 10 pixels, else IDLE; the ROIs are untouched. */
    twostate predicate DrawReleased(p: Point)
      reads this
    {
      && old(drawingStart).Some?
      && var r := DrawnRect(old(drawingStart).value, p);
      && history == old(history) && drawingStart == None && drawingCurrent == None
      && resizeHandle == old(resizeHandle)
      && (r.width > 10 && r.height > 10 ==> mode == Naming && tempRoi == Some(r) && namingBuffer == "")
      && (!(r.width > 10 && r.height > 10) ==>
            mode == Idle && tempRoi == old(tempRoi) && namingBuffer == old(namingBuffer))
    }

    /**
      The end of a move of the selected ROI: a `Move` from the original to the
      current position is recorded when they differ, and the mode returns to IDLE.
     */
    twostate predicate MoveReleased(ok: bool)
      reads this
    {
      && old(selected).Some? && old(dragOriginal).Some?
      && var n, orig := old(selected).value, old(dragOriginal).value;
      && (ok <==> n in old(history.rois).boxes)
      && tempRoi == old(tempRoi) && namingBuffer == old(namingBuffer) && resizeHandle == old(resizeHandle)
      && drawingStart == old(drawingStart) && drawingCurrent == old(drawingCurrent)
      && (!ok ==> mode == old(mode) && history == old(history))
      && (ok ==> mode == Idle)
      && (ok ==> var now := old(history.rois).boxes[n];
            history == if (orig.left, orig.top) != (now.left, now.top)
              then Perform(old(history), Move(n, Point(orig.left, orig.top), Point(now.left, now.top)))
              else old(history))
    }

    /**
      The end of a resize of the selected ROI: a `Resize` from the original to
      the current bounds is recorded when they differ, the mode returns to IDLE
      and the handle is released.
     */
    twostate predicate ResizeReleased(ok: bool)
      reads this
    {
      && old(selected).Some? && old(dragOriginal).Some?
      && var n, orig := old(selected).value, old(dragOriginal).value;
      && (ok <==> n in old(history.rois).boxes)
      && tempRoi == old(tempRoi) && namingBuffer == old(namingBuffer)
      && drawingStart == old(drawingStart) && drawingCurrent == old(drawingCurrent)
      && (!ok ==> mode == old(mode) && resizeHandle == old(resizeHandle) && history == old(history))
      && (ok ==> mode == Idle && resizeHandle == None)
      && (ok ==> var now := old(history.rois).boxes[n];
            history == if orig != now then Perform(old(history), Resize(n, orig, now)) else old(history))
    }

    method Release(p: Point) returns (ok: bool)
      requires Valid()
      modifies this`mode, this`tempRoi, this`namingBuffer, this`drawingStart, this`drawingCurrent
      modifies this`history, this`resizeHandle
      ensures Valid()
      ensures Released(p, ok)
    {
      ok := true;
      if mode == Drawing {
        ReleaseDraw(p);
      } else if mode == Moving && selected.Some? {
        ok := ReleaseMove();
      } else if mode == Resizing && selected.Some? {
        ok := ReleaseResize();
      }
    }

    /** The DRAWING branch of the button release. */
    method ReleaseDraw(p: Point)
      requires Valid() && mode == Drawing
      modifies this`mode, this`tempRoi, this`namingBuffer, this`drawingStart, this`drawingCurrent
      ensures Valid()
      ensures DrawReleased(p)
    {
      var r := DrawnRect(drawingStart.value, p);
      if r.width > 10 && r.height > 10 {
        tempRoi := Some(r);
        mode := Naming;
        namingBuffer := "";
      } else {
        mode := Idle;
      }
      drawingStart := None;
      drawingCurrent := None;
    }

    /** The MOVING branch of the button release. */
    method ReleaseMove() returns (ok: bool)
      requires Valid() && mode == Moving && selected.Some?
      modifies this`mode, this`history
      ensures Valid()
      ensures MoveReleased(ok)
    {
      var n, orig := selected.value, dragOriginal.value;
      if n !in history.rois.boxes {
        return false;
      }
      var now := history.rois.boxes[n];
      if (orig.left, orig.top) != (now.left, now.top) {
        ExecuteCommand(Move(n, Point(orig.left, orig.top), Point(now.left, now.top)));
      }
      mode := Idle;
      ok := true;
    }

    /** The RESIZING branch of the button release. */
    method ReleaseResize() returns (ok: bool)
      requires Valid() && mode == Resizing && selected.Some?
      modifies this`mode, this`history, this`resizeHandle
      ensures Valid()
      ensures ResizeReleased(ok)
    {
      var n, orig := selected.value, dragOriginal.value;
      if n !in history.rois.boxes {
        return false;
      }
      var now := history.rois.boxes[n];
      if orig != now {
        ExecuteCommand(Resize(n, orig, now));
      }
      mode := Idle;
      resizeHandle := None;
      ok := true;
    }

    /**
      `mouse_callback`: ignored in NAMING mode, otherwise dispatched on the
      event; `false` where the source raises `KeyError`.
     */
    method MouseCallback(event: MouseEvent, p: Point) returns (ok: bool)
      requires Valid()
      modifies this
      ensures Valid()
      ensures old(mode) == Naming || event == OtherMouseEvent ==> ok && unchanged(this)
      ensures old(mode) != Naming && event == LeftButtonDown ==> ok && Pressed(p)
      ensures old(mode) != Naming && event == MouseMove ==> Dragged(p, ok)
      ensures old(mode) != Naming && event == LeftButtonUp ==> Released(p, ok)
      ensures !ok ==> history == old(history) && mode == old(mode)
    {
      ok := true;
      if mode == Naming {
        return;
      }
      match event {
        case LeftButtonDown => Press(p);
        case MouseMove => ok := Drag(p);
        case LeftButtonUp => ok := Release(p);
        case OtherMouseEvent =>
      }
    }

    /**
      Enter in NAMING mode: a ROI named by the stripped buffer is created and
      selected unless that name is blank; the mode returns to IDLE with the
      buffer and the pending rectangle cleared.
     */
    twostate predicate NameCommitted()
      reads this
    {
      var name := Strip(old(namingBuffer));
      && old(tempRoi).Some?
      && (name != "" ==>
            history == Perform(old(history), Create(name, old(tempRoi).value)) && selected == Some(name))
      && (name == "" ==> history == old(history) && selected == old(selected))
      && mode == Idle && tempRoi == None && namingBuffer == ""
    }

    /**
      Any other key in NAMING mode: Esc leaves the mode with the buffer and the
      pending rectangle cleared, Backspace drops the last character, a printable
      code is appended while the buffer is short; the ROIs are untouched.
     */
    twostate predicate NameEdited(key: int)
      reads this
    {
      && history == old(history) && selected == old(selected)
      && (key == KeyEscape ==> mode == Idle && tempRoi == None && namingBuffer == "")
      && (key == KeyBackspace ==>
            mode == Naming && namingBuffer == old(namingBuffer)[..Max(0, |old(namingBuffer)| - 1)])
      && (32 <= key <= 126 ==>
            && mode == Naming
            && namingBuffer == if |old(namingBuffer)| < MaxName then old(namingBuffer) + [key as char]
                               else old(namingBuffer))
      && (key != KeyEscape && key != KeyBackspace && !(32 <= key <= 126) ==>
            mode == Naming && namingBuffer == old(namingBuffer))
      && (key != KeyEscape ==> tempRoi == old(tempRoi))
    }

    /** What a fresh key does in NAMING mode. */
    twostate predicate NamingKeyDone(key: int)
      reads this
    {
      && lastKey == key
      && (key == KeyEnter ==> NameCommitted())
      && (key != KeyEnter ==> NameEdited(key))
      && showHelp == old(showHelp) && ocrPreview == old(ocrPreview)
    }

    /**
      What a fresh key does outside NAMING mode: Ctrl+Z and Ctrl+Y undo and
      redo, `d` deletes the selected ROI through a command, `h` and `o` toggle
      the help and the OCR preview, `q` asks to quit.
     */
    twostate predicate CommandKeyDone(key: int, quit: bool)
      reads this
    {
      && lastKey == key
      && (quit <==> key == KeyQuit)
      && mode == old(mode) && namingBuffer == old(namingBuffer) && tempRoi == old(tempRoi)
      && (key == KeyUndo ==> history == UndoStep(old(history)))
      && (key == KeyRedo ==> history == RedoStep(old(history)))
      && (key == KeyHelp <==> showHelp != old(showHelp))
      && (key == KeyOcr <==> ocrPreview != old(ocrPreview))
      && (key == KeyDelete ==>
            var s := old(selected);
            if s.Some? && s.value in old(history.rois).boxes then
              history == Perform(old(history), Delete(s.value, old(history.rois).boxes[s.value])) && selected == None
            else history == old(history) && selected == s)
      && (key !in {KeyUndo, KeyRedo, KeyDelete} ==> history == old(history) && selected == old(selected))
    }

    /** Enter in NAMING mode: a ROI named by the stripped buffer unless that is blank, then back to IDLE. */
    method CommitName(key: int)
      requires Valid() && mode == Naming && key == KeyEnter
      modifies this`lastKey, this`mode, this`tempRoi, this`namingBuffer, this`selected, this`history
      ensures Valid()
      ensures lastKey == key && NameCommitted()
    {
      lastKey := key;
      var name, roi := Strip(namingBuffer), tempRoi.value;
      tempRoi := None;
      namingBuffer := "";
      mode := Idle;
      if name != "" {
        selected := Some(name);
        ExecuteCommand(Create(name, roi));
      }
    }

    /** Any other key in NAMING mode: Esc cancels, Backspace and printable codes edit the buffer. */
    method EditName(key: int)
      requires Valid() && mode == Naming && key != KeyEnter
      modifies this`lastKey, this`mode, this`tempRoi, this`namingBuffer
      ensures Valid()
      ensures lastKey == key && NameEdited(key)
    {
      lastKey := key;
      if key == KeyEscape {
        tempRoi := None;
        namingBuffer := "";
        mode := Idle;
      } else if key == KeyBackspace {
        namingBuffer := namingBuffer[..Max(0, |namingBuffer| - 1)];
      } else if 32 <= key <= 126 {
        if |namingBuffer| < MaxName {
          namingBuffer := namingBuffer + [key as char];
        }
      }
    }

    /** The NAMING branch of `handle_key`. */
    method NamingKey(key: int)
      requires Valid() && mode == Naming
      modifies this`lastKey, this`mode, this`tempRoi, this`namingBuffer, this`selected, this`history
      ensures Valid()
      ensures NamingKeyDone(key)
    {
      if key == KeyEnter {
        CommitName(key);
      } else {
        EditName(key);
      }
    }

    /** The branch of `handle_key` outside NAMING mode. Saving with `s` writes a file and changes no modelled state. */
    method CommandKey(key: int) returns (quit: bool)
      requires Valid() && mode != Naming
      modifies this`lastKey, this`history, this`selected
      modifies this`showHelp, this`ocrPreview
      ensures Valid()
      ensures CommandKeyDone(key, quit)
    {
      lastKey := key;
      quit := false;
      if key == KeyUndo {
        Undo();
      } else if key == KeyRedo {
        Redo();
      } else if key == KeyQuit {
        quit := true;
      } else if key == KeySave {
      } else if key == KeyHelp {
        showHelp := !showHelp;
      } else if key == KeyDelete {
        if selected.Some? && selected.value in history.rois.boxes {
          ExecuteCommand(Delete(selected.value, history.rois.boxes[selected.value]));
          selected := None;
        }
      } else if key == KeyOcr {
        ocrPreview := !ocrPreview;
      }
    }

    /**
      `handle_key`: no key (-1) and a repeat of the last key are ignored;
      otherwise the key is remembered and handled by mode. The result is `True`
      exactly for a fresh `q` outside NAMING mode.
     */
    method HandleKey(key: int) returns (quit: bool)
      requires Valid()
      modifies this
      ensures Valid()
      ensures key == KeyNone || key == old(lastKey) ==> !quit && unchanged(this)
      ensures key != KeyNone && key != old(lastKey) && old(mode) == Naming ==> !quit && NamingKeyDone(key)
      ensures key != KeyNone && key != old(lastKey) && old(mode) != Naming ==> CommandKeyDone(key, quit)
      ensures key != KeyNone && key != old(lastKey) ==>
        dragStart == old(dragStart) && dragOriginal == old(dragOriginal) && resizeHandle == old(resizeHandle)
        && drawingStart == old(drawingStart) && drawingCurrent == old(drawingCurrent)
    {
      if key == KeyNone || key == lastKey {
        return false;
      }
      if mode == Naming {
        NamingKey(key);
        quit := false;
      } else {
        quit := CommandKey(key);
      }
    }
  }

  /** The name a hit returns is a name of the dictionary, so it has a record. */
  lemma FirstHitIsName(d: Rois, p: Point)
    ensures RoiAt(d, p).Some? ==> RoiAt(d, p).value in d.boxes
  {
  }

  /** A corner handle wins over the edge handle beside it when both are near. */
  lemma CornerBeforeEdge(p: Point, roi: Roi)
    requires Near(p, HandlePoint(TL, roi))
    ensures HandleAt(p, roi) == Some(TL)
  {
  }

  /** A narrow drag on a left handle stops 10 pixels short of the fixed right edge. */
  lemma LeftHandleStops(roi: Roi, orig: Roi, p: Point)
    requires p.x > orig.left + orig.width - MinSide
    ensures Resized(roi, orig, L, p).left == orig.left + orig.width - MinSide
    ensures Resized(roi, orig, L, p).width == MinSide
  {
  }
}
