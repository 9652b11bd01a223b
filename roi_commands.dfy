/**
  The ROI dictionary of debug_rois.py and the four undoable commands over it,
  with the bounded undo and redo stacks of `ROIEditor`.

  The dictionary keeps Python's insertion order, which decides which of two
  overlapping ROIs a click selects: assigning to an existing name keeps its
  place, a new name goes last, and deleting a name closes the gap.
 */
module RoiCommands {
  import opened Text

  datatype Point = Point(x: int, y: int)

  /** One ROI record: `{"left", "top", "width", "height"}` in screen pixels. */
  datatype Roi = Roi(left: int, top: int, width: int, height: int)

  predicate Distinct(s: seq<string>) {
    forall i, j :: 0 <= i < j < |s| ==> s[i] != s[j]
  }

  /** The `rois` dictionary: its names in insertion order and the record of each. */
  datatype Rois = Rois(names: seq<string>, boxes: map<string, Roi>) {
    ghost predicate WellFormed() {
      Distinct(names) && forall n :: n in boxes <==> n in names
    }
  }

  /** The names of `s` other than `n`, in order. */
  function RemoveName(s: seq<string>, n: string): (r: seq<string>)
    ensures |r| <= |s|
  {
    if s == [] then []
    else if s[0] == n then RemoveName(s[1..], n)
    else [s[0]] + RemoveName(s[1..], n)
  }

  lemma {:induction false} RemoveNameMembers(s: seq<string>, n: string, m: string)
    ensures m in RemoveName(s, n) <==> m in s && m != n
  {
    if s != [] {
      RemoveNameMembers(s[1..], n, m);
      assert m in s <==> m == s[0] || m in s[1..];
    }
  }

  lemma DistinctCons(x: string, t: seq<string>)
    requires x !in t && Distinct(t)
    ensures Distinct([x] + t)
  {
    var s := [x] + t;
    forall i, j | 0 <= i < j < |s| ensures s[i] != s[j] {
      assert s[j] == t[j - 1];
      if i > 0 {
        assert s[i] == t[i - 1];
      }
    }
  }

  lemma {:induction false} RemoveNameDistinct(s: seq<string>, n: string)
    requires Distinct(s)
    ensures Distinct(RemoveName(s, n))
  {
    if s != [] {
      assert Distinct(s[1..]) by {
        forall i, j | 0 <= i < j < |s| - 1 ensures s[1..][i] != s[1..][j] {
          assert s[1..][i] == s[i + 1] && s[1..][j] == s[j + 1];
        }
      }
      RemoveNameDistinct(s[1..], n);
      if s[0] != n {
        RemoveNameMembers(s[1..], n, s[0]);
        DistinctCons(s[0], RemoveName(s[1..], n));
      }
    }
  }

  /** Removing a name from the list it was just appended to gives the list back. */
  lemma {:induction false} RemoveNameAppended(s: seq<string>, n: string)
    requires n !in s
    ensures RemoveName(s + [n], n) == s
  {
    if s != [] {
      assert (s + [n])[1..] == s[1..] + [n];
      RemoveNameAppended(s[1..], n);
    }
  }

  lemma {:induction false} RemoveNameAbsent(s: seq<string>, n: string)
    requires n !in s
    ensures RemoveName(s, n) == s
  {
    if s != [] {
      RemoveNameAbsent(s[1..], n);
    }
  }

  /** `d[n] = r` */
  function Put(d: Rois, n: string, r: Roi): (e: Rois)
    ensures e.boxes == d.boxes[n := r]
  {
    if n in d.boxes then Rois(d.names, d.boxes[n := r]) else Rois(d.names + [n], d.boxes[n := r])
  }

  /** `if n in d: del d[n]` */
  function Del(d: Rois, n: string): (e: Rois)
    ensures e.boxes == d.boxes - {n}
  {
    if n in d.boxes then Rois(RemoveName(d.names, n), d.boxes - {n}) else d
  }

  lemma PutWellFormed(d: Rois, n: string, r: Roi)
    requires d.WellFormed()
    ensures Put(d, n, r).WellFormed()
  {
    if n !in d.boxes {
      var s := d.names + [n];
      forall i, j | 0 <= i < j < |s| ensures s[i] != s[j] {
        if j == |s| - 1 {
          assert s[i] in d.names;
        } else {
          assert s[i] == d.names[i] && s[j] == d.names[j];
        }
      }
    }
  }

  lemma DelWellFormed(d: Rois, n: string)
    requires d.WellFormed()
    ensures Del(d, n).WellFormed()
  {
    if n in d.boxes {
      RemoveNameDistinct(d.names, n);
      forall m ensures m in d.boxes - {n} <==> m in RemoveName(d.names, n) {
        RemoveNameMembers(d.names, n, m);
      }
    }
  }

  // ---------------------------------------------------------------------------
  // Commands
  // ---------------------------------------------------------------------------

  datatype Command =
    | Create(name: string, roi: Roi)
    | Delete(name: string, roi: Roi)
    | Move(name: string, oldPos: Point, newPos: Point)
    | Resize(name: string, oldBounds: Roi, newBounds: Roi)

  /** The record at `pos`, or `d` unchanged when `n` is absent. */
  function MoveTo(d: Rois, n: string, pos: Point): Rois {
    if n in d.boxes then Put(d, n, d.boxes[n].(left := pos.x, top := pos.y)) else d
  }

  /** `update(bounds)` with a full record, or `d` unchanged when `n` is absent. */
  function Update(d: Rois, n: string, bounds: Roi): Rois {
    if n in d.boxes then Put(d, n, bounds) else d
  }

  /** `command.execute(editor)` */
  function Execute(c: Command, d: Rois): Rois {
    match c
    case Create(n, r) => Put(d, n, r)
    case Delete(n, _) => Del(d, n)
    case Move(n, _, p) => MoveTo(d, n, p)
    case Resize(n, _, b) => Update(d, n, b)
  }

  /** `command.undo(editor)` */
  function Revert(c: Command, d: Rois): Rois {
    match c
    case Create(n, _) => Del(d, n)
    case Delete(n, r) => Put(d, n, r)
    case Move(n, p, _) => MoveTo(d, n, p)
    case Resize(n, b, _) => Update(d, n, b)
  }

  lemma ExecuteWellFormed(c: Command, d: Rois)
    requires d.WellFormed()
    ensures Execute(c, d).WellFormed() && Revert(c, d).WellFormed()
  {
    match c
    case Create(n, r) =>
      PutWellFormed(d, n, r);
      DelWellFormed(d, n);
    case Delete(n, r) =>
      PutWellFormed(d, n, r);
      DelWellFormed(d, n);
    case Move(n, p, q) =>
      if n in d.boxes {
        PutWellFormed(d, n, d.boxes[n].(left := p.x, top := p.y));
        PutWellFormed(d, n, d.boxes[n].(left := q.x, top := q.y));
      }
    case Resize(n, a, b) =>
      PutWellFormed(d, n, a);
      PutWellFormed(d, n, b);
  }

  /**
    A command whose undo restores the dictionary it was executed on: a creation
    under a new name, a deletion holding the record it deletes, a move from the
    record's current position, a resize from its current bounds. Of what the
    editor records, only the deletion and a creation under a new name are of
    this kind: a move or a resize is recorded after the drag has already
    changed the record (UndoDraggedMove, UndoDraggedResize), and a creation may
    reuse a name (CreateOverExisting).
   */
  predicate Recordable(c: Command, d: Rois) {
    match c
    case Create(n, _) => n !in d.boxes
    case Delete(n, r) => n in d.boxes && d.boxes[n] == r
    case Move(n, p, _) => n in d.boxes && d.boxes[n].left == p.x && d.boxes[n].top == p.y
    case Resize(n, b, _) => n in d.boxes && d.boxes[n] == b
  }

  /** Undoing a creation deletes the appended name again. */
  lemma RevertCreate(n: string, r: Roi, d: Rois)
    requires d.WellFormed() && n !in d.boxes
    ensures Del(Put(d, n, r), n) == d
  {
    RemoveNameAppended(d.names, n);
  }

  /** Undoing a deletion puts the record back, its name last. */
  lemma RevertDelete(n: string, r: Roi, d: Rois)
    requires d.WellFormed() && n in d.boxes && d.boxes[n] == r
    ensures Put(Del(d, n), n, r) == Rois(RemoveName(d.names, n) + [n], d.boxes)
  {
    var e := Del(d, n);
    assert e.boxes[n := r] == d.boxes;
  }

  /** Moving a record back to where it was restores it. */
  lemma RevertMove(n: string, p: Point, q: Point, d: Rois)
    requires d.WellFormed() && n in d.boxes && d.boxes[n].left == p.x && d.boxes[n].top == p.y
    ensures MoveTo(MoveTo(d, n, q), n, p) == d
  {
    assert d.boxes[n].(left := p.x, top := p.y) == d.boxes[n];
  }

  /**
    Undoing a recorded command restores every record. For all but a deletion it
    restores the dictionary order too; an undone deletion puts the name last.
   */
  lemma RevertRestores(c: Command, d: Rois)
    requires d.WellFormed() && Recordable(c, d)
    ensures Revert(c, Execute(c, d)).boxes == d.boxes
    ensures !c.Delete? ==> Revert(c, Execute(c, d)) == d
    ensures c.Delete? ==> Revert(c, Execute(c, d)).names == RemoveName(d.names, c.name) + [c.name]
  {
    match c
    case Create(n, r) => RevertCreate(n, r, d);
    case Delete(n, r) => RevertDelete(n, r, d);
    case Move(n, p, q) => RevertMove(n, p, q, d);
    case Resize(n, a, b) =>
  }

  /** Executing again what was just undone gives the state the first execution gave. */
  lemma {:induction false} ExecuteRevertExecute(c: Command, d: Rois)
    requires d.WellFormed() && Recordable(c, d)
    ensures Execute(c, Revert(c, Execute(c, d))) == Execute(c, d)
  {
    match c
    case Create(n, r) =>
      RemoveNameAppended(d.names, n);
    case Delete(n, r) =>
      RemoveNameMembers(d.names, n, n);
      RemoveNameAppended(RemoveName(d.names, n), n);
      assert d.boxes - {n} + map[n := r] - {n} == d.boxes - {n};
    case Move(n, p, q) =>
      RevertRestores(c, d);
    case Resize(n, a, b) =>
  }

  // ---------------------------------------------------------------------------
  // The undo and redo stacks
  // ---------------------------------------------------------------------------

  /** `deque(maxlen=50)` */
  const StackCap := 50

  /** The dictionary with the two command stacks, each oldest first. */
  datatype History = History(rois: Rois, undo: seq<Command>, redo: seq<Command>) {
    ghost predicate Valid() {
      rois.WellFormed() && |undo| <= StackCap && |redo| <= StackCap
    }
  }

  /** `execute_command`: apply, push on the undo stack, empty the redo stack. */
  function Perform(h: History, c: Command): (r: History)
    ensures |r.undo| == if |h.undo| < StackCap then |h.undo| + 1 else StackCap
    ensures r.undo[|r.undo| - 1] == c && r.redo == []
    ensures r.rois == Execute(c, h.rois)
  {
    History(Execute(c, h.rois), BoundedAppend(h.undo, c, StackCap), [])
  }

  /** `undo`: pop the newest command, revert it, push it on the redo stack; nothing when empty. */
  function UndoStep(h: History): (r: History)
    ensures h.undo == [] ==> r == h
    ensures h.undo != [] ==> r.undo == h.undo[..|h.undo| - 1] && r.redo != [] && r.redo[|r.redo| - 1] == h.undo[|h.undo| - 1]
  {
    if h.undo == [] then h
    else
      var c := h.undo[|h.undo| - 1];
      History(Revert(c, h.rois), h.undo[..|h.undo| - 1], BoundedAppend(h.redo, c, StackCap))
  }

  /** `redo`: pop the newest undone command, execute it, push it on the undo stack; nothing when empty. */
  function RedoStep(h: History): (r: History)
    ensures h.redo == [] ==> r == h
    ensures h.redo != [] ==> r.redo == h.redo[..|h.redo| - 1] && r.undo != [] && r.undo[|r.undo| - 1] == h.redo[|h.redo| - 1]
  {
    if h.redo == [] then h
    else
      var c := h.redo[|h.redo| - 1];
      History(Execute(c, h.rois), BoundedAppend(h.undo, c, StackCap), h.redo[..|h.redo| - 1])
  }

  /** Each step keeps the dictionary well formed and both stacks within 50. */
  lemma PerformValid(h: History, c: Command)
    requires h.Valid()
    ensures Perform(h, c).Valid()
  {
    ExecuteWellFormed(c, h.rois);
  }

  lemma UndoValid(h: History)
    requires h.Valid()
    ensures UndoStep(h).Valid()
  {
    if h.undo != [] {
      ExecuteWellFormed(h.undo[|h.undo| - 1], h.rois);
    }
  }

  lemma RedoValid(h: History)
    requires h.Valid()
    ensures RedoStep(h).Valid()
  {
    if h.redo != [] {
      ExecuteWellFormed(h.redo[|h.redo| - 1], h.rois);
    }
  }

  /**
    Performing a recorded command and undoing it restores the records; the undo
    stack comes back as it was unless it was full, when its oldest entry is lost.
   */
  lemma PerformThenUndo(h: History, c: Command)
    requires h.Valid() && Recordable(c, h.rois)
    ensures var r := UndoStep(Perform(h, c));
      && r.rois.boxes == h.rois.boxes
      && (!c.Delete? ==> r.rois == h.rois)
      && r.undo == (if |h.undo| < StackCap then h.undo else h.undo[1..])
      && r.redo == [c]
  {
    RevertRestores(c, h.rois);
    var u := BoundedAppend(h.undo, c, StackCap);
    assert u[..|u| - 1] == (if |h.undo| < StackCap then h.undo else h.undo[1..]);
  }

  /** Perform, undo, redo ends where perform alone ended, with an empty redo stack. */
  lemma PerformUndoRedo(h: History, c: Command)
    requires h.Valid() && Recordable(c, h.rois)
    ensures RedoStep(UndoStep(Perform(h, c))).rois == Perform(h, c).rois
    ensures RedoStep(UndoStep(Perform(h, c))).redo == []
  {
    ExecuteRevertExecute(c, h.rois);
  }

  /**
    Undoing the move recorded after a drag gives back the dictionary as it was
    before the drag, and redoing it gives the dragged one again. `h` is the
    history when the drag began; the drag has already moved the record to `q`
    when the command is recorded with the record's original position.
   */
  lemma UndoDraggedMove(h: History, n: string, q: Point)
    requires h.Valid() && n in h.rois.boxes
    ensures UndoStep(Perform(h.(rois := MoveTo(h.rois, n, q)),
      Move(n, Point(h.rois.boxes[n].left, h.rois.boxes[n].top), q))).rois == h.rois
    ensures RedoStep(UndoStep(Perform(h.(rois := MoveTo(h.rois, n, q)),
      Move(n, Point(h.rois.boxes[n].left, h.rois.boxes[n].top), q)))).rois == MoveTo(h.rois, n, q)
  {
    var p := Point(h.rois.boxes[n].left, h.rois.boxes[n].top);
    var moved := MoveTo(h.rois, n, q);
    assert MoveTo(moved, n, q) == moved by {
      assert moved.boxes[n].(left := q.x, top := q.y) == moved.boxes[n];
    }
    RevertMove(n, p, q, h.rois);
  }

  /**
    Undoing the resize recorded after a drag gives back the dictionary as it was
    before the drag, and redoing it gives the resized one again. The drag has
    already set the record to `b` when the command is recorded with the
    original bounds.
   */
  lemma UndoDraggedResize(h: History, n: string, b: Roi)
    requires h.Valid() && n in h.rois.boxes
    ensures UndoStep(Perform(h.(rois := Update(h.rois, n, b)), Resize(n, h.rois.boxes[n], b))).rois == h.rois
    ensures RedoStep(UndoStep(Perform(h.(rois := Update(h.rois, n, b)), Resize(n, h.rois.boxes[n], b)))).rois
      == Update(h.rois, n, b)
  {
    assert h.rois.boxes[n := h.rois.boxes[n]] == h.rois.boxes;
    var e := Update(h.rois, n, b);
    assert e.boxes[n := b] == e.boxes;
  }

  /**
    Creating a ROI under a name that is already taken overwrites its record,
    and undoing that creation deletes the name: the overwritten record is not
    restored.
   */
  lemma CreateOverExisting(h: History, n: string, r: Roi)
    requires h.Valid() && n in h.rois.boxes
    ensures UndoStep(Perform(h, Create(n, r))).rois.boxes == h.rois.boxes - {n}
    ensures n !in UndoStep(Perform(h, Create(n, r))).rois.boxes
  {
  }
}
