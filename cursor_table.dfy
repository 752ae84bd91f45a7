/**
 * The anchor view's touch handling: a table from pointer id to the
 * cursor that pointer is dragging on the safe sector.
 *
 * The safe sector, its cursors and the painted shapes belong to the
 * geometry library and are opaque here. Hit-testing a point against the
 * sector (`getCursor`) and dragging a cursor (`update`) are functions the
 * view is given; committing a cursor (`ready`) is recorded in a log.
 * Event coordinates and the touch radius are taken as already converted
 * from screen to model units.
 */
module CursorTable {
  import opened Wrappers

  type SafeSector
  type Cursor
  type Polygon
  type Circle

  /** The geometry library's operations the view calls. */
  datatype Geometry = Geometry(
    getCursor: (SafeSector, real, real, real) -> Option<Cursor>,
    update: (Cursor, real, real) -> Cursor)

  datatype Pointer = Pointer(id: int, x: real, y: real)

  /** The masked action of a motion event; `Other` covers every action the view does not handle. */
  datatype Action = Down | PointerDown | Move | Up | PointerUp | Cancel | Other(code: int)

  datatype MotionEvent = MotionEvent(action: Action, actionIndex: nat, pointers: seq<Pointer>)

  /** The platform's guarantee: the action index names one of the event's pointers. */
  predicate WellFormed(e: MotionEvent)
  {
    e.actionIndex < |e.pointers|
  }

  /** The pointer the action is about. */
  function ActionPointer(e: MotionEvent): Pointer
    requires WellFormed(e)
  {
    e.pointers[e.actionIndex]
  }

  /** Pointer ids within one event are distinct, as the platform reports them. */
  predicate DistinctIds(ps: seq<Pointer>)
  {
    forall i, j :: 0 <= i < j < |ps| ==> ps[i].id != ps[j].id
  }

  /** A commit of a cursor at its final position. */
  datatype Ready = Ready(cursor: Cursor, x: real, y: real)

  /** The table after one touch event and the commits the event made. */
  datatype Outcome = Outcome(cursors: map<int, Cursor>, readies: seq<Ready>)

  /** Drag the cursor of one tracked pointer; an untracked pointer is ignored. */
  function MoveOne(g: Geometry, m: map<int, Cursor>, p: Pointer): (r: map<int, Cursor>)
    ensures r.Keys == m.Keys
    ensures p.id in m ==> r[p.id] == g.update(m[p.id], p.x, p.y)
    ensures forall k :: k != p.id ==> SameEntry(m, r, k)
  {
    if p.id in m then m[p.id := g.update(m[p.id], p.x, p.y)] else m
  }

  /** The table after dragging the pointers of `ps` in order; a move never adds or removes an entry. */
  function Moved(g: Geometry, m: map<int, Cursor>, ps: seq<Pointer>): (r: map<int, Cursor>)
    ensures r.Keys == m.Keys
    decreases |ps|
  {
    if ps == [] then m else MoveOne(g, Moved(g, m, ps[..|ps| - 1]), ps[|ps| - 1])
  }

  /** The effect of one touch event on the table, given the current safe sector and touch radius. */
  function Touched(g: Geometry, m: map<int, Cursor>, safe: Option<SafeSector>, e: MotionEvent, r: real): (o: Outcome)
    requires WellFormed(e)
    ensures |o.readies| <= 1
    ensures o.readies != [] ==> e.action == Up || e.action == PointerUp
    ensures o.cursors.Keys <= m.Keys + {ActionPointer(e).id}
    ensures e.action == Move ==> o.cursors.Keys == m.Keys
  {
    var p := ActionPointer(e);
    match e.action
    case Down => AfterDown(g, m, safe, p, r)
    case PointerDown => AfterDown(g, m, safe, p, r)
    case Move => Outcome(Moved(g, m, e.pointers), [])
    case Up => AfterUp(m, p)
    case PointerUp => AfterUp(m, p)
    case Cancel => Outcome(m - {p.id}, [])
    case Other(_) => Outcome(m, [])
  }

  /** A down on `p`: the hit cursor, if any, becomes the entry of `p`; nothing is committed. */
  function AfterDown(g: Geometry, m: map<int, Cursor>, safe: Option<SafeSector>, p: Pointer, r: real): (o: Outcome)
    ensures o.readies == []
    ensures o.cursors.Keys <= m.Keys + {p.id}
    ensures forall k :: k != p.id ==> SameEntry(m, o.cursors, k)
  {
    match safe
    case None => Outcome(m, [])
    case Some(s) =>
      match g.getCursor(s, p.x, p.y, r)
      case None => Outcome(m, [])
      case Some(c) => Outcome(m[p.id := c], [])
  }

  /** An up on `p`: its entry, if any, is removed and committed at the pointer's position. */
  function AfterUp(m: map<int, Cursor>, p: Pointer): (o: Outcome)
    ensures o.cursors.Keys == m.Keys - {p.id}
    ensures forall k :: k != p.id ==> SameEntry(m, o.cursors, k)
    ensures |o.readies| == (if p.id in m then 1 else 0)
    ensures p.id in m ==> o.readies[0] == Ready(m[p.id], p.x, p.y)
  {
    if p.id in m then Outcome(m - {p.id}, [Ready(m[p.id], p.x, p.y)]) else Outcome(m, [])
  }

  /** The entry for `k` is the same in both tables: absent from both, or present with the same cursor. */
  ghost predicate SameEntry(m: map<int, Cursor>, m': map<int, Cursor>, k: int)
  {
    (k in m <==> k in m') && (k in m ==> m[k] == m'[k])
  }

  // ---- Properties of single events ----

  /**
   * Pointer down adds or overwrites the entry of the action pointer
   * exactly when there is a safe sector and it yields a cursor; every
   * other entry is untouched and nothing is committed.
   */
  lemma DownSetsOnlyItsPointer(g: Geometry, m: map<int, Cursor>, safe: Option<SafeSector>, e: MotionEvent, r: real)
    requires WellFormed(e) && (e.action == Down || e.action == PointerDown)
    ensures var o := Touched(g, m, safe, e, r);
            var p := ActionPointer(e);
            && o.readies == []
            && (forall k :: k != p.id ==> SameEntry(m, o.cursors, k))
            && (safe.Some? && g.getCursor(safe.value, p.x, p.y, r).Some? ==>
                  p.id in o.cursors && o.cursors[p.id] == g.getCursor(safe.value, p.x, p.y, r).value)
            && (safe.None? || g.getCursor(safe.value, p.x, p.y, r).None? ==> o.cursors == m)
  {
  }

  /**
   * Pointer up on a tracked pointer commits that cursor once at the
   * pointer's position and removes only its entry; on an untracked
   * pointer it does nothing.
   */
  lemma UpRemovesOnlyItsPointer(g: Geometry, m: map<int, Cursor>, safe: Option<SafeSector>, e: MotionEvent, r: real)
    requires WellFormed(e) && (e.action == Up || e.action == PointerUp)
    ensures var o := Touched(g, m, safe, e, r);
            var p := ActionPointer(e);
            && p.id !in o.cursors
            && o.cursors.Keys == m.Keys - {p.id}
            && (forall k :: k != p.id ==> SameEntry(m, o.cursors, k))
            && o.readies == (if p.id in m then [Ready(m[p.id], p.x, p.y)] else [])
            && (p.id !in m ==> o.cursors == m)
  {
  }

  /** Cancel drops the entry of the action pointer and nothing else, and commits nothing. */
  lemma CancelRemovesOnlyItsPointer(g: Geometry, m: map<int, Cursor>, safe: Option<SafeSector>, e: MotionEvent, r: real)
    requires WellFormed(e) && e.action == Cancel
    ensures var o := Touched(g, m, safe, e, r);
            var p := ActionPointer(e);
            && p.id !in o.cursors
            && o.cursors.Keys == m.Keys - {p.id}
            && (forall k :: k != p.id ==> SameEntry(m, o.cursors, k))
            && o.readies == []
  {
  }

  /** Every event other than a move changes at most the entry of its action pointer. */
  lemma NonMoveChangesOneEntry(g: Geometry, m: map<int, Cursor>, safe: Option<SafeSector>, e: MotionEvent, r: real)
    requires WellFormed(e) && e.action != Move
    ensures forall k :: k != ActionPointer(e).id ==> SameEntry(m, Touched(g, m, safe, e, r).cursors, k)
  {
    var p := ActionPointer(e);
    match e.action
    case Down => DownSetsOnlyItsPointer(g, m, safe, e, r);
    case PointerDown => DownSetsOnlyItsPointer(g, m, safe, e, r);
    case Up => UpRemovesOnlyItsPointer(g, m, safe, e, r);
    case PointerUp => UpRemovesOnlyItsPointer(g, m, safe, e, r);
    case Cancel => CancelRemovesOnlyItsPointer(g, m, safe, e, r);
    case Other(_) =>
  }

  // ---- Properties of moves ----

  /** A move leaves the entry of every pointer the event does not carry untouched. */
  lemma {:induction false} MovedIgnoresOthers(g: Geometry, m: map<int, Cursor>, ps: seq<Pointer>, k: int)
    requires forall i :: 0 <= i < |ps| ==> ps[i].id != k
    ensures SameEntry(m, Moved(g, m, ps), k)
    decreases |ps|
  {
    if ps != [] {
      MovedIgnoresOthers(g, m, ps[..|ps| - 1], k);
    }
  }

  /**
   * With distinct pointer ids, a move replaces the cursor of each tracked
   * pointer by that cursor dragged to the pointer's position.
   */
  lemma {:induction false} MovedDragsTracked(g: Geometry, m: map<int, Cursor>, ps: seq<Pointer>, i: nat)
    requires DistinctIds(ps) && i < |ps| && ps[i].id in m
    ensures var m' := Moved(g, m, ps);
            ps[i].id in m' && m'[ps[i].id] == g.update(m[ps[i].id], ps[i].x, ps[i].y)
    decreases |ps|
  {
    var init := ps[..|ps| - 1];
    var last := ps[|ps| - 1];
    if i == |ps| - 1 {
      MovedIgnoresOthers(g, m, init, last.id);
    } else {
      assert init[i] == ps[i];
      MovedDragsTracked(g, m, init, i);
      assert last.id != ps[i].id;
    }
  }

  /** The whole effect of a move event on the table. */
  lemma MoveEventFrame(g: Geometry, m: map<int, Cursor>, safe: Option<SafeSector>, e: MotionEvent, r: real)
    requires WellFormed(e) && e.action == Move && DistinctIds(e.pointers)
    ensures var o := Touched(g, m, safe, e, r);
            && o.readies == []
            && o.cursors.Keys == m.Keys
            && (forall i :: 0 <= i < |e.pointers| && e.pointers[i].id in m ==>
                  o.cursors[e.pointers[i].id] == g.update(m[e.pointers[i].id], e.pointers[i].x, e.pointers[i].y))
            && (forall k :: (forall i :: 0 <= i < |e.pointers| ==> e.pointers[i].id != k) ==> SameEntry(m, o.cursors, k))
  {
    forall i | 0 <= i < |e.pointers| && e.pointers[i].id in m
      ensures Moved(g, m, e.pointers)[e.pointers[i].id] == g.update(m[e.pointers[i].id], e.pointers[i].x, e.pointers[i].y)
    {
      MovedDragsTracked(g, m, e.pointers, i);
    }
    forall k | forall i :: 0 <= i < |e.pointers| ==> e.pointers[i].id != k
      ensures SameEntry(m, Moved(g, m, e.pointers), k)
    {
      MovedIgnoresOthers(g, m, e.pointers, k);
    }
  }

  /** A second down on the same pointer replaces its cursor rather than adding one. */
  lemma SecondDownOverwrites(g: Geometry, m: map<int, Cursor>, s: SafeSector, e1: MotionEvent, e2: MotionEvent, r: real)
    requires WellFormed(e1) && WellFormed(e2)
    requires e1.action == Down && e2.action == PointerDown
    requires ActionPointer(e1).id == ActionPointer(e2).id
    requires g.getCursor(s, ActionPointer(e1).x, ActionPointer(e1).y, r).Some?
    requires g.getCursor(s, ActionPointer(e2).x, ActionPointer(e2).y, r).Some?
    ensures var m1 := Touched(g, m, Some(s), e1, r).cursors;
            var m2 := Touched(g, m1, Some(s), e2, r).cursors;
            var p := ActionPointer(e2);
            && m2.Keys == m.Keys + {p.id}
            && m2[p.id] == g.getCursor(s, p.x, p.y, r).value
  {
  }

  /**
   * The view: the latest snapshots the watch published, the cursor table
   * and the log of commits.
   */
  class AnchorView {
    const geometry: Geometry
    var safe: Option<SafeSector>
    var area: Option<Polygon>
    var estimated: Option<Circle>
    var lastX: real
    var lastY: real
    var cursorMap: map<int, Cursor>
    var readies: seq<Ready>

    constructor (geometry: Geometry)
      ensures this.geometry == geometry
      ensures safe == None && area == None && estimated == None
      ensures lastX == 0.0 && lastY == 0.0
      ensures cursorMap == map[] && readies == []
    {
      this.geometry := geometry;
      safe, area, estimated := None, None, None;
      lastX, lastY := 0.0, 0.0;
      cursorMap, readies := map[], [];
    }

    /** Handles one touch event with touch radius `r`; every event is reported as handled. */
    method OnTouchEvent(e: MotionEvent, r: real) returns (handled: bool)
      requires WellFormed(e)
      modifies this`cursorMap, this`readies
      ensures handled
      ensures cursorMap == Touched(geometry, old(cursorMap), safe, e, r).cursors
      ensures readies == old(readies) + Touched(geometry, old(cursorMap), safe, e, r).readies
    {
      var pointerIndex := e.actionIndex;
      var pointerId := e.pointers[pointerIndex].id;
      var action := e.action;
      if action == Down || action == PointerDown {
        if safe.Some? {
          var x, y := e.pointers[pointerIndex].x, e.pointers[pointerIndex].y;
          var cursor := geometry.getCursor(safe.value, x, y, r);
          if cursor.Some? {
            cursorMap := cursorMap[pointerId := cursor.value];
          }
        }
      } else if action == Move {
        var cnt := |e.pointers|;
        var ii := 0;
        while ii < cnt
          invariant 0 <= ii <= cnt
          invariant cursorMap == Moved(geometry, old(cursorMap), e.pointers[..ii])
          invariant readies == old(readies)
        {
          var p := e.pointers[ii].id;
          if p in cursorMap {
            var x, y := e.pointers[ii].x, e.pointers[ii].y;
            cursorMap := cursorMap[p := geometry.update(cursorMap[p], x, y)];
          }
          assert e.pointers[..ii + 1][..ii] == e.pointers[..ii];
          ii := ii + 1;
        }
        assert e.pointers[..cnt] == e.pointers;
      } else if action == Up || action == PointerUp {
        if pointerId in cursorMap {
          var cursor := cursorMap[pointerId];
          var x, y := e.pointers[pointerIndex].x, e.pointers[pointerIndex].y;
          readies := readies + [Ready(cursor, x, y)];
          cursorMap := cursorMap - {pointerId};
        }
      } else if action == Cancel {
        cursorMap := cursorMap - {pointerId};
      }
      handled := true;
    }

    /**
     * The watch published a new safe sector, or null; later pointer downs
     * hit-test against it, and after a null they are ignored.
     */
    method SafeSectorChanged(s: Option<SafeSector>)
      modifies this`safe
      ensures safe == s
    {
      safe := s;
    }

    method AreaChanged(a: Option<Polygon>)
      modifies this`area
      ensures area == a
    {
      area := a;
    }

    method EstimatedChanged(c: Option<Circle>)
      modifies this`estimated
      ensures estimated == c
    {
      estimated := c;
    }

    method LocationChanged(x: real, y: real)
      modifies this`lastX, this`lastY
      ensures lastX == x && lastY == y
    {
      lastX, lastY := x, y;
    }
  }
}
