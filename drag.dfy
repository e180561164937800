/**
 * The drag state machine of makeWidgetDraggable (main.js:342-384): the variables of
 * the closure and the inline styles its handlers write. The two timeouts of the
 * snap-back are counted as pending firings.
 */
module Drag {

  /** All of a widget's drag state at one moment. */
  datatype DragView = DragView(
    dragging: bool, startX: int, startY: int, initialX: int, initialY: int,
    cursor: string, zIndex: string, position: string, left: int, top: int,
    transition: string, pendingSnaps: nat, pendingClears: nat)
  {
    /** mousedown on the widget at (x, y), with the widget's offsetLeft and offsetTop. */
    function Pressed(x: int, y: int, offsetLeft: int, offsetTop: int): (w: DragView)
      ensures w.dragging && w.cursor == "grabbing"
      ensures w.left == left && w.top == top && w.transition == transition
      ensures w.pendingSnaps == pendingSnaps && w.pendingClears == pendingClears
    {
      this.(dragging := true, startX := x, startY := y, initialX := offsetLeft, initialY := offsetTop,
            cursor := "grabbing", zIndex := "1000")
    }

    /** mousemove anywhere in the document at (x, y). */
    function Moved(x: int, y: int): (w: DragView)
      ensures !dragging ==> w == this
      ensures dragging ==> w.left + startX == x && w.top + startY == y && w.position == "relative"
      ensures w.dragging == dragging && w.pendingSnaps == pendingSnaps && w.pendingClears == pendingClears
    {
      if !dragging then this
      else this.(position := "relative", left := x - startX, top := y - startY)
    }

    /** mouseup anywhere in the document: ends a drag and schedules the snap-back. */
    function Released(): (w: DragView)
      ensures !w.dragging
      ensures w.left == left && w.top == top
      ensures w.pendingSnaps == if dragging then pendingSnaps + 1 else pendingSnaps
    {
      if !dragging then this
      else this.(dragging := false, cursor := "move", zIndex := "auto", pendingSnaps := pendingSnaps + 1)
    }

    /** The snap-back timeout: animate to the origin and schedule clearing the transition. */
    function SnappedBack(): (w: DragView)
      requires pendingSnaps > 0
      ensures w.left == 0 && w.top == 0 && w.transition != ""
      ensures w.dragging == dragging
      ensures w.pendingSnaps + w.pendingClears == pendingSnaps + pendingClears
    {
      this.(transition := "all 0.3s ease", left := 0, top := 0,
            pendingSnaps := pendingSnaps - 1, pendingClears := pendingClears + 1)
    }

    /** The timeout that clears the transition. */
    function TransitionCleared(): (w: DragView)
      requires pendingClears > 0
      ensures w.transition == ""
      ensures w.left == left && w.top == top && w.dragging == dragging
      ensures w.pendingSnaps == pendingSnaps && w.pendingClears < pendingClears
    {
      this.(transition := "", pendingClears := pendingClears - 1)
    }
  }

  /** A press then moves: the widget is offset by the pointer's travel since the press. */
  lemma PressThenMove(v: DragView, sx: int, sy: int, ol: int, ot: int, x: int, y: int)
    ensures var w := v.Pressed(sx, sy, ol, ot).Moved(x, y);
      w.dragging && w.left == x - sx && w.top == y - sy && w.position == "relative" &&
      w.cursor == "grabbing" && w.zIndex == "1000"
  {
  }

  /** While not dragging, moves and releases change nothing. */
  lemma IdleIgnoresPointer(v: DragView, x: int, y: int)
    requires !v.dragging
    ensures v.Moved(x, y) == v && v.Released() == v
  {
  }

  /**
   * Releasing a drag restores cursor and z-order at once; the snap-back then puts the
   * widget at offset (0, 0), and clearing the transition leaves no drag state behind.
   */
  lemma ReleaseThenSnapBack(v: DragView)
    requires v.dragging
    ensures var u := v.Released();
      !u.dragging && u.cursor == "move" && u.zIndex == "auto" && u.pendingSnaps == v.pendingSnaps + 1
    ensures var w := v.Released().SnappedBack();
      !w.dragging && w.left == 0 && w.top == 0 && w.pendingSnaps == v.pendingSnaps &&
      w.TransitionCleared().transition == "" && w.TransitionCleared().pendingClears == v.pendingClears
  {
  }

  /**
   * A new drag started before the previous snap-back fired is still dragged, but that
   * snap-back still runs: it puts the widget back at (0, 0) in the middle of the new drag.
   */
  lemma QuickRedragIsSnappedBack(v: DragView, x: int, y: int, ol: int, ot: int)
    requires v.dragging
    ensures var w := v.Released().Pressed(x, y, ol, ot);
      w.dragging && w.pendingSnaps > 0 && w.SnappedBack().dragging &&
      w.SnappedBack().left == 0 && w.SnappedBack().top == 0
  {
  }

  /** The closure of one makeWidgetDraggable call, with the widget's inline styles. */
  class DragState {
    var dragging: bool
    var startX: int
    var startY: int
    var initialX: int
    var initialY: int
    var cursor: string
    var zIndex: string
    var position: string
    var left: int
    var top: int
    var transition: string
    var pendingSnaps: nat
    var pendingClears: nat

    function View(): DragView
      reads this
    {
      DragView(dragging, startX, startY, initialX, initialY, cursor, zIndex, position,
               left, top, transition, pendingSnaps, pendingClears)
    }

    /** A widget whose inline styles are unset (shown as "" and offset 0). */
    constructor ()
      ensures View() == DragView(false, 0, 0, 0, 0, "", "", "", 0, 0, "", 0, 0)
    {
      dragging := false;
      startX, startY, initialX, initialY := 0, 0, 0, 0;
      cursor, zIndex, position := "", "", "";
      left, top := 0, 0;
      transition := "";
      pendingSnaps, pendingClears := 0, 0;
    }

    method MouseDown(x: int, y: int, offsetLeft: int, offsetTop: int)
      modifies this
      ensures View() == old(View()).Pressed(x, y, offsetLeft, offsetTop)
      ensures dragging && startX == x && startY == y
    {
      dragging := true;
      startX := x;
      startY := y;
      initialX := offsetLeft;
      initialY := offsetTop;
      cursor := "grabbing";
      zIndex := "1000";
    }

    method MouseMove(x: int, y: int)
      modifies this
      ensures View() == old(View()).Moved(x, y)
      ensures old(dragging) ==> left == x - startX && top == y - startY
      ensures !old(dragging) ==> View() == old(View())
    {
      if !dragging {
        return;
      }
      var deltaX := x - startX;
      var deltaY := y - startY;
      position := "relative";
      left := deltaX;
      top := deltaY;
    }

    method MouseUp()
      modifies this
      ensures View() == old(View()).Released()
      ensures !dragging
      ensures old(dragging) ==> cursor == "move" && zIndex == "auto" && pendingSnaps == old(pendingSnaps) + 1
      ensures !old(dragging) ==> View() == old(View())
    {
      if dragging {
        dragging := false;
        cursor := "move";
        zIndex := "auto";
        pendingSnaps := pendingSnaps + 1;
      }
    }

    /** The snap-back timeout scheduled by a mouseup fires. */
    method SnapBack()
      requires pendingSnaps > 0
      modifies this
      ensures View() == old(View()).SnappedBack()
      ensures left == 0 && top == 0
    {
      transition := "all 0.3s ease";
      left := 0;
      top := 0;
      pendingSnaps := pendingSnaps - 1;
      pendingClears := pendingClears + 1;
    }

    /** The timeout scheduled by a snap-back fires. */
    method ClearTransition()
      requires pendingClears > 0
      modifies this
      ensures View() == old(View()).TransitionCleared()
      ensures transition == ""
    {
      transition := "";
      pendingClears := pendingClears - 1;
    }
  }
}
