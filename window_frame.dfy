/** The per-window drag machine of `components/WindowFrame.tsx`: a frame is
    `idle` or `dragging`, remembers the pointer's offset from the window
    origin taken at the press, and reports to the shell through callbacks. */
module WindowFrame {
  import opened Types

  /** A callback the frame invokes on the shell (its props onFocus, onMove,
      onMinimize, onMaximize and onClose), or none. */
  datatype Callback =
    | NoCallback
    | FocusRequest(id: string)
    | MoveRequest(id: string, x: int, y: int)
    | MinimizeRequest(id: string)
    | MaximizeRequest(id: string)
    | CloseRequest(id: string)

  /** The three buttons of the title bar. */
  datatype ControlButton = MinimizeButton | MaximizeButton | CloseButton

  /** The click handlers of the title-bar buttons: each calls its own callback
      with this window's id, and stops the click from bubbling up to the
      desktop area, whose click handler would close the four menus. A
      minimized window renders nothing, so its buttons cannot be clicked. */
  function ControlCallback(win: WindowState, b: ControlButton): (cb: Callback)
    ensures win.isMinimized <==> cb == NoCallback
    ensures !win.isMinimized ==> cb.id == win.id
    ensures !win.isMinimized ==> (cb.MinimizeRequest? <==> b == MinimizeButton)
    ensures !win.isMinimized ==> (cb.MaximizeRequest? <==> b == MaximizeButton)
    ensures !win.isMinimized ==> (cb.CloseRequest? <==> b == CloseButton)
  {
    if win.isMinimized then NoCallback
    else
      match b
      case MinimizeButton => MinimizeRequest(win.id)
      case MaximizeButton => MaximizeRequest(win.id)
      case CloseButton => CloseRequest(win.id)
  }

  /** Where a drag puts the window: pointer minus the recorded offset. */
  function DragTarget(pointer: int, offset: int): int {
    pointer - offset
  }

  /** The state of one mounted WindowFrame. */
  class Frame {
    var isDragging: bool
    var dragOffsetX: int
    var dragOffsetY: int

    /** `useState(false)` and `useState({ x: 0, y: 0 })`. */
    constructor ()
      ensures !isDragging && dragOffsetX == 0 && dragOffsetY == 0
    {
      isDragging := false;
      dragOffsetX := 0;
      dragOffsetY := 0;
    }

    /** handleMouseDown for window `win` with the pointer at
        (`clientX`, `clientY`). A press on the title bar starts a drag and
        records the offset from the window's current origin; a press elsewhere
        only focuses. A minimized window renders nothing and cannot be pressed. */
    method MouseDown(win: WindowState, onTitleBar: bool, clientX: int, clientY: int) returns (cb: Callback)
      modifies this
      ensures win.isMinimized ==> cb == NoCallback
      ensures !win.isMinimized ==> cb == FocusRequest(win.id)
      ensures if !win.isMinimized && onTitleBar
        then isDragging && dragOffsetX == clientX - win.x && dragOffsetY == clientY - win.y
        else isDragging == old(isDragging) && dragOffsetX == old(dragOffsetX) && dragOffsetY == old(dragOffsetY)
    {
      if win.isMinimized {
        return NoCallback;
      }
      if onTitleBar {
        isDragging := true;
        dragOffsetX := clientX - win.x;
        dragOffsetY := clientY - win.y;
        cb := FocusRequest(win.id);
      } else {
        cb := FocusRequest(win.id);
      }
    }

    /** The document mousemove listener: attached only while dragging, it asks
        the shell to move the window to the pointer minus the offset. */
    method MouseMove(win: WindowState, clientX: int, clientY: int) returns (cb: Callback)
      ensures !isDragging ==> cb == NoCallback
      ensures isDragging ==>
        cb.MoveRequest? && cb.id == win.id && cb.x + dragOffsetX == clientX && cb.y + dragOffsetY == clientY
    {
      if isDragging {
        cb := MoveRequest(win.id, DragTarget(clientX, dragOffsetX), DragTarget(clientY, dragOffsetY));
      } else {
        cb := NoCallback;
      }
    }

    /** The document mouseup listener: wherever the pointer is released the
        frame goes back to idle. The offset is kept; the next press overwrites
        it. */
    method MouseUp()
      modifies this`isDragging
      ensures !isDragging
    {
      isDragging := false;
    }
  }

  /** Pressing on the title bar and moving the pointer back to the press point
      asks for the window's original origin. */
  method PressThenMoveToPressPoint(win: WindowState, clientX: int, clientY: int) returns (cb: Callback)
    requires !win.isMinimized
    ensures cb == MoveRequest(win.id, win.x, win.y)
  {
    var f := new Frame();
    var _ := f.MouseDown(win, true, clientX, clientY);
    cb := f.MouseMove(win, clientX, clientY);
  }

  /** A drag, a release, the window moving elsewhere, and a new press: the new
      drag uses the offset from where the window is now, not the old one. */
  method SecondDragUsesFreshOffset(win1: WindowState, win2: WindowState,
                                   x1: int, y1: int, mx: int, my: int, x2: int, y2: int, px: int, py: int)
    returns (cb: Callback)
    requires !win1.isMinimized && !win2.isMinimized && win1.id == win2.id
    ensures cb == MoveRequest(win2.id, px - (x2 - win2.x), py - (y2 - win2.y))
  {
    var f := new Frame();
    var _ := f.MouseDown(win1, true, x1, y1);
    var _ := f.MouseMove(win1, mx, my);
    f.MouseUp();
    var _ := f.MouseDown(win2, true, x2, y2);
    cb := f.MouseMove(win2, px, py);
  }

  /** After the release, the pointer moving no longer moves the window. */
  method ReleaseStopsDrag(win: WindowState, x: int, y: int, mx: int, my: int) returns (cb: Callback)
    ensures cb == NoCallback
  {
    var f := new Frame();
    var _ := f.MouseDown(win, true, x, y);
    f.MouseUp();
    cb := f.MouseMove(win, mx, my);
  }

  /** A press on the window body focuses without starting a drag. */
  method BodyPressDoesNotDrag(win: WindowState, x: int, y: int, mx: int, my: int) returns (focus: Callback, move: Callback)
    requires !win.isMinimized
    ensures focus == FocusRequest(win.id) && move == NoCallback
  {
    var f := new Frame();
    focus := f.MouseDown(win, false, x, y);
    move := f.MouseMove(win, mx, my);
  }
}
