/** The window list updates of `App.tsx` (openApp, closeWindow, focusWindow,
    minimizeWindow, maximizeWindow, restoreWindow, moveWindow and the pinned
    app dispatcher), as functions from the old list to the new one. */
module Windows {
  import opened Types

  /** `Math.max(...ws.map(w => w.zIndex))` for a non-empty list. */
  function MaxZ(ws: seq<WindowState>): (m: int)
    requires ws != []
    ensures forall i :: 0 <= i < |ws| ==> ws[i].zIndex <= m
    ensures exists i :: 0 <= i < |ws| && ws[i].zIndex == m
  {
    if |ws| == 1 then ws[0].zIndex
    else
      var rest := MaxZ(ws[1..]);
      assert forall i :: 1 <= i < |ws| ==> ws[i] == ws[1..][i - 1];
      if ws[0].zIndex >= rest then ws[0].zIndex else rest
  }

  /** `Math.max(...ws.map(w => w.zIndex), 0)`, the floor used by focusWindow. */
  function TopZ(ws: seq<WindowState>): (m: int)
    ensures m >= 0
    ensures forall i :: 0 <= i < |ws| ==> ws[i].zIndex <= m
    ensures m == 0 || exists i :: 0 <= i < |ws| && ws[i].zIndex == m
  {
    if ws == [] then 0 else if MaxZ(ws) >= 0 then MaxZ(ws) else 0
  }

  /** The z-index openApp gives a new window: one above the topmost window,
      or 10 on an empty desktop. */
  function NewZ(ws: seq<WindowState>): (z: int)
    ensures forall i :: 0 <= i < |ws| ==> ws[i].zIndex < z
    ensures ws == [] ==> z == 10
    ensures ws != [] ==> exists i :: 0 <= i < |ws| && ws[i].zIndex + 1 == z
  {
    if |ws| > 0 then MaxZ(ws) + 1 else 10
  }

  /** The cascade offset `(count * 20) % 200` of the count-th window. */
  function CascadeOffset(count: nat): (off: int)
    ensures 0 <= off <= 180 && off % 20 == 0
  {
    (count * 20) % 200
  }

  /** The cascade repeats every ten windows. */
  lemma CascadePeriodic(count: nat)
    ensures CascadeOffset(count + 10) == CascadeOffset(count)
  {
    assert (count + 10) * 20 == count * 20 + 200;
  }

  /** The window openApp creates when `ws` is already open. */
  function NewWindow(ws: seq<WindowState>, a: AppId, id: string): (w: WindowState)
    ensures w.id == id && w.appId == a && w.title == Apps(a).title
    ensures 100 <= w.x <= 280 && 50 <= w.y <= 230 && w.x - 100 == w.y - 50
    ensures w.width == Apps(a).defaultWidth && w.height == Apps(a).defaultHeight
    ensures forall i :: 0 <= i < |ws| ==> ws[i].zIndex < w.zIndex
    ensures !w.isMinimized && !w.isMaximized
  {
    var off := CascadeOffset(|ws|);
    WindowState(id, a, Apps(a).title, 100 + off, 50 + off,
                Apps(a).defaultWidth, Apps(a).defaultHeight, NewZ(ws), false, false)
  }

  /** openApp: exactly one window is appended, after the earlier ones, which
      are untouched; it is on top, visible and placed by the cascade. */
  function Open(ws: seq<WindowState>, a: AppId, id: string): (r: seq<WindowState>)
    ensures |r| == |ws| + 1 && r[..|ws|] == ws
    ensures var w := r[|ws|];
      w.id == id && w.appId == a && !w.isMinimized && !w.isMaximized &&
      100 <= w.x <= 280 && 50 <= w.y <= 230 &&
      forall i :: 0 <= i < |ws| ==> r[i].zIndex < w.zIndex
  {
    ws + [NewWindow(ws, a, id)]
  }

  /** closeWindow: `ws.filter(w => w.id !== id)`. */
  function Close(ws: seq<WindowState>, id: string): (r: seq<WindowState>)
    ensures |r| <= |ws|
    ensures forall i :: 0 <= i < |r| ==> r[i] in ws && r[i].id != id
    ensures forall i :: 0 <= i < |ws| && ws[i].id != id ==> ws[i] in r
  {
    if ws == [] then [] else (if ws[0].id == id then [] else [ws[0]]) + Close(ws[1..], id)
  }

  /** Closing distributes over concatenation, so the remaining windows keep
      their order. */
  lemma {:induction false} CloseAppend(a: seq<WindowState>, b: seq<WindowState>, id: string)
    ensures Close(a + b, id) == Close(a, id) + Close(b, id)
  {
    if a == [] {
      assert a + b == b;
    } else {
      assert (a + b)[1..] == a[1..] + b;
      CloseAppend(a[1..], b, id);
    }
  }

  /** Closing an id that is not open changes nothing. */
  lemma {:induction false} CloseUnknown(ws: seq<WindowState>, id: string)
    requires forall i :: 0 <= i < |ws| ==> ws[i].id != id
    ensures Close(ws, id) == ws
  {
    if ws != [] {
      CloseUnknown(ws[1..], id);
    }
  }

  /** `ws.map(w => w.id === id ? f(w) : w)`, the shape of every per-window
      update in the shell. */
  function UpdateById(ws: seq<WindowState>, id: string, f: WindowState -> WindowState): (r: seq<WindowState>)
    ensures |r| == |ws|
    ensures forall i :: 0 <= i < |ws| ==> r[i] == if ws[i].id == id then f(ws[i]) else ws[i]
  {
    if ws == [] then []
    else [if ws[0].id == id then f(ws[0]) else ws[0]] + UpdateById(ws[1..], id, f)
  }

  /** focusWindow: the windows with that id go to one above `max(z, 0)` and
      every other window is untouched. */
  function Focus(ws: seq<WindowState>, id: string): (r: seq<WindowState>)
    ensures |r| == |ws|
    ensures forall i :: 0 <= i < |ws| && ws[i].id != id ==> r[i] == ws[i]
    ensures forall i :: 0 <= i < |ws| && ws[i].id == id ==>
      r[i] == ws[i].(zIndex := TopZ(ws) + 1)
    ensures forall i, j :: 0 <= i < |ws| && 0 <= j < |ws| && ws[i].id == id ==>
      ws[j].zIndex < r[i].zIndex
  {
    var z := TopZ(ws) + 1;
    UpdateById(ws, id, (w: WindowState) => w.(zIndex := z))
  }

  /** After focusWindow(id) every window with that id is strictly above every
      other window, and above every z-index that existed before. */
  lemma FocusOnTop(ws: seq<WindowState>, id: string)
    ensures var r := Focus(ws, id);
      forall i, j :: 0 <= i < |r| && 0 <= j < |r| && r[i].id == id && r[j].id != id ==>
        r[j].zIndex < r[i].zIndex
  {
    var r := Focus(ws, id);
    forall i, j | 0 <= i < |r| && 0 <= j < |r| && r[i].id == id && r[j].id != id
      ensures r[j].zIndex < r[i].zIndex
    {
      assert ws[i].id == r[i].id && ws[j].id == r[j].id;
    }
  }

  /** Focusing an id that is not open leaves the list unchanged. */
  lemma FocusUnknown(ws: seq<WindowState>, id: string)
    requires forall i :: 0 <= i < |ws| ==> ws[i].id != id
    ensures Focus(ws, id) == ws
  {
  }

  /** The `isMinimized` update of minimizeWindow (`true`) and restoreWindow
      (`false`). */
  function SetMinimized(ws: seq<WindowState>, id: string, b: bool): (r: seq<WindowState>)
    ensures |r| == |ws|
    ensures forall i :: 0 <= i < |ws| ==>
      r[i] == if ws[i].id == id then ws[i].(isMinimized := b) else ws[i]
  {
    UpdateById(ws, id, (w: WindowState) => w.(isMinimized := b))
  }

  /** The per-window step of maximizeWindow, in a viewport of `vw` by `vh`
      pixels: a maximized window goes back to its application's default size
      at (100, 50); any other fills the viewport above the 48-pixel taskbar. */
  function ToggleMaximized(w: WindowState, vw: int, vh: int): (r: WindowState)
    ensures r.id == w.id && r.appId == w.appId && r.zIndex == w.zIndex
    ensures r.title == w.title && r.isMinimized == w.isMinimized
    ensures r.isMaximized == !w.isMaximized
  {
    if w.isMaximized then
      w.(width := Apps(w.appId).defaultWidth, height := Apps(w.appId).defaultHeight,
         x := 100, y := 50, isMaximized := false)
    else
      w.(width := vw, height := vh - 48, x := 0, y := 0, isMaximized := true)
  }

  /** The application's default geometry at the fixed anchor (100, 50). */
  predicate AtDefaultGeometry(w: WindowState) {
    w.x == 100 && w.y == 50 &&
    w.width == Apps(w.appId).defaultWidth && w.height == Apps(w.appId).defaultHeight
  }

  /** Maximizing a window that is not maximized fills the viewport above the
      taskbar; doing it again lands on the default geometry, whatever the
      window's geometry was before. */
  lemma MaximizeTwice(w: WindowState, vw: int, vh: int)
    requires !w.isMaximized
    ensures var m := ToggleMaximized(w, vw, vh);
      m.x == 0 && m.y == 0 && m.width == vw && m.height == vh - 48 && m.isMaximized
    ensures var r := ToggleMaximized(ToggleMaximized(w, vw, vh), vw, vh);
      AtDefaultGeometry(r) && !r.isMaximized && r.zIndex == w.zIndex
  {
  }

  /** So maximize-then-unmaximize gives the window back exactly when it was at
      its default geometry. */
  lemma MaximizeTwiceIdentityIff(w: WindowState, vw: int, vh: int)
    requires !w.isMaximized
    ensures ToggleMaximized(ToggleMaximized(w, vw, vh), vw, vh) == w <==> AtDefaultGeometry(w)
  {
    MaximizeTwice(w, vw, vh);
  }

  /** A window that was dragged to (300, 200) does not come back there. */
  lemma MaximizeTwiceForgetsPosition(w: WindowState, vw: int, vh: int)
    requires !w.isMaximized && w.x == 300 && w.y == 200
    ensures ToggleMaximized(ToggleMaximized(w, vw, vh), vw, vh).x != w.x
  {
    MaximizeTwice(w, vw, vh);
  }

  /** maximizeWindow: toggle the geometry of the windows with that id, then
      focus them. */
  function Maximize(ws: seq<WindowState>, id: string, vw: int, vh: int): (r: seq<WindowState>)
    ensures |r| == |ws|
    ensures forall i :: 0 <= i < |ws| && ws[i].id != id ==> r[i] == ws[i]
    ensures forall i :: 0 <= i < |ws| && ws[i].id == id ==>
      r[i] == (if ws[i].isMaximized
               then ws[i].(x := 100, y := 50, width := Apps(ws[i].appId).defaultWidth,
                           height := Apps(ws[i].appId).defaultHeight, isMaximized := false)
               else ws[i].(x := 0, y := 0, width := vw, height := vh - 48, isMaximized := true)
              ).(zIndex := TopZ(ws) + 1)
    ensures forall i, j :: 0 <= i < |ws| && 0 <= j < |ws| && ws[i].id == id ==>
      ws[j].zIndex < r[i].zIndex
  {
    var t := UpdateById(ws, id, (w: WindowState) => ToggleMaximized(w, vw, vh));
    assert forall j :: 0 <= j < |ws| ==> t[j].zIndex == ws[j].zIndex;
    Focus(t, id)
  }

  /** restoreWindow: clear `isMinimized`, then focus. */
  function Restore(ws: seq<WindowState>, id: string): (r: seq<WindowState>)
    ensures |r| == |ws|
    ensures forall i :: 0 <= i < |ws| && ws[i].id != id ==> r[i] == ws[i]
    ensures forall i :: 0 <= i < |ws| && ws[i].id == id ==>
      r[i] == ws[i].(isMinimized := false, zIndex := TopZ(ws) + 1)
    ensures forall i, j :: 0 <= i < |ws| && 0 <= j < |ws| && ws[i].id == id ==>
      ws[j].zIndex < r[i].zIndex
  {
    var t := SetMinimized(ws, id, false);
    assert forall j :: 0 <= j < |ws| ==> t[j].zIndex == ws[j].zIndex;
    Focus(t, id)
  }

  /** moveWindow: only the x and y of the windows with that id change. */
  function Move(ws: seq<WindowState>, id: string, x: int, y: int): (r: seq<WindowState>)
    ensures |r| == |ws|
    ensures forall i :: 0 <= i < |ws| ==>
      r[i] == if ws[i].id == id then ws[i].(x := x, y := y) else ws[i]
  {
    UpdateById(ws, id, (w: WindowState) => w.(x := x, y := y))
  }

  /** `ws.find(w => w.appId === a && w.isMinimized === minimized)`, as an
      index. */
  function FindInstance(ws: seq<WindowState>, a: AppId, minimized: bool): (r: Option<nat>)
    ensures r.Some? ==> r.value < |ws| && ws[r.value].appId == a && ws[r.value].isMinimized == minimized
    ensures r.Some? ==> forall j :: 0 <= j < r.value ==> !(ws[j].appId == a && ws[j].isMinimized == minimized)
    ensures r.None? ==> forall j :: 0 <= j < |ws| ==> !(ws[j].appId == a && ws[j].isMinimized == minimized)
  {
    if ws == [] then None
    else if ws[0].appId == a && ws[0].isMinimized == minimized then Some(0)
    else
      match FindInstance(ws[1..], a, minimized)
      case None => assert forall j :: 1 <= j < |ws| ==> ws[j] == ws[1..][j - 1]; None
      case Some(k) => assert forall j :: 1 <= j < k + 1 ==> ws[j] == ws[1..][j - 1]; Some(k + 1)
  }

  /** What handlePinnedAppClick does with the window list. */
  datatype PinnedAction = FocusExisting(id: string) | RestoreExisting(id: string) | OpenNew

  /** handlePinnedAppClick's choice: focus the first visible instance of the
      application, else restore its first minimized instance, else open one. */
  function PinnedActionFor(ws: seq<WindowState>, a: AppId): (act: PinnedAction)
    ensures act.FocusExisting? ==>
      exists i :: 0 <= i < |ws| && ws[i].id == act.id && ws[i].appId == a && !ws[i].isMinimized &&
        forall j :: 0 <= j < i ==> !(ws[j].appId == a && !ws[j].isMinimized)
    ensures act.RestoreExisting? ==>
      (forall j :: 0 <= j < |ws| ==> !(ws[j].appId == a && !ws[j].isMinimized)) &&
      exists i :: 0 <= i < |ws| && ws[i].id == act.id && ws[i].appId == a && ws[i].isMinimized &&
        forall j :: 0 <= j < i ==> !(ws[j].appId == a && ws[j].isMinimized)
    ensures act.OpenNew? <==> forall j :: 0 <= j < |ws| ==> ws[j].appId != a
  {
    match FindInstance(ws, a, false)
    case Some(i) => FocusExisting(ws[i].id)
    case None =>
      match FindInstance(ws, a, true)
      case Some(i) => RestoreExisting(ws[i].id)
      case None => OpenNew
  }

  /** The window list after handlePinnedAppClick(a); `newId` is the id a new
      window would get. */
  function PinnedClick(ws: seq<WindowState>, a: AppId, newId: string): seq<WindowState> {
    match PinnedActionFor(ws, a)
    case FocusExisting(id) => Focus(ws, id)
    case RestoreExisting(id) => Restore(ws, id)
    case OpenNew => Open(ws, a, newId)
  }

  /** The window handlePinnedAppClick makes active: the one it focuses or
      restores, or the new one with id `newId`. */
  function PinnedTarget(act: PinnedAction, newId: string): string {
    match act
    case FocusExisting(id) => id
    case RestoreExisting(id) => id
    case OpenNew => newId
  }

  /** How many windows of application `a` are open. */
  function CountApp(ws: seq<WindowState>, a: AppId): nat {
    if ws == [] then 0 else (if ws[0].appId == a then 1 else 0) + CountApp(ws[1..], a)
  }

  lemma {:induction false} CountAppZero(ws: seq<WindowState>, a: AppId)
    ensures CountApp(ws, a) == 0 <==> forall j :: 0 <= j < |ws| ==> ws[j].appId != a
  {
    if ws != [] {
      CountAppZero(ws[1..], a);
      assert forall j :: 1 <= j < |ws| ==> ws[j] == ws[1..][j - 1];
    }
  }

  /** Lists with the same applications position by position have the same
      counts. */
  lemma {:induction false} CountAppSameApps(ws1: seq<WindowState>, ws2: seq<WindowState>, a: AppId)
    requires |ws1| == |ws2| && forall i :: 0 <= i < |ws1| ==> ws1[i].appId == ws2[i].appId
    ensures CountApp(ws1, a) == CountApp(ws2, a)
  {
    if ws1 != [] {
      CountAppSameApps(ws1[1..], ws2[1..], a);
    }
  }

  lemma {:induction false} CountAppAppend(ws: seq<WindowState>, w: WindowState, a: AppId)
    ensures CountApp(ws + [w], a) == CountApp(ws, a) + (if w.appId == a then 1 else 0)
  {
    if ws != [] {
      assert (ws + [w])[1..] == ws[1..] + [w];
      CountAppAppend(ws[1..], w, a);
    }
  }

  /** A pinned click never creates a second instance: it opens a window only
      when the application has none, and otherwise leaves the number of its
      windows as it was. */
  lemma PinnedClickSingleInstance(ws: seq<WindowState>, a: AppId, newId: string)
    ensures var n := CountApp(ws, a);
      CountApp(PinnedClick(ws, a, newId), a) == if n == 0 then 1 else n
    ensures CountApp(ws, a) > 0 ==> |PinnedClick(ws, a, newId)| == |ws|
  {
    CountAppZero(ws, a);
    match PinnedActionFor(ws, a)
    case FocusExisting(id) =>
      CountAppFocus(ws, id, a);
    case RestoreExisting(id) =>
      CountAppRestore(ws, id, a);
    case OpenNew =>
      CountAppOpen(ws, a, newId);
  }

  /** Focusing, restoring and opening change the count of an application's
      windows only by the window opened. */
  lemma CountAppFocus(ws: seq<WindowState>, id: string, a: AppId)
    ensures CountApp(Focus(ws, id), a) == CountApp(ws, a)
  {
    CountAppSameApps(Focus(ws, id), ws, a);
  }

  lemma CountAppRestore(ws: seq<WindowState>, id: string, a: AppId)
    ensures CountApp(Restore(ws, id), a) == CountApp(ws, a)
  {
    CountAppSameApps(Restore(ws, id), ws, a);
  }

  lemma CountAppOpen(ws: seq<WindowState>, a: AppId, id: string)
    ensures CountApp(Open(ws, a, id), a) == CountApp(ws, a) + 1
  {
    var r := Open(ws, a, id);
    assert r == ws + [r[|ws|]];
    CountAppAppend(ws, r[|ws|], a);
  }

  /** Two clicks on the same pinned application leave one window of it when
      there was none. */
  lemma PinnedClickTwice(ws: seq<WindowState>, a: AppId, id1: string, id2: string)
    requires forall j :: 0 <= j < |ws| ==> ws[j].appId != a
    ensures CountApp(PinnedClick(PinnedClick(ws, a, id1), a, id2), a) == 1
  {
    CountAppZero(ws, a);
    PinnedClickSingleInstance(ws, a, id1);
    PinnedClickSingleInstance(PinnedClick(ws, a, id1), a, id2);
  }

  /** The window table's invariant: ids and z-indices are unique. */
  ghost predicate WellFormed(ws: seq<WindowState>) {
    forall i, j :: 0 <= i < j < |ws| ==> ws[i].id != ws[j].id && ws[i].zIndex != ws[j].zIndex
  }

  /** Opening under a fresh id keeps the table well formed. */
  lemma OpenWellFormed(ws: seq<WindowState>, a: AppId, id: string)
    requires WellFormed(ws)
    requires forall i :: 0 <= i < |ws| ==> ws[i].id != id
    ensures WellFormed(Open(ws, a, id))
  {
    var r := Open(ws, a, id);
    forall i, j | 0 <= i < j < |r| ensures r[i].id != r[j].id && r[i].zIndex != r[j].zIndex {
      assert r[i] == ws[i];
      if j < |ws| {
        assert r[j] == ws[j];
      }
    }
  }

  /** Focusing keeps the table well formed: the one window with that id is
      now strictly above all others. */
  lemma FocusWellFormed(ws: seq<WindowState>, id: string)
    requires WellFormed(ws)
    ensures WellFormed(Focus(ws, id))
  {
  }

  /** An update that keeps ids and z-indices keeps the table well formed
      (minimize, restore's first half, move, maximize's geometry step). */
  lemma UpdateWellFormed(ws: seq<WindowState>, id: string, f: WindowState -> WindowState)
    requires WellFormed(ws)
    requires forall i :: 0 <= i < |ws| ==> f(ws[i]).id == ws[i].id && f(ws[i]).zIndex == ws[i].zIndex
    ensures WellFormed(UpdateById(ws, id, f))
  {
  }

  /** A window that differs in id and z-index from every window of a well
      formed table can go in front of it. */
  lemma ConsWellFormed(w: WindowState, t: seq<WindowState>)
    requires WellFormed(t)
    requires forall k :: 0 <= k < |t| ==> t[k].id != w.id && t[k].zIndex != w.zIndex
    ensures WellFormed([w] + t)
  {
    var r := [w] + t;
    forall i, j | 0 <= i < j < |r| ensures r[i].id != r[j].id && r[i].zIndex != r[j].zIndex {
      assert r[j] == t[j - 1];
      if i > 0 {
        assert r[i] == t[i - 1];
      }
    }
  }

  /** Closing keeps the table well formed. */
  lemma {:induction false} CloseWellFormed(ws: seq<WindowState>, id: string)
    requires WellFormed(ws)
    ensures WellFormed(Close(ws, id))
  {
    if ws != [] {
      assert WellFormed(ws[1..]);
      CloseWellFormed(ws[1..], id);
      var tail := Close(ws[1..], id);
      if ws[0].id != id {
        forall k | 0 <= k < |tail| ensures tail[k].id != ws[0].id && tail[k].zIndex != ws[0].zIndex {
          var m :| 0 <= m < |ws[1..]| && ws[1..][m] == tail[k];
          assert ws[m + 1] == tail[k];
        }
        ConsWellFormed(ws[0], tail);
      }
    }
  }

  /** No window with id `id` is minimized, so a window with that id, if it
      is the active one, is on screen. */
  predicate Shown(ws: seq<WindowState>, id: string) {
    forall i :: 0 <= i < |ws| && ws[i].id == id ==> !ws[i].isMinimized
  }

  /** Focusing, maximizing and moving leave every window's `isMinimized` as it
      was, so they show exactly the ids that were shown. */
  lemma FocusKeepsShown(ws: seq<WindowState>, id: string, x: string)
    ensures Shown(Focus(ws, id), x) <==> Shown(ws, x)
  {
    var r := Focus(ws, id);
    assert forall i :: 0 <= i < |ws| ==> r[i].id == ws[i].id && r[i].isMinimized == ws[i].isMinimized;
  }

  lemma MaximizeKeepsShown(ws: seq<WindowState>, id: string, vw: int, vh: int, x: string)
    ensures Shown(Maximize(ws, id, vw, vh), x) <==> Shown(ws, x)
  {
    var r := Maximize(ws, id, vw, vh);
    assert forall i :: 0 <= i < |ws| ==> r[i].id == ws[i].id && r[i].isMinimized == ws[i].isMinimized;
  }

  lemma MoveKeepsShown(ws: seq<WindowState>, id: string, px: int, py: int, x: string)
    ensures Shown(Move(ws, id, px, py), x) <==> Shown(ws, x)
  {
    var r := Move(ws, id, px, py);
    assert forall i :: 0 <= i < |ws| ==> r[i].id == ws[i].id && r[i].isMinimized == ws[i].isMinimized;
  }

  /** Closing only drops windows, so a shown id stays shown. */
  lemma CloseKeepsShown(ws: seq<WindowState>, id: string, x: string)
    requires Shown(ws, x)
    ensures Shown(Close(ws, id), x)
  {
    var r := Close(ws, id);
    forall i | 0 <= i < |r| && r[i].id == x
      ensures !r[i].isMinimized
    {
      var m :| 0 <= m < |ws| && ws[m] == r[i];
    }
  }

  /** Restoring shows the restored id and keeps every shown id shown. */
  lemma RestoreShows(ws: seq<WindowState>, id: string, x: string)
    ensures Shown(Restore(ws, id), id)
    ensures Shown(ws, x) ==> Shown(Restore(ws, id), x)
  {
  }

  /** The opened window is visible, so opening adds no hidden window. */
  lemma OpenKeepsShown(ws: seq<WindowState>, a: AppId, id: string, x: string)
    ensures Shown(Open(ws, a, id), x) <==> Shown(ws, x)
  {
    var r := Open(ws, a, id);
    assert forall i :: 0 <= i < |ws| ==> r[i] == ws[i];
  }

  /** The window a pinned click makes active is on screen: a restored one
      always, a new one when no hidden window has its id, and a focused one
      when ids are unique (the focused instance is the visible one). */
  lemma PinnedClickShows(ws: seq<WindowState>, a: AppId, newId: string)
    ensures var act := PinnedActionFor(ws, a);
      (act.RestoreExisting? ==> Shown(PinnedClick(ws, a, newId), act.id)) &&
      (act.OpenNew? ==> (Shown(PinnedClick(ws, a, newId), newId) <==> Shown(ws, newId))) &&
      (act.FocusExisting? && WellFormed(ws) ==> Shown(PinnedClick(ws, a, newId), act.id))
  {
    match PinnedActionFor(ws, a)
    case FocusExisting(id) =>
      if WellFormed(ws) {
        var i :| 0 <= i < |ws| && ws[i].id == id && ws[i].appId == a && !ws[i].isMinimized;
        assert Shown(ws, id);
        FocusKeepsShown(ws, id, id);
      }
    case RestoreExisting(id) =>
      RestoreShows(ws, id, id);
    case OpenNew =>
      OpenKeepsShown(ws, a, newId, newId);
  }

  /** With unique ids, a visible window's id is shown: the window frames that
      are mounted, and the taskbar buttons of visible windows, name shown ids. */
  lemma VisibleWindowShown(ws: seq<WindowState>, k: nat)
    requires WellFormed(ws) && k < |ws| && !ws[k].isMinimized
    ensures Shown(ws, ws[k].id)
  {
    forall i | 0 <= i < |ws| && ws[i].id == ws[k].id
      ensures i == k
    {
    }
  }
}
