// The minimap of src/utils/minimap_system.py: the world-to-minimap
// mapping, the platform icons, and the drag state machine of
// handle_mouse_event. The MINIMAP_* settings are not defined by the
// configuration, so the minimap's width, height and margin are
// constructor parameters; the mouse position is a parameter of each event.

module Minimap {
  import opened Config
  import opened GameObjects

  /** The mouse events handle_mouse_event looks at; button 1 is the left button. */
  datatype MouseEvent = ButtonDown(button: int) | ButtonUp(button: int) | Motion | OtherMouse

  /** Where the minimap is, whether it is being dragged, and where it was grabbed. */
  datatype DragState = DragState(x: int, y: int, dragging: bool, offsetX: int, offsetY: int)

  /** `max(0, min(hi, v))`. */
  function Clamp(v: int, hi: int): (r: int)
    ensures 0 <= r && (0 <= hi ==> r <= hi)
    ensures 0 <= v <= hi ==> r == v
    ensures v < 0 ==> r == 0
    ensures 0 <= hi < v ==> r == hi
  {
    var m := if v <= hi then v else hi;
    if m >= 0 then m else 0
  }

  /** The minimap lies wholly on the screen. */
  predicate OnScreen(s: DragState, w: int, h: int)
  {
    0 <= s.x <= SCREEN_WIDTH - w && 0 <= s.y <= SCREEN_HEIGHT - h
  }

  /** The mouse is on the minimap, edges included. */
  predicate Inside(s: DragState, w: int, h: int, mx: int, my: int)
  {
    s.x <= mx <= s.x + w && s.y <= my <= s.y + h
  }

  /**
   * handle_mouse_event for a w x h minimap with the mouse at (mx, my): the
   * new drag state and whether the event was taken. A left press on the
   * minimap grabs it; a left release lets go and is never reported as
   * taken; motion while grabbed moves it with the mouse, kept on screen.
   */
  function Handle(s: DragState, e: MouseEvent, w: int, h: int, mx: int, my: int): (r: (DragState, bool))
    ensures OnScreen(s, w, h) ==> OnScreen(r.0, w, h)
    ensures r.0.dragging ==> s.dragging || r.1
    ensures r.1 <==> (e == ButtonDown(1) && Inside(s, w, h, mx, my)) || (e == Motion && s.dragging)
  {
    match e
    case ButtonDown(b) =>
      if b == 1 && Inside(s, w, h, mx, my) then (DragState(s.x, s.y, true, mx - s.x, my - s.y), true)
      else (s, false)
    case ButtonUp(b) =>
      if b == 1 then (s.(dragging := false), false) else (s, false)
    case Motion =>
      if s.dragging then
        (s.(x := Clamp(mx - s.offsetX, SCREEN_WIDTH - w), y := Clamp(my - s.offsetY, SCREEN_HEIGHT - h)), true)
      else (s, false)
    case OtherMouse => (s, false)
  }

  /** A left press on the minimap grabs it where the mouse is; anywhere else it changes nothing. */
  lemma PressGrabs(s: DragState, w: int, h: int, mx: int, my: int)
    ensures var r := Handle(s, ButtonDown(1), w, h, mx, my);
      if Inside(s, w, h, mx, my) then
        r.1 && r.0 == DragState(s.x, s.y, true, mx - s.x, my - s.y)
      else
        !r.1 && r.0 == s
  {
  }

  /** A left release always lets go, leaves the minimap where it is, and reports the event as not taken. */
  lemma ReleaseLetsGo(s: DragState, w: int, h: int, mx: int, my: int)
    ensures var r := Handle(s, ButtonUp(1), w, h, mx, my);
      !r.1 && !r.0.dragging && r.0.x == s.x && r.0.y == s.y
  {
  }

  /** Motion while not dragging changes nothing and is not taken. */
  lemma IdleMotion(s: DragState, w: int, h: int, mx: int, my: int)
    requires !s.dragging
    ensures Handle(s, Motion, w, h, mx, my) == (s, false)
  {
  }

  /**
   * Grabbing the minimap at one mouse position and moving the mouse to
   * another moves the minimap by the same amount, as long as that keeps
   * it on screen; otherwise it stops at the screen's edge.
   */
  lemma DragFollowsMouse(s: DragState, w: int, h: int, mx: int, my: int, mx2: int, my2: int)
    requires Inside(s, w, h, mx, my)
    ensures var grabbed := Handle(s, ButtonDown(1), w, h, mx, my).0;
      var moved := Handle(grabbed, Motion, w, h, mx2, my2).0;
      moved.x == Clamp(s.x + (mx2 - mx), SCREEN_WIDTH - w) && moved.y == Clamp(s.y + (my2 - my), SCREEN_HEIGHT - h) &&
      (0 <= s.x + (mx2 - mx) <= SCREEN_WIDTH - w ==> moved.x == s.x + (mx2 - mx)) &&
      (0 <= s.y + (my2 - my) <= SCREEN_HEIGHT - h ==> moved.y == s.y + (my2 - my))
  {
    var grabbed := Handle(s, ButtonDown(1), w, h, mx, my).0;
    assert mx2 - grabbed.offsetX == s.x + (mx2 - mx);
    assert my2 - grabbed.offsetY == s.y + (my2 - my);
  }

  /** The scale-and-clamp of _world_to_minimap on one axis, for a minimap `size` pixels long. */
  function AxisToMinimap(world: real, scale: real, size: int): (m: int)
    requires size >= 1
    ensures 0 <= m <= size - 1
    ensures 0.0 <= world * scale <= (size - 1) as real ==> m as real <= world * scale < m as real + 1.0
  {
    Trunc(MaxR(0.0, MinR((size - 1) as real, world * scale)))
  }

  lemma ProductNonNegative(x: real, y: real)
    requires x >= 0.0 && y >= 0.0
    ensures x * y >= 0.0
  {
  }

  /** A point further along the world axis never maps to an earlier minimap pixel. */
  lemma AxisMonotone(a: real, b: real, scale: real, size: int)
    requires size >= 1 && scale >= 0.0 && a <= b
    ensures AxisToMinimap(a, scale, size) <= AxisToMinimap(b, scale, size)
  {
    var top := (size - 1) as real;
    var sa, sb := a * scale, b * scale;
    assert sa <= sb by {
      assert sb - sa == (b - a) * scale;
      ProductNonNegative(b - a, scale);
    }
    var ma := MinR(top, sa);
    var mb := MinR(top, sb);
    assert ma <= mb;
    assert MaxR(0.0, ma) <= MaxR(0.0, mb);
    TruncMonotone(MaxR(0.0, ma), MaxR(0.0, mb));
  }

  /** The world's origin maps to pixel 0, a point `size` pixels along at the scale to the last pixel. */
  lemma AxisEnds(scale: real, size: int)
    requires size >= 1
    ensures AxisToMinimap(0.0, scale, size) == 0
    ensures forall world: real :: world * scale == size as real ==> AxisToMinimap(world, scale, size) == size - 1
  {
  }

  /** Platform icon colours: low, middle and high platforms. */
  const LOW_PLATFORM: Color := RGB(139, 69, 19)
  const MIDDLE_PLATFORM: Color := RGB(160, 82, 45)
  const HIGH_PLATFORM: Color := RGB(169, 169, 169)

  /** The colour band of a platform whose top is at y, in a level `levelHeight` tall. */
  function BandColor(y: real, levelHeight: real): Color
  {
    if y > levelHeight * 0.7 then LOW_PLATFORM
    else if y > levelHeight * 0.4 then MIDDLE_PLATFORM
    else HIGH_PLATFORM
  }

  /** 0 for the lowest band, 2 for the highest. */
  function BandRank(c: Color): int
  {
    if c == LOW_PLATFORM then 0 else if c == MIDDLE_PLATFORM then 1 else 2
  }

  /** A platform lower on the screen (larger y) never gets a higher band. */
  lemma BandMonotone(y1: real, y2: real, levelHeight: real)
    requires levelHeight >= 0.0 && y1 <= y2
    ensures BandRank(BandColor(y2, levelHeight)) <= BandRank(BandColor(y1, levelHeight))
  {
  }

  /** `min(255, c + 30)` on each channel. */
  function Brighten(c: Color): Color
  {
    RGB(if 255 <= c.r + 30 then 255 else c.r + 30, if 255 <= c.g + 30 then 255 else c.g + 30,
        if 255 <= c.b + 30 then 255 else c.b + 30)
  }

  /** A platform as the minimap draws it: its rectangle, its colour and, when it is tall enough, its top highlight. */
  datatype Icon = Icon(x: int, y: int, w: int, h: int, color: Color, highlight: Option<Color>)

  /** MinimapSystem: the minimap's size, scale and drag state. */
  class MinimapSystem {
    const levelWidth: int
    const levelHeight: int
    const minimapWidth: int
    const minimapHeight: int
    const margin: int
    const scaleX: real
    const scaleY: real
    const originalX: int
    const originalY: int
    var minimapX: int
    var minimapY: int
    var isDragging: bool
    var dragOffsetX: int
    var dragOffsetY: int

    /** The settings the constructor fixed. */
    predicate Sized()
    {
      minimapWidth >= 1 && minimapHeight >= 1 && levelWidth != 0 && levelHeight != 0 &&
      scaleX == minimapWidth as real / levelWidth as real && scaleY == minimapHeight as real / levelHeight as real
    }

    /** When the minimap fits on the screen at its margin, it never leaves the screen. */
    predicate Valid()
      reads this
    {
      Sized() &&
      (margin >= 0 && minimapWidth + margin <= SCREEN_WIDTH && minimapHeight + margin <= SCREEN_HEIGHT ==>
        OnScreen(State(), minimapWidth, minimapHeight))
    }

    function State(): DragState
      reads this
    {
      DragState(minimapX, minimapY, isDragging, dragOffsetX, dragOffsetY)
    }

    /** MinimapSystem(level_width, level_height): in the top right corner, `margin` from the edges, not dragged. */
    constructor (lw: int, lh: int, w: int, h: int, m: int)
      requires lw != 0 && lh != 0 && w >= 1 && h >= 1
      ensures Valid()
      ensures levelWidth == lw && levelHeight == lh && minimapWidth == w && minimapHeight == h && margin == m
      ensures State() == DragState(SCREEN_WIDTH - w - m, m, false, 0, 0)
      ensures originalX == SCREEN_WIDTH - w - m && originalY == m
    {
      levelWidth := lw;
      levelHeight := lh;
      minimapWidth := w;
      minimapHeight := h;
      margin := m;
      minimapX := SCREEN_WIDTH - w - m;
      minimapY := m;
      isDragging := false;
      dragOffsetX := 0;
      dragOffsetY := 0;
      originalX := SCREEN_WIDTH - w - m;
      originalY := m;
      scaleX := w as real / lw as real;
      scaleY := h as real / lh as real;
    }

    /** handle_mouse_event, with the mouse at (mouseX, mouseY). */
    method HandleMouseEvent(e: MouseEvent, mouseX: int, mouseY: int) returns (handled: bool)
      requires Valid()
      modifies this`minimapX, this`minimapY, this`isDragging, this`dragOffsetX, this`dragOffsetY
      ensures Valid()
      ensures (State(), handled) == Handle(old(State()), e, minimapWidth, minimapHeight, mouseX, mouseY)
    {
      handled := false;
      if e.ButtonDown? {
        if e.button == 1 {
          if minimapX <= mouseX <= minimapX + minimapWidth && minimapY <= mouseY <= minimapY + minimapHeight {
            isDragging := true;
            dragOffsetX := mouseX - minimapX;
            dragOffsetY := mouseY - minimapY;
            handled := true;
          }
        }
      } else if e.ButtonUp? {
        if e.button == 1 {
          isDragging := false;
          handled := isDragging;
        }
      } else if e.Motion? {
        if isDragging {
          var newX := mouseX - dragOffsetX;
          var newY := mouseY - dragOffsetY;
          minimapX := Clamp(newX, SCREEN_WIDTH - minimapWidth);
          minimapY := Clamp(newY, SCREEN_HEIGHT - minimapHeight);
          handled := true;
        }
      }
    }

    /** _world_to_minimap: a world point as a pixel of the minimap, always inside it. */
    function WorldToMinimap(worldX: real, worldY: real): (p: (int, int))
      requires Sized()
      ensures 0 <= p.0 <= minimapWidth - 1 && 0 <= p.1 <= minimapHeight - 1
    {
      (AxisToMinimap(worldX, scaleX, minimapWidth), AxisToMinimap(worldY, scaleY, minimapHeight))
    }

    /** The level's top left corner maps to the minimap's first pixel, its far corner to the last. */
    lemma LevelCorners()
      requires Sized()
      ensures WorldToMinimap(0.0, 0.0) == (0, 0)
      ensures WorldToMinimap(levelWidth as real, levelHeight as real) == (minimapWidth - 1, minimapHeight - 1)
    {
      AxisEnds(scaleX, minimapWidth);
      AxisEnds(scaleY, minimapHeight);
      assert levelWidth as real * scaleX == minimapWidth as real;
      assert levelHeight as real * scaleY == minimapHeight as real;
    }

    /**
     * One platform of _draw_platforms: at its mapped corner, at least 2 x 2,
     * coloured by its height in the level, highlighted when 3 or more
     * pixels tall. The icon is drawn only when its corner is on the
     * minimap, which the clamp always makes so.
     */
    function PlatformIcon(p: Rect): (r: Option<Icon>)
      requires Sized()
      ensures r.Some?
      ensures r.value.w >= 2 && r.value.h >= 2
      ensures (r.value.x, r.value.y) == WorldToMinimap(p.x as real, p.y as real)
      ensures r.value.color == BandColor(p.y as real, levelHeight as real)
      ensures r.value.highlight.Some? <==> r.value.h >= 3
    {
      var (px, py) := WorldToMinimap(p.x as real, p.y as real);
      var tw := Trunc(p.w as real * scaleX);
      var th := Trunc(p.h as real * scaleY);
      var pw := if 2 >= tw then 2 else tw;
      var ph := if 2 >= th then 2 else th;
      if px < minimapWidth && py < minimapHeight then
        var color := BandColor(p.y as real, levelHeight as real);
        Some(Icon(px, py, pw, ph, color, if ph >= 3 then Some(Brighten(color)) else None))
      else
        None
    }

    /** _draw_platforms: the icons it draws, one per platform, in order. */
    method DrawPlatforms(platforms: seq<Rect>) returns (drawn: seq<Icon>)
      requires Sized()
      ensures |drawn| == |platforms|
      ensures forall i :: 0 <= i < |platforms| ==> Some(drawn[i]) == PlatformIcon(platforms[i])
    {
      drawn := [];
      var i := 0;
      while i < |platforms|
        invariant 0 <= i <= |platforms| && |drawn| == i
        invariant forall j :: 0 <= j < i ==> Some(drawn[j]) == PlatformIcon(platforms[j])
      {
        var icon := PlatformIcon(platforms[i]);
        if icon.Some? {
          drawn := drawn + [icon.value];
        }
        i := i + 1;
      }
    }
  }
}
