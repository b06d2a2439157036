/**
 * The derived values of a navigation drawer: its layout size, its visible
 * width, the size it reserves in the shared page layout, the layout edge,
 * and the translate that slides it on and off screen. Each is a function
 * of the props and of the two pieces of state, `isActive` (open, tri-state)
 * and `isHovering`.
 */
module DrawerGeometry {
  import opened Wrappers
  import opened DrawerProps

  /** Permanent and stateless drawers cannot be dismissed. */
  predicate IsStateful(p: Props) {
    p.permanent || p.stateless
  }

  /** `isActive` read as a condition: an unset value counts as closed. */
  predicate IsOpen(active: Option<bool>) {
    active == Some(true)
  }

  /** The layout size: the rail width in rail mode, the declared width otherwise. */
  function Size(p: Props): nat {
    if p.rail then p.railWidth else p.width
  }

  /**
   * The width the drawer is drawn with. A rail drawer that expands on hover
   * is drawn at its declared width while the pointer is over it.
   */
  function VisibleWidth(p: Props, hovering: bool): (r: nat)
    ensures r == p.width || r == p.railWidth
    ensures r != Size(p) ==> p.rail && p.expandOnHover && hovering
  {
    if p.rail && p.expandOnHover && hovering then p.width else Size(p)
  }

  /** The size the drawer submits to the shared layout: its size, or nothing. */
  function ReservedSize(p: Props, active: Option<bool>): (r: nat)
    ensures r == 0 || r == Size(p)
    ensures IsStateful(p) ==> r == Size(p)
    ensures !IsStateful(p) && (p.temporary || !IsOpen(active)) ==> r == 0
  {
    if IsStateful(p) || (IsOpen(active) && !p.temporary) then Size(p) else 0
  }

  /** The side of the layout the drawer claims space on. */
  datatype Edge = Left | Right

  function LayoutEdge(p: Props): Edge {
    if p.right then Right else Left
  }

  /** The axis the drawer slides along. */
  datatype Axis = X | Y

  function TranslateAxis(p: Props): Axis {
    if p.bottom then Y else X
  }

  /**
   * The translate along the axis, as a percentage of the drawer's own size:
   * 0 while it is shown, and 100 towards its own edge while it is hidden.
   */
  function Translate(p: Props, active: Option<bool>): (r: int)
    ensures r == 0 || r == 100 || r == -100
    ensures r == 0 <==> IsStateful(p) || IsOpen(active)
    ensures r < 0 <==> r != 0 && !p.right && !p.bottom
  {
    (if IsStateful(p) || IsOpen(active) then 0 else 100) * (if !p.right && !p.bottom then -1 else 1)
  }

  /** The entry the drawer submits to the shared layout service. */
  datatype LayoutRequest = LayoutRequest(priority: int, edge: Edge, size: nat)

  function Request(p: Props, active: Option<bool>): LayoutRequest {
    LayoutRequest(p.priority, LayoutEdge(p), ReservedSize(p, active))
  }

  /** Everything the drawer's state and props resolve to at one moment. */
  datatype Geometry = Geometry(
    size: nat,
    visibleWidth: nat,
    request: LayoutRequest,
    translate: int,
    axis: Axis)

  function Resolve(p: Props, active: Option<bool>, hovering: bool): Geometry {
    Geometry(Size(p), VisibleWidth(p, hovering), Request(p, active),
             Translate(p, active), TranslateAxis(p))
  }

  // ---------------------------------------------------------------------
  // Properties of the derived values.

  /**
   * Hovering changes nothing but the visible width: the size, the layout
   * request, the translate and the axis stay as they are.
   */
  lemma HoverChangesOnlyVisibleWidth(p: Props, active: Option<bool>, h: bool, h': bool)
    ensures Resolve(p, active, h') == Resolve(p, active, h).(visibleWidth := VisibleWidth(p, h'))
    ensures Request(p, active) == Resolve(p, active, h).request == Resolve(p, active, h').request
  {
  }

  /**
   * On a rail drawer that expands on hover, entering widens the drawn width
   * from the rail width to the declared width, while the submitted size
   * stays the rail width (or 0 when nothing is reserved).
   */
  lemma ExpandOnHoverKeepsFootprint(p: Props, active: Option<bool>)
    requires p.rail && p.expandOnHover
    ensures VisibleWidth(p, false) == p.railWidth && VisibleWidth(p, true) == p.width
    ensures Resolve(p, active, true).request.size == Resolve(p, active, false).request.size
    ensures Resolve(p, active, true).request.size in {0, p.railWidth}
  {
  }

  /** A hidden drawer slides towards negative values exactly on the left edge, along X. */
  lemma TranslateTowardsOwnEdge(p: Props, active: Option<bool>)
    ensures Translate(p, active) < 0 ==> LayoutEdge(p) == Left && TranslateAxis(p) == X
    ensures LayoutEdge(p) == Right || TranslateAxis(p) == Y ==> Translate(p, active) >= 0
    ensures Translate(p, active) != 0 && !p.right && !p.bottom ==> Translate(p, active) == -100
  {
  }

  // ---------------------------------------------------------------------
  // An independent description: the derived visibility states of the drawer.

  /**
   * The drawer's visibility state. A stateful drawer is `Docked` whether or
   * not it is open; an open one is `OpenDocked` or, when temporary,
   * `OpenOverlay`; anything else is `Closed`.
   */
  datatype Mode = Docked | OpenDocked | OpenOverlay | Closed

  function ModeOf(p: Props, active: Option<bool>): Mode {
    if p.permanent || p.stateless then Docked
    else if active == Some(true) then (if p.temporary then OpenOverlay else OpenDocked)
    else Closed
  }

  /** The states that take room from the page layout. */
  predicate TakesRoom(m: Mode) {
    m == Docked || m == OpenDocked
  }

  /** Reservation and translate agree with the visibility state. */
  lemma GeometryAgreesWithMode(p: Props, active: Option<bool>)
    ensures ReservedSize(p, active) == (if TakesRoom(ModeOf(p, active)) then Size(p) else 0)
    ensures Translate(p, active) == 0 <==> ModeOf(p, active) != Closed
  {
  }

  /** An overlay drawer is shown without taking room, whatever its size. */
  lemma OverlayShownWithoutRoom(p: Props, active: Option<bool>)
    requires ModeOf(p, active) == OpenOverlay
    ensures ReservedSize(p, active) == 0 && Translate(p, active) == 0
    ensures VisibleWidth(p, false) == Size(p)
  {
  }

  /** An open temporary drawer with a declared width of 300 is drawn 300 wide, on screen, reserving nothing. */
  lemma OpenTemporaryScenario()
    ensures var p := Defaults.(temporary := true, width := 300);
      var g := Resolve(p, Some(true), false);
      g.request.size == 0 && g.visibleWidth == 300 && g.translate == 0
  {
  }

  /** A permanent rail drawer under the pointer is drawn at its declared width but reserves only the rail. */
  lemma PermanentHoveredRailScenario(active: Option<bool>)
    ensures var p := Defaults.(permanent := true, rail := true, expandOnHover := true);
      var g := Resolve(p, active, true);
      g.request.size == 72 && g.visibleWidth == 256 && g.translate == 0
  {
  }
}
