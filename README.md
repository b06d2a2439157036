# Navigation drawer state and geometry

A Dafny model of the state-and-geometry logic of Vuetify's `VNavigationDrawer`
component: a side panel that can be permanent, temporary (overlaid), collapsed
to an icon rail, or hidden, and that claims room from the page layout it sits in.

- `wrappers.dfy` (`Wrappers`): the `Option` datatype used for the tri-state open value.
- `drawer_props.dfy` (`DrawerProps`): the props the logic reads, their declared
  defaults (width 256, rail width 72, alignment `start`) and the `aligned` validator.
- `drawer_geometry.dfy` (`DrawerGeometry`): the computed values as pure functions —
  the layout size, the visible width (widened on hover for an expand-on-hover
  rail), the size reserved in the shared layout (the size or 0), the layout edge,
  the translate percentage with its sign, and the translate axis. Beside them, an
  independent description of the drawer's visibility states (`Mode`) and lemmas
  that tie reservation and translate to it.
- `drawer_state.dfy` (`DrawerState`): the two pieces of mutable state, `isActive`
  (open; unset until seeded) and `isHovering`. The class `Drawer` holds them as
  fields, with the before-mount seeding and the pointer handlers as methods, each
  specified by one step of the transition function `Step`. `Run` replays a
  sequence of events, and lemmas by induction over such sequences show that
  pointer events never reach the open state or the reserved size, that seeding
  takes effect at most once, and that the hover flag follows the last pointer event.

Widths are whole pixels (`nat`); the translate is an integer percentage.

Points of the code's behaviour worth stating explicitly:
- The translate sign is +1 whenever `right` or `bottom` is set; `left` plays no
  part in it, so a drawer with both `left` and `right` slides out towards positive values.
- The layout edge is `right` when `right` is set and `left` otherwise; `bottom`
  does not change it, only the translate axis.
- An unset open value counts as closed wherever the code uses it as a condition
  (`IsOpen`), both for reservation and for the translate.
- A drawer that is both stateless and temporary counts as stateful: it reserves
  its size and is never translated off screen (`ReservedSize`, `Translate`, `ModeOf`).

## Model

| member | source | states |
|---|---|---|
| `DrawerProps.ParseAlignment` | packages/vuetify/src/components/VNavigationDrawer/VNavigationDrawer.tsx:23-24 | a string is read as an alignment only if it is that alignment's name; otherwise no alignment has that name |
| `DrawerProps.ValidAligned` | packages/vuetify/src/components/VNavigationDrawer/VNavigationDrawer.tsx:40 | the validator accepts exactly "start", "center" and "end" |
| `DrawerProps.AlignmentRoundTrip` | packages/vuetify/src/components/VNavigationDrawer/VNavigationDrawer.tsx:23 | every alignment's name is accepted and reads back as the same alignment |
| `DrawerGeometry.IsStateful` | packages/vuetify/src/components/VNavigationDrawer/VNavigationDrawer.tsx:67 | definition: a drawer is stateful when it is permanent or stateless |
| `DrawerGeometry.IsOpen` | packages/vuetify/src/components/VNavigationDrawer/VNavigationDrawer.tsx:81 | definition: the open value read as a condition; an unset value counts as closed (also at line 93) |
| `DrawerGeometry.Size` | packages/vuetify/src/components/VNavigationDrawer/VNavigationDrawer.tsx:68 | definition: the layout size is the rail width in rail mode and the declared width otherwise |
| `DrawerGeometry.VisibleWidth` | packages/vuetify/src/components/VNavigationDrawer/VNavigationDrawer.tsx:69-73 | the drawn width is always the declared width or the rail width, and differs from the size only when rail, expand-on-hover and hovering all hold |
| `DrawerGeometry.ReservedSize` | packages/vuetify/src/components/VNavigationDrawer/VNavigationDrawer.tsx:78-83 | the reserved size is 0 or the size; a stateful drawer always reserves its size; a non-stateful drawer that is temporary or not open reserves nothing |
| `DrawerGeometry.LayoutEdge` | packages/vuetify/src/components/VNavigationDrawer/VNavigationDrawer.tsx:77 | definition: the layout edge is right when `right` is set and left otherwise |
| `DrawerGeometry.TranslateAxis` | packages/vuetify/src/components/VNavigationDrawer/VNavigationDrawer.tsx:125 | definition: the drawer slides along Y when `bottom` is set and along X otherwise |
| `DrawerGeometry.Translate` | packages/vuetify/src/components/VNavigationDrawer/VNavigationDrawer.tsx:92-94 | the translate is 0, 100 or -100; it is 0 iff the drawer is stateful or open; it is negative iff it is non-zero and neither `right` nor `bottom` is set |
| `DrawerGeometry.Request` | packages/vuetify/src/components/VNavigationDrawer/VNavigationDrawer.tsx:74-84 | definition: the layout entry is the drawer's priority, its layout edge and its reserved size |
| `DrawerGeometry.Resolve` | packages/vuetify/src/components/VNavigationDrawer/VNavigationDrawer.tsx:68-125 | definition: the size, visible width, layout entry, translate and axis resolved together |
| `DrawerGeometry.HoverChangesOnlyVisibleWidth` | packages/vuetify/src/components/VNavigationDrawer/VNavigationDrawer.tsx:66-83 | changing the hover flag changes the drawn width and nothing else: size, layout entry, translate and axis are unchanged |
| `DrawerGeometry.ExpandOnHoverKeepsFootprint` | packages/vuetify/src/components/VNavigationDrawer/VNavigationDrawer.tsx:68-83 | on an expand-on-hover rail, hovering widens the drawn width from the rail width to the declared width while the submitted size stays the same, either the rail width or 0 |
| `DrawerGeometry.TranslateTowardsOwnEdge` | packages/vuetify/src/components/VNavigationDrawer/VNavigationDrawer.tsx:92-94 | a negative translate happens only on the left edge along X; a right-edge or bottom drawer never slides towards negative values; a hidden left drawer slides by -100 |
| `DrawerGeometry.GeometryAgreesWithMode` | packages/vuetify/src/components/VNavigationDrawer/VNavigationDrawer.tsx:78-94 | the reserved size is the size exactly in the docked states, and the translate is 0 exactly in the states other than closed |
| `DrawerGeometry.OverlayShownWithoutRoom` | packages/vuetify/src/components/VNavigationDrawer/VNavigationDrawer.tsx:78-94 | an open temporary drawer is on screen and reserves nothing |
| `DrawerGeometry.OpenTemporaryScenario` | packages/vuetify/src/components/VNavigationDrawer/VNavigationDrawer.tsx:67-94 | an open temporary drawer 300 wide is drawn 300 wide, untranslated, reserving 0 |
| `DrawerGeometry.PermanentHoveredRailScenario` | packages/vuetify/src/components/VNavigationDrawer/VNavigationDrawer.tsx:67-83 | a hovered permanent expand-on-hover rail with default widths is drawn 256 wide and reserves 72 |
| `DrawerState.Step` | packages/vuetify/src/components/VNavigationDrawer/VNavigationDrawer.tsx:86-99 | definition: one transition; seeding sets an unset open value to `!mobile`, the pointer handlers set or clear the hover flag, an outside update replaces the open value (possibly with unset) |
| `DrawerState.SeedingIsIdempotent` | packages/vuetify/src/components/VNavigationDrawer/VNavigationDrawer.tsx:86-88 | seeding sets an unset open value to `!mobile`, leaves a set one and the hover flag alone, and seeding twice equals seeding once |
| `DrawerState.OutsideResetCountsAsClosed` | packages/vuetify/src/components/VNavigationDrawer/VNavigationDrawer.tsx:81-93 | an outside reset unsets the open value, and a non-stateful drawer then reserves nothing and is slid off screen |
| `DrawerState.OpenStateIgnoresPointer` | packages/vuetify/src/components/VNavigationDrawer/VNavigationDrawer.tsx:86-99 | after any sequence of events the open value is that of the same events without pointer events, whatever the initial hover flag |
| `DrawerState.HoverNeverChangesReservation` | packages/vuetify/src/components/VNavigationDrawer/VNavigationDrawer.tsx:78-99 | after any sequence of events the layout entry and translate equal those reached without the pointer events |
| `DrawerState.SetStaysSet` | packages/vuetify/src/components/VNavigationDrawer/VNavigationDrawer.tsx:86-88 | once the open value is set, no sequence of events without an outside reset unsets it |
| `DrawerState.LaterSeedingIsInert` | packages/vuetify/src/components/VNavigationDrawer/VNavigationDrawer.tsx:86-88 | once the open value is set, and barring an outside reset, every later seeding is a no-op: the outcome equals that of the events without seeding |
| `DrawerState.SeededBeforeMount` | packages/vuetify/src/components/VNavigationDrawer/VNavigationDrawer.tsx:86-88 | seeding an unset drawer yields `!mobile`; barring an outside reset the value stays set afterwards and only the later non-seeding events decide it |
| `DrawerState.HoverFollowsLastPointerEvent` | packages/vuetify/src/components/VNavigationDrawer/VNavigationDrawer.tsx:98-99 | after any events the hover flag is given by the last pointer event (its initial value if none); a leave always clears it |
| `DrawerState.Drawer.constructor` | packages/vuetify/src/components/VNavigationDrawer/VNavigationDrawer.tsx:65-66 | the open value starts as the bound model value (possibly unset) and the hover flag as false |
| `DrawerState.Drawer.SeedBeforeMount` | packages/vuetify/src/components/VNavigationDrawer/VNavigationDrawer.tsx:86-88 | an unset open value becomes `!mobile`, a set one is kept, the hover flag is unchanged; the new state is one seeding step from the old |
| `DrawerState.Drawer.MouseEnter` | packages/vuetify/src/components/VNavigationDrawer/VNavigationDrawer.tsx:98 | the hover flag becomes true, the open value is unchanged, and for every set of props the layout entry and translate are as before |
| `DrawerState.Drawer.MouseLeave` | packages/vuetify/src/components/VNavigationDrawer/VNavigationDrawer.tsx:99 | the hover flag becomes false, the open value is unchanged, and for every set of props the layout entry and translate are as before |
| `DrawerState.Drawer.UpdateModel` | packages/vuetify/src/components/VNavigationDrawer/VNavigationDrawer.tsx:65 | a value bound from outside, possibly unset, becomes the open value; the hover flag is unchanged |
| `DrawerState.Drawer.Resolved` | packages/vuetify/src/components/VNavigationDrawer/VNavigationDrawer.tsx:68-125 | definition: the drawer's geometry for given props in its current state |

## Left out

- Rendering: the element tree, the `img`, `prepend`, `default` and `append` slots, the stylesheet import and the CSS class names (including the `start` and `temporary` class flags) are presentation only.
- The styling composables (border, border radius, elevation, theme, position, dimension) and the prop-declaration helpers: their code is not part of this model.
- The shared layout service behind `useLayoutItem` (offset accumulation across panels, priority ordering, unregistering on unmount): not part of this model; only the entry the drawer submits (priority, edge, size) is modelled; the layout item's `name` (line 75) is not part of the entry.
- `useProxiedModel` and reactive recomputation: not part of this model. The initial open value is a constructor parameter, an outside update of the bound value is the method `UpdateModel`, and derived values are functions evaluated on demand.
- String widths, the `Number(...)` coercion and unit formatting of widths and the translate: widths are natural numbers and the translate an integer percentage.
- `DrawerProps.ValidAligned`: takes a string; the validator's handling of non-string values is not modelled. The framework only warns about a value the validator refuses and keeps it; that warning is not modelled.
- The before-mount hook runs once per mounted drawer; `Run` admits it any number of times, and the lemmas show that repeats are inert while the open value stays set.
- Props are fixed during a `Run` of events: a prop change while mounted is a new `Props` value given to the functions, not an event.
