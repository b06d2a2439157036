/**
 * The drawer's own state: the tri-state `isActive` (open) value, seeded
 * once before mount, and the `isHovering` flag kept by the pointer
 * handlers. `State`, `Event` and `Step` describe one transition; `Run`
 * replays a sequence of events, and the lemmas below say what any such
 * sequence can and cannot change. `Drawer` is the object whose fields the
 * component updates in place.
 */
module DrawerState {
  import opened Wrappers
  import opened DrawerProps
  import opened DrawerGeometry

  datatype State = State(isActive: Option<bool>, isHovering: bool)

  /**
   * What happens to a drawer: the before-mount hook (with the `mobile` prop
   * it reads), the pointer entering or leaving, and a new value for the
   * bound open state from outside, which may be unset (`null`).
   */
  datatype Event = BeforeMount(mobile: bool) | MouseEnter | MouseLeave | ModelUpdate(value: Option<bool>)

  predicate IsPointerEvent(e: Event) {
    e.MouseEnter? || e.MouseLeave?
  }

  function Step(s: State, e: Event): State {
    match e
    case BeforeMount(mobile) => if s.isActive == None then s.(isActive := Some(!mobile)) else s
    case MouseEnter => s.(isHovering := true)
    case MouseLeave => s.(isHovering := false)
    case ModelUpdate(v) => s.(isActive := v)
  }

  function Run(s: State, events: seq<Event>): State
    decreases |events|
  {
    if events == [] then s else Run(Step(s, events[0]), events[1..])
  }

  /** No update from outside resets the bound open state to unset. */
  predicate NeverUnset(events: seq<Event>) {
    forall i :: 0 <= i < |events| ==> events[i] != ModelUpdate(None)
  }

  /** The events with the pointer events taken out. */
  function WithoutPointer(events: seq<Event>): (r: seq<Event>)
    ensures |r| <= |events|
    ensures forall i :: 0 <= i < |r| ==> !IsPointerEvent(r[i])
    decreases |events|
  {
    if events == [] then []
    else if IsPointerEvent(events[0]) then WithoutPointer(events[1..])
    else [events[0]] + WithoutPointer(events[1..])
  }

  /** The events with the before-mount hooks taken out. */
  function WithoutSeeding(events: seq<Event>): (r: seq<Event>)
    ensures |r| <= |events|
    ensures forall i :: 0 <= i < |r| ==> !r[i].BeforeMount?
    decreases |events|
  {
    if events == [] then []
    else if events[0].BeforeMount? then WithoutSeeding(events[1..])
    else [events[0]] + WithoutSeeding(events[1..])
  }

  /**
   * Whether the pointer is over the drawer after the events, read from the
   * last pointer event; `initial` when there is none.
   */
  function LastPointer(events: seq<Event>, initial: bool): bool
    decreases |events|
  {
    if events == [] then initial
    else if events[|events| - 1] == MouseEnter then true
    else if events[|events| - 1] == MouseLeave then false
    else LastPointer(events[..|events| - 1], initial)
  }

  // ---------------------------------------------------------------------
  // One step.

  /** Seeding sets an unset value to `!mobile` and leaves a set one alone; a second seeding changes nothing. */
  lemma SeedingIsIdempotent(s: State, mobile: bool, mobile': bool)
    ensures s.isActive == None ==> Step(s, BeforeMount(mobile)).isActive == Some(!mobile)
    ensures s.isActive != None ==> Step(s, BeforeMount(mobile)) == s
    ensures Step(Step(s, BeforeMount(mobile)), BeforeMount(mobile')) == Step(s, BeforeMount(mobile))
    ensures Step(s, BeforeMount(mobile)).isHovering == s.isHovering
  {
  }

  /**
   * An outside reset to unset makes the drawer count as closed: unless it
   * is stateful it reserves nothing and is slid off screen.
   */
  lemma OutsideResetCountsAsClosed(p: Props, s: State)
    ensures Step(s, ModelUpdate(None)).isActive == None
    ensures !IsStateful(p) ==> ReservedSize(p, Step(s, ModelUpdate(None)).isActive) == 0
    ensures !IsStateful(p) ==> Translate(p, Step(s, ModelUpdate(None)).isActive) != 0
  {
  }

  // ---------------------------------------------------------------------
  // Whole event sequences.

  lemma {:induction false} RunAppend(s: State, a: seq<Event>, b: seq<Event>)
    ensures Run(s, a + b) == Run(Run(s, a), b)
    decreases |a|
  {
    if a == [] {
      assert a + b == b;
    } else {
      assert (a + b)[0] == a[0];
      assert (a + b)[1..] == a[1..] + b;
      RunAppend(Step(s, a[0]), a[1..], b);
    }
  }

  /**
   * Pointer events never reach the open state: after any events, `isActive`
   * is what it would be had the pointer never moved, and whatever the
   * pointer was doing to begin with.
   */
  lemma {:induction false} OpenStateIgnoresPointer(s: State, events: seq<Event>, h: bool)
    ensures Run(s, events).isActive == Run(s.(isHovering := h), WithoutPointer(events)).isActive
    decreases |events|
  {
    if events != [] {
      var e := events[0];
      if IsPointerEvent(e) {
        OpenStateIgnoresPointer(Step(s, e), events[1..], h);
      } else {
        assert WithoutPointer(events) == [e] + WithoutPointer(events[1..]);
        assert ([e] + WithoutPointer(events[1..]))[1..] == WithoutPointer(events[1..]);
        OpenStateIgnoresPointer(Step(s, e), events[1..], h);
      }
    }
  }

  /**
   * Hover never changes what is submitted to the layout, nor the translate:
   * after any events they are those of the same events without the pointer.
   */
  lemma HoverNeverChangesReservation(p: Props, s: State, events: seq<Event>)
    ensures var t, u := Run(s, events), Run(s, WithoutPointer(events));
      Request(p, t.isActive) == Request(p, u.isActive) &&
      Translate(p, t.isActive) == Translate(p, u.isActive)
  {
    OpenStateIgnoresPointer(s, events, s.isHovering);
  }

  /** Once `isActive` holds a value, only an outside reset returns it to unset. */
  lemma {:induction false} SetStaysSet(s: State, events: seq<Event>)
    requires s.isActive != None
    requires NeverUnset(events)
    ensures Run(s, events).isActive != None
    decreases |events|
  {
    if events != [] {
      SetStaysSet(Step(s, events[0]), events[1..]);
    }
  }

  /**
   * Seeding fires at most once: from a set value on, and as long as no
   * outside reset unsets it, every before-mount hook is inert, and the outcome is that of the same events without them.
   */
  lemma {:induction false} LaterSeedingIsInert(s: State, events: seq<Event>)
    requires s.isActive != None
    requires NeverUnset(events)
    ensures Run(s, events) == Run(s, WithoutSeeding(events))
    decreases |events|
  {
    if events != [] {
      var e := events[0];
      if e.BeforeMount? {
        LaterSeedingIsInert(Step(s, e), events[1..]);
      } else {
        assert WithoutSeeding(events) == [e] + WithoutSeeding(events[1..]);
        assert ([e] + WithoutSeeding(events[1..]))[1..] == WithoutSeeding(events[1..]);
        LaterSeedingIsInert(Step(s, e), events[1..]);
      }
    }
  }

  /** Seeding an unset drawer settles `isActive`; barring an outside reset, only updates from outside change it later. */
  lemma SeededBeforeMount(s: State, mobile: bool, events: seq<Event>)
    requires s.isActive == None
    requires NeverUnset(events)
    ensures Step(s, BeforeMount(mobile)).isActive == Some(!mobile)
    ensures Run(s, [BeforeMount(mobile)] + events).isActive != None
    ensures Run(s, [BeforeMount(mobile)] + events) == Run(Step(s, BeforeMount(mobile)), WithoutSeeding(events))
  {
    RunAppend(s, [BeforeMount(mobile)], events);
    SetStaysSet(Step(s, BeforeMount(mobile)), events);
    LaterSeedingIsInert(Step(s, BeforeMount(mobile)), events);
  }

  /** Replaying one more event is one more step. */
  lemma RunSnoc(s: State, front: seq<Event>, e: Event)
    ensures Run(s, front + [e]) == Step(Run(s, front), e)
  {
    RunAppend(s, front, [e]);
    assert [e][1..] == [];
  }

  /** The hover flag after any events is set by the last pointer event; a leave always clears it. */
  lemma {:induction false} HoverFollowsLastPointerEvent(s: State, events: seq<Event>)
    ensures Run(s, events).isHovering == LastPointer(events, s.isHovering)
    ensures events != [] && events[|events| - 1] == MouseLeave ==> !Run(s, events).isHovering
    decreases |events|
  {
    if events != [] {
      var n := |events| - 1;
      var front, e := events[..n], events[n];
      assert events == front + [e];
      RunSnoc(s, front, e);
      HoverFollowsLastPointerEvent(s, front);
      assert LastPointer(events, s.isHovering) ==
        (if e == MouseEnter then true
         else if e == MouseLeave then false
         else LastPointer(front, s.isHovering));
    }
  }

  // ---------------------------------------------------------------------
  // The component's state object.

  class Drawer {
    /** The open state; `None` until seeded or bound. */
    var isActive: Option<bool>
    /** Whether the pointer is over the drawer. */
    var isHovering: bool

    function Current(): State
      reads this
    {
      State(isActive, isHovering)
    }

    /** A drawer whose open state starts as the bound model value (possibly unset), not hovered. */
    constructor (modelValue: Option<bool>)
      ensures isActive == modelValue && !isHovering
      ensures Current() == State(modelValue, false)
    {
      isActive := modelValue;
      isHovering := false;
    }

    /** The before-mount hook: an unset open state becomes `!mobile`; a set one is kept. */
    method SeedBeforeMount(p: Props)
      modifies this
      ensures Current() == Step(old(Current()), BeforeMount(p.mobile))
      ensures old(isActive) == None ==> isActive == Some(!p.mobile)
      ensures old(isActive) != None ==> isActive == old(isActive)
      ensures isHovering == old(isHovering)
    {
      if isActive == None {
        isActive := Some(!p.mobile);
      }
    }

    /** The pointer enters: hovering, nothing else changes. */
    method MouseEnter()
      modifies this
      ensures Current() == Step(old(Current()), Event.MouseEnter)
      ensures isHovering && isActive == old(isActive)
      ensures forall p: Props :: Resolved(p).request == old(Resolved(p).request)
      ensures forall p: Props :: Resolved(p).translate == old(Resolved(p).translate)
    {
      isHovering := true;
    }

    /** The pointer leaves: not hovering, nothing else changes. */
    method MouseLeave()
      modifies this
      ensures Current() == Step(old(Current()), Event.MouseLeave)
      ensures !isHovering && isActive == old(isActive)
      ensures forall p: Props :: Resolved(p).request == old(Resolved(p).request)
      ensures forall p: Props :: Resolved(p).translate == old(Resolved(p).translate)
    {
      isHovering := false;
    }

    /** The bound open state is given a new value from outside, possibly unset. */
    method UpdateModel(value: Option<bool>)
      modifies this
      ensures Current() == Step(old(Current()), ModelUpdate(value))
      ensures isActive == value && isHovering == old(isHovering)
    {
      isActive := value;
    }

    /** The geometry the drawer resolves to for the given props, in its current state. */
    function Resolved(p: Props): DrawerGeometry.Geometry
      reads this
    {
      Resolve(p, isActive, isHovering)
    }
  }
}
