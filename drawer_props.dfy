/**
 * The configuration a navigation drawer is created with: the props that
 * the geometry reads, their declared defaults, and the validator of the
 * `aligned` prop.
 */
module DrawerProps {
  import opened Wrappers

  /** Declared default of the `width` prop (a number of pixels). */
  const DefaultWidth: nat := 256
  /** Declared default of the `railWidth` prop (a number of pixels). */
  const DefaultRailWidth: nat := 72

  /**
   * The props the drawer's state-and-geometry logic reads. Widths are
   * whole pixels; `left`, `right` and `bottom` are the position flags,
   * `priority` the ordering key handed to the shared layout.
   */
  datatype Props = Props(
    width: nat,
    railWidth: nat,
    rail: bool,
    expandOnHover: bool,
    permanent: bool,
    stateless: bool,
    temporary: bool,
    mobile: bool,
    left: bool,
    right: bool,
    bottom: bool,
    priority: int)

  /** Every boolean prop absent (false), both widths at their declared defaults. */
  const Defaults: Props := Props(
    DefaultWidth, DefaultRailWidth,
    false, false, false, false, false, false, false, false, false, 0)

  /** The accepted values of the `aligned` prop. */
  datatype Alignment = Start | Center | End

  /** The string by which each alignment is written in the prop. */
  function AlignmentName(a: Alignment): string {
    match a
    case Start => "start"
    case Center => "center"
    case End => "end"
  }

  /** Declared default of the `aligned` prop. */
  const DefaultAlignment: Alignment := Start

  /** Reads a string as an alignment; `None` for anything but the three names. */
  function ParseAlignment(v: string): (r: Option<Alignment>)
    ensures r.Some? ==> AlignmentName(r.value) == v
    ensures r.None? ==> forall a: Alignment :: AlignmentName(a) != v
  {
    if v == "start" then Some(Start)
    else if v == "center" then Some(Center)
    else if v == "end" then Some(End)
    else None
  }

  /** The `aligned` validator: accepts exactly "start", "center" and "end". */
  function ValidAligned(v: string): (ok: bool)
    ensures ok <==> v == "start" || v == "center" || v == "end"
  {
    ParseAlignment(v).Some?
  }

  /** Naming an alignment and reading the name back gives the same alignment. */
  lemma AlignmentRoundTrip(a: Alignment)
    ensures ParseAlignment(AlignmentName(a)) == Some(a)
    ensures ValidAligned(AlignmentName(a))
  {
  }
}
