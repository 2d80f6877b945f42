// The single-axis linear layout pass of a LinearView, stated on values.
//
// A child is a record that carries, for each axis, its two margins, its size
// mode and its current frame (origin and length) on that axis.  The pass reads
// and writes only the primary axis selected by the orientation; the functions
// here give, stage by stage, what the children look like after each stage.
// The class and methods in module LinearViews are proved to compute them.

module LinearLayout {

  datatype Orientation = Horizontal | Vertical

  datatype Visibility = Visible | Invisible | Gone

  /** The size mode of a child on one axis. Only Filling takes part in the
      distribution of the remaining space; its weight is the view's weight on
      that axis. */
  datatype SizeMode = Fixed | Wrapping | Filling(weight: real)

  /** One axis of a child: leading and trailing margin, size mode, and the
      frame on that axis (origin and length). */
  datatype Span = Span(marginLead: int, marginTrail: int, mode: SizeMode, origin: int, length: int)

  datatype Child = Child(visibility: Visibility, horizontal: Span, vertical: Span)

  /** The size compared against the snapshot taken before the pass. */
  datatype Size = Size(width: int, height: int)

  function SizeOf(c: Child): Size {
    Size(c.horizontal.length, c.vertical.length)
  }

  function Primary(c: Child, o: Orientation): Span {
    if o == Horizontal then c.horizontal else c.vertical
  }

  function Cross(c: Child, o: Orientation): Span {
    if o == Horizontal then c.vertical else c.horizontal
  }

  /** Replaces the primary-axis part of a child. */
  function WithPrimary(c: Child, o: Orientation, s: Span): (r: Child)
    ensures Primary(r, o) == s
    ensures Cross(r, o) == Cross(c, o)
    ensures r.visibility == c.visibility
  {
    if o == Horizontal then c.(horizontal := s) else c.(vertical := s)
  }

  /** A Gone child takes no part in the pass. */
  predicate Shown(c: Child) {
    c.visibility != Gone
  }

  /** Tolerance of the "weight is one" test. */
  const Epsilon: real := 0.000001

  /** The full-fill test `isAlmostZero(weight - 1)`. */
  predicate AlmostOne(w: real) {
    -Epsilon < w - 1.0 < Epsilon
  }

  predicate FullFill(s: Span) {
    s.mode.Filling? && AlmostOne(s.mode.weight)
  }

  predicate PartFill(s: Span) {
    s.mode.Filling? && !AlmostOne(s.mode.weight)
  }

  /** The conversion of a real to an integer position: truncation toward zero. */
  function Trunc(x: real): int {
    if x >= 0.0 then x.Floor else -((-x).Floor)
  }

  /** Truncation drops the fraction and keeps the sign. */
  lemma TruncTowardZero(x: real)
    ensures 0.0 <= x ==> 0 <= Trunc(x) && Trunc(x) as real <= x < Trunc(x) as real + 1.0
    ensures x < 0.0 ==> Trunc(x) <= 0 && Trunc(x) as real - 1.0 < x <= Trunc(x) as real
  {
  }

  function ClampZero(x: int): (r: int)
    ensures r >= 0 && r >= x
    ensures r == x || r == 0
  {
    if x < 0 then 0 else x
  }

  /** The space left in a container of length `container` once `sizeSum` is
      taken, never negative. */
  function Remainder(container: int, sizeSum: int): (r: int)
    ensures r >= 0 && r >= container - sizeSum
    ensures r == 0 || r == container - sizeSum
  {
    if container > sizeSum then container - sizeSum else 0
  }

  // ---------------------------------------------------------------------
  // Stage 1: accumulation.  All three are defined on the prefix, so that a
  // loop over the children keeps them as invariants.

  /** What a shown child contributes to the space sum before filling: its
      margins, and its length unless it is Filling. */
  function Footprint(s: Span): int {
    s.marginLead + (if s.mode.Filling? then 0 else s.length) + s.marginTrail
  }

  function Consumed(cs: seq<Child>, o: Orientation): int
    decreases |cs|
  {
    if cs == [] then 0
    else
      var c := cs[|cs| - 1];
      Consumed(cs[..|cs| - 1], o) + (if Shown(c) then Footprint(Primary(c, o)) else 0)
  }

  function CountFull(cs: seq<Child>, o: Orientation): nat
    decreases |cs|
  {
    if cs == [] then 0
    else
      var c := cs[|cs| - 1];
      CountFull(cs[..|cs| - 1], o) + (if Shown(c) && FullFill(Primary(c, o)) then 1 else 0)
  }

  function CountPart(cs: seq<Child>, o: Orientation): nat
    decreases |cs|
  {
    if cs == [] then 0
    else
      var c := cs[|cs| - 1];
      CountPart(cs[..|cs| - 1], o) + (if Shown(c) && PartFill(Primary(c, o)) then 1 else 0)
  }

  // ---------------------------------------------------------------------
  // Stage 2: part-fill.  Every part-fill child gets its weight times the one
  // remainder computed before the loop.

  function PartAlloc(c: Child, o: Orientation, remained: int): int {
    var s := Primary(c, o);
    if Shown(c) && PartFill(s) then Trunc(remained as real * s.mode.weight) else 0
  }

  function PartFilled(c: Child, o: Orientation, remained: int): Child {
    var s := Primary(c, o);
    if Shown(c) && PartFill(s) then WithPrimary(c, o, s.(length := PartAlloc(c, o, remained))) else c
  }

  function PartFillAll(cs: seq<Child>, o: Orientation, remained: int): (r: seq<Child>)
    ensures |r| == |cs|
  {
    seq(|cs|, i requires 0 <= i < |cs| => PartFilled(cs[i], o, remained))
  }

  /** What the part-fill loop adds to the space sum. */
  function PartTotal(cs: seq<Child>, o: Orientation, remained: int): int
    decreases |cs|
  {
    if cs == [] then 0
    else PartTotal(cs[..|cs| - 1], o, remained) + PartAlloc(cs[|cs| - 1], o, remained)
  }

  // ---------------------------------------------------------------------
  // Stage 3: full-fill.  Every full-fill child gets the same share.

  function FullFilled(c: Child, o: Orientation, share: int): Child {
    var s := Primary(c, o);
    if Shown(c) && FullFill(s) then WithPrimary(c, o, s.(length := share)) else c
  }

  function FullFillAll(cs: seq<Child>, o: Orientation, share: int): (r: seq<Child>)
    ensures |r| == |cs|
  {
    seq(|cs|, i requires 0 <= i < |cs| => FullFilled(cs[i], o, share))
  }

  // ---------------------------------------------------------------------
  // Stage 4: positioning.

  /** How far a child moves the cursor: its margins and length when shown. */
  function Extent(c: Child, o: Orientation): int {
    var s := Primary(c, o);
    if Shown(c) then s.marginLead + s.length + s.marginTrail else 0
  }

  /** The cursor after the children `cs`, starting from `start`. */
  function Cursor(cs: seq<Child>, o: Orientation, start: int): int
    decreases |cs|
  {
    if cs == [] then start
    else Cursor(cs[..|cs| - 1], o, start) + Extent(cs[|cs| - 1], o)
  }

  function Placed(c: Child, o: Orientation, at: int): Child {
    var s := Primary(c, o);
    if Shown(c) then WithPrimary(c, o, s.(origin := at + s.marginLead)) else c
  }

  function Place(cs: seq<Child>, o: Orientation, start: int): (r: seq<Child>)
    ensures |r| == |cs|
  {
    seq(|cs|, i requires 0 <= i < |cs| => Placed(cs[i], o, Cursor(cs[..i], o, start)))
  }

  // ---------------------------------------------------------------------
  // The whole pass.

  /** The space sum once the non-filling children are counted and clamped. */
  function FirstSum(cs: seq<Child>, o: Orientation): int {
    ClampZero(Consumed(cs, o))
  }

  /** The one remainder every part-fill child multiplies. */
  function PartRemainder(cs: seq<Child>, o: Orientation, container: int): int {
    Remainder(container, FirstSum(cs, o))
  }

  /** The space sum after the part-fill stage, clamped again. */
  function SecondSum(cs: seq<Child>, o: Orientation, container: int): int {
    var s1 := FirstSum(cs, o);
    ClampZero(if CountPart(cs, o) > 0 then s1 + PartTotal(cs, o, PartRemainder(cs, o, container)) else s1)
  }

  /** The remainder shared among the full-fill children. */
  function FullRemainder(cs: seq<Child>, o: Orientation, container: int): int {
    Remainder(container, SecondSum(cs, o, container))
  }

  /** The length every full-fill child gets. */
  function FullShare(cs: seq<Child>, o: Orientation, container: int): int {
    if CountFull(cs, o) > 0 then FullRemainder(cs, o, container) / CountFull(cs, o) else 0
  }

  /** The children after stages 2 and 3. */
  function Filled(cs: seq<Child>, o: Orientation, container: int): (r: seq<Child>)
    ensures |r| == |cs|
  {
    var afterPart := if CountPart(cs, o) > 0 then PartFillAll(cs, o, PartRemainder(cs, o, container)) else cs;
    if CountFull(cs, o) > 0 then FullFillAll(afterPart, o, FullShare(cs, o, container)) else afterPart
  }

  /** The children after the whole pass, in a container of primary length
      `container` whose leading padding is `padLead`. */
  function Layout(cs: seq<Child>, o: Orientation, container: int, padLead: int): (r: seq<Child>)
    ensures |r| == |cs|
  {
    Place(Filled(cs, o, container), o, padLead)
  }

  /** The primary length a wrapping container takes: the final cursor plus
      the trailing padding. */
  function WrapExtent(cs: seq<Child>, o: Orientation, container: int, padLead: int, padTrail: int): int {
    Cursor(Filled(cs, o, container), o, padLead) + padTrail
  }

  /** The final primary length of a shown child, by its mode. */
  function FinalLength(cs: seq<Child>, o: Orientation, container: int, i: int): int
    requires 0 <= i < |cs|
  {
    var s := Primary(cs[i], o);
    if !Shown(cs[i]) || !s.mode.Filling? then s.length
    else if AlmostOne(s.mode.weight) then FullShare(cs, o, container)
    else PartAlloc(cs[i], o, PartRemainder(cs, o, container))
  }
}
