// LinearView: a view group that lays its children out in one row or one
// column.  The layout pass runs four loops over the children array; each loop
// is a method below, proved to compute the matching stage of Layout in
// module LinearLayout.

module LinearViews {
  import opened LinearLayout

  // ---------------------------------------------------------------------
  // The four loops of the layout pass.

  /** Loop 1: sums the margins of every shown child and the lengths of the
      shown non-filling ones, counts the full-fill and part-fill children,
      and snapshots the size of each shown child. */
  method Accumulate(a: array<Child>, o: Orientation) returns (sizeSum: int, countFull: nat, countPart: nat, sizes: seq<Size>)
    ensures sizeSum == Consumed(a[..], o)
    ensures countFull == CountFull(a[..], o) && countPart == CountPart(a[..], o)
    ensures |sizes| == a.Length
    ensures forall i :: 0 <= i < a.Length && Shown(a[i]) ==> sizes[i] == SizeOf(a[i])
  {
    sizeSum, countFull, countPart, sizes := 0, 0, 0, [];
    for i := 0 to a.Length
      invariant sizeSum == Consumed(a[..i], o)
      invariant countFull == CountFull(a[..i], o) && countPart == CountPart(a[..i], o)
      invariant |sizes| == i
      invariant forall j :: 0 <= j < i && Shown(a[j]) ==> sizes[j] == SizeOf(a[j])
    {
      assert a[..i + 1][..i] == a[..i];
      var child := a[i];
      if child.visibility != Gone {
        sizes := sizes + [SizeOf(child)];
        var s := Primary(child, o);
        sizeSum := sizeSum + s.marginLead;
        if !s.mode.Filling? {
          sizeSum := sizeSum + s.length;
        } else if AlmostOne(s.mode.weight) {
          countFull := countFull + 1;
        } else {
          countPart := countPart + 1;
        }
        sizeSum := sizeSum + s.marginTrail;
      } else {
        // the snapshot of a Gone child is never read
        sizes := sizes + [Size(0, 0)];
      }
    }
    assert a[..a.Length] == a[..];
  }

  /** Loop 2: gives every shown part-fill child its weight times `remained`,
      truncated, and adds each amount to the space sum. */
  method DistributePartFill(a: array<Child>, o: Orientation, remained: int, sizeSum: int) returns (newSum: int)
    modifies a
    ensures a[..] == PartFillAll(old(a[..]), o, remained)
    ensures newSum == sizeSum + PartTotal(old(a[..]), o, remained)
  {
    ghost var before := a[..];
    newSum := sizeSum;
    for i := 0 to a.Length
      invariant forall j :: 0 <= j < i ==> a[j] == PartFilled(before[j], o, remained)
      invariant forall j :: i <= j < a.Length ==> a[j] == before[j]
      invariant newSum == sizeSum + PartTotal(before[..i], o, remained)
    {
      assert before[..i + 1][..i] == before[..i];
      assert PartTotal(before[..i + 1], o, remained) == PartTotal(before[..i], o, remained) + PartAlloc(before[i], o, remained);
      newSum := PartFillChild(a, i, o, remained, newSum);
    }
    assert before[..a.Length] == before;
  }

  /** One step of the part-fill loop: sizes child i if it is a shown
      part-fill child and adds its new length to the sum. */
  method PartFillChild(a: array<Child>, i: nat, o: Orientation, remained: int, sum: int) returns (newSum: int)
    requires i < a.Length
    modifies a
    ensures a[i] == PartFilled(old(a[i]), o, remained)
    ensures forall j :: 0 <= j < a.Length && j != i ==> a[j] == old(a[j])
    ensures newSum == sum + PartAlloc(old(a[i]), o, remained)
  {
    newSum := sum;
    var child := a[i];
    if child.visibility != Gone {
      var s := Primary(child, o);
      if s.mode.Filling? {
        var weight := s.mode.weight;
        if !AlmostOne(weight) {
          var length := Trunc(remained as real * weight);
          assert length == PartAlloc(child, o, remained);
          newSum := newSum + length;
          a[i] := WithPrimary(child, o, s.(length := length));
        }
      }
    }
  }

  /** Loop 3: gives every shown full-fill child the length `share`. */
  method DistributeFullFill(a: array<Child>, o: Orientation, share: int)
    modifies a
    ensures a[..] == FullFillAll(old(a[..]), o, share)
  {
    ghost var before := a[..];
    for i := 0 to a.Length
      invariant forall j :: 0 <= j < i ==> a[j] == FullFilled(before[j], o, share)
      invariant forall j :: i <= j < a.Length ==> a[j] == before[j]
    {
      var child := a[i];
      if child.visibility != Gone {
        var s := Primary(child, o);
        if s.mode.Filling? && AlmostOne(s.mode.weight) {
          a[i] := WithPrimary(child, o, s.(length := share));
        }
      }
    }
  }

  /** Loop 4: walks a cursor from `start`, placing each shown child after its
      leading margin, and flags every shown child whose size differs from
      its snapshot in `sizes`. */
  method Position(a: array<Child>, o: Orientation, start: int, sizes: seq<Size>) returns (cursor: int, relayout: seq<bool>)
    requires |sizes| == a.Length
    modifies a
    ensures a[..] == Place(old(a[..]), o, start)
    ensures cursor == Cursor(old(a[..]), o, start)
    ensures |relayout| == a.Length
    ensures forall i :: 0 <= i < a.Length ==> relayout[i] == (Shown(old(a[i])) && sizes[i] != SizeOf(a[i]))
  {
    ghost var before := a[..];
    cursor, relayout := start, [];
    for i := 0 to a.Length
      invariant forall j :: 0 <= j < i ==> a[j] == Placed(before[j], o, Cursor(before[..j], o, start))
      invariant forall j :: i <= j < a.Length ==> a[j] == before[j]
      invariant cursor == Cursor(before[..i], o, start)
      invariant |relayout| == i
      invariant forall j :: 0 <= j < i ==> relayout[j] == (Shown(before[j]) && sizes[j] != SizeOf(a[j]))
    {
      assert before[..i + 1][..i] == before[..i];
      assert Cursor(before[..i + 1], o, start) == Cursor(before[..i], o, start) + Extent(before[i], o);
      var flag;
      cursor, flag := PlaceChild(a, i, o, cursor, sizes[i]);
      relayout := relayout + [flag];
    }
    assert before[..a.Length] == before;
  }

  /** One step of the positioning loop: places child i at the cursor and
      returns the advanced cursor and the child's relayout flag. */
  method PlaceChild(a: array<Child>, i: nat, o: Orientation, cursor: int, size: Size) returns (next: int, flag: bool)
    requires i < a.Length
    modifies a
    ensures a[i] == Placed(old(a[i]), o, cursor)
    ensures forall j :: 0 <= j < a.Length && j != i ==> a[j] == old(a[j])
    ensures next == cursor + Extent(old(a[i]), o)
    ensures flag == (Shown(old(a[i])) && size != SizeOf(a[i]))
  {
    var child := a[i];
    next, flag := cursor, false;
    if child.visibility != Gone {
      var s := Primary(child, o);
      next := next + s.marginLead;
      a[i] := WithPrimary(child, o, s.(origin := next));
      next := next + s.length;
      next := next + s.marginTrail;
      flag := size != SizeOf(a[i]);
    }
  }

  // ---------------------------------------------------------------------
  // The view.

  class LinearView {
    var orientation: Orientation
    /** The children, in layout order. */
    var children: array<Child>
    /** The view's own layout frame size. */
    var layoutWidth: int
    var layoutHeight: int
    var paddingLeft: int
    var paddingTop: int
    var paddingRight: int
    var paddingBottom: int
    /** Whether the view's own size mode is Wrapping on each axis. */
    var widthWrapping: bool
    var heightWrapping: bool

    /** A new linear view is vertical. */
    constructor (kids: array<Child>)
      ensures orientation == Vertical && children == kids
      ensures layoutWidth == 0 && layoutHeight == 0
      ensures paddingLeft == 0 && paddingTop == 0 && paddingRight == 0 && paddingBottom == 0
      ensures !widthWrapping && !heightWrapping
    {
      orientation := Vertical;
      children := kids;
      layoutWidth, layoutHeight := 0, 0;
      paddingLeft, paddingTop, paddingRight, paddingBottom := 0, 0, 0, 0;
      widthWrapping, heightWrapping := false, false;
    }

    /** A linear view constructed horizontal. */
    constructor HorizontalLinearView(kids: array<Child>)
      ensures orientation == Horizontal && children == kids
      ensures layoutWidth == 0 && layoutHeight == 0
      ensures paddingLeft == 0 && paddingTop == 0 && paddingRight == 0 && paddingBottom == 0
      ensures !widthWrapping && !heightWrapping
    {
      orientation := Horizontal;
      children := kids;
      layoutWidth, layoutHeight := 0, 0;
      paddingLeft, paddingTop, paddingRight, paddingBottom := 0, 0, 0, 0;
      widthWrapping, heightWrapping := false, false;
    }

    function IsHorizontal(): (r: bool)
      reads this
      ensures r <==> orientation != Vertical
    {
      orientation == Horizontal
    }

    function IsVertical(): (r: bool)
      reads this
      ensures r <==> !IsHorizontal()
    {
      orientation == Vertical
    }

    /** Sets the orientation; a change asks the host to invalidate the
        layout, which `invalidate` reports.  Setting the current orientation
        changes nothing. */
    method SetOrientation(o: Orientation) returns (invalidate: bool)
      modifies this`orientation
      ensures orientation == o
      ensures invalidate <==> old(orientation) != o
    {
      if orientation == o {
        return false;
      }
      orientation := o;
      invalidate := true;
    }

    method SetHorizontal() returns (invalidate: bool)
      modifies this`orientation
      ensures IsHorizontal()
      ensures invalidate <==> old(orientation) != Horizontal
    {
      invalidate := SetOrientation(Horizontal);
    }

    method SetVertical() returns (invalidate: bool)
      modifies this`orientation
      ensures IsVertical()
      ensures invalidate <==> old(orientation) != Vertical
    {
      invalidate := SetOrientation(Vertical);
    }

    /** The view's own length, leading and trailing padding, and wrapping on
        the primary axis. */
    function PrimaryLength(): int
      reads this
    {
      if orientation == Horizontal then layoutWidth else layoutHeight
    }

    function CrossLength(): int
      reads this
    {
      if orientation == Horizontal then layoutHeight else layoutWidth
    }

    function PaddingLead(): int
      reads this
    {
      if orientation == Horizontal then paddingLeft else paddingTop
    }

    function PaddingTrail(): int
      reads this
    {
      if orientation == Horizontal then paddingRight else paddingBottom
    }

    predicate WrapsPrimary()
      reads this
    {
      if orientation == Horizontal then widthWrapping else heightWrapping
    }

    /** The layout pass.  Every child becomes what Layout says; `relayout`
        flags the shown children whose size changed, the ones the view asks
        to update their own layout; a view wrapping on the primary axis takes
        the final cursor plus its trailing padding as its length. */
    method UpdateLayout() returns (relayout: seq<bool>)
      modifies children, this`layoutWidth, this`layoutHeight
      ensures children[..] == Layout(old(children[..]), orientation, old(PrimaryLength()), PaddingLead())
      ensures |relayout| == children.Length
      ensures forall i :: 0 <= i < children.Length ==>
        relayout[i] == (Shown(old(children[i])) && SizeOf(children[i]) != SizeOf(old(children[i])))
      ensures PrimaryLength() ==
        if WrapsPrimary() then WrapExtent(old(children[..]), orientation, old(PrimaryLength()), PaddingLead(), PaddingTrail())
        else old(PrimaryLength())
      ensures CrossLength() == old(CrossLength())
    {
      var o := orientation;
      var container := if o == Horizontal then layoutWidth else layoutHeight;
      var start := if o == Horizontal then paddingLeft else paddingTop;
      var cursor;
      cursor, relayout := LayoutPass(children, o, container, start);
      if o == Horizontal {
        if widthWrapping {
          layoutWidth := cursor + paddingRight;
        }
      } else {
        if heightWrapping {
          layoutHeight := cursor + paddingBottom;
        }
      }
    }
  }

  /** The four loops in order, on the children of a view whose primary
      length is `container` and whose leading padding is `start`. */
  method LayoutPass(a: array<Child>, o: Orientation, container: int, start: int) returns (cursor: int, relayout: seq<bool>)
    modifies a
    ensures a[..] == Layout(old(a[..]), o, container, start)
    ensures cursor == Cursor(Filled(old(a[..]), o, container), o, start)
    ensures |relayout| == a.Length
    ensures forall i :: 0 <= i < a.Length ==> relayout[i] == (Shown(old(a[i])) && SizeOf(a[i]) != SizeOf(old(a[i])))
  {
    ghost var cs := a[..];
    var sizeSum, countFull, countPart, sizes := Accumulate(a, o);
    FillStages(a, o, container, sizeSum, countFull, countPart);
    ghost var filled := a[..];
    cursor, relayout := Position(a, o, start, sizes);
    forall i | 0 <= i < a.Length
      ensures Shown(filled[i]) == Shown(cs[i])
    {
      FilledVisibility(cs, o, container, i);
    }
  }

  /** Loops 2 and 3 with the clamping around them, given what loop 1
      accumulated. */
  method FillStages(a: array<Child>, o: Orientation, container: int, sizeSum: int, countFull: nat, countPart: nat)
    requires sizeSum == Consumed(a[..], o)
    requires countFull == CountFull(a[..], o) && countPart == CountPart(a[..], o)
    modifies a
    ensures a[..] == Filled(old(a[..]), o, container)
  {
    ghost var cs := a[..];
    var sum := sizeSum;
    if sum < 0 {
      sum := 0;
    }
    if countPart > 0 {
      var remained := if container > sum then container - sum else 0;
      assert remained == PartRemainder(cs, o, container);
      sum := DistributePartFill(a, o, remained, sum);
    }
    if sum < 0 {
      sum := 0;
    }
    assert sum == SecondSum(cs, o, container);
    ghost var afterPart := a[..];
    if countFull > 0 {
      var remained := if container > sum then container - sum else 0;
      assert remained / countFull == FullShare(cs, o, container);
      DistributeFullFill(a, o, remained / countFull);
      assert a[..] == FullFillAll(afterPart, o, FullShare(cs, o, container));
    }
  }

  /** The fill stages keep every child's visibility. */
  lemma {:induction false} FilledVisibility(cs: seq<Child>, o: Orientation, container: int, i: int)
    requires 0 <= i < |cs|
    ensures Filled(cs, o, container)[i].visibility == cs[i].visibility
  {
  }
}
