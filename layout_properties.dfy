// Properties of the linear layout pass, proved about the functions of
// module LinearLayout.

module LayoutProperties {
  import opened LinearLayout

  /** Sum of the primary lengths of the shown full-fill (`full`) or
      part-fill (`!full`) children. */
  function FillLengthSum(cs: seq<Child>, o: Orientation, full: bool): int
    decreases |cs|
  {
    if cs == [] then 0
    else
      var c := cs[|cs| - 1];
      var s := Primary(c, o);
      var counted := Shown(c) && (if full then FullFill(s) else PartFill(s));
      FillLengthSum(cs[..|cs| - 1], o, full) + (if counted then s.length else 0)
  }

  /** Two children that the accumulation stage cannot tell apart. */
  predicate SameShape(a: Child, b: Child, o: Orientation) {
    var s, t := Primary(a, o), Primary(b, o);
    && a.visibility == b.visibility
    && s.marginLead == t.marginLead && s.marginTrail == t.marginTrail
    && s.mode == t.mode
    && (!s.mode.Filling? ==> s.length == t.length)
  }

  /** Two children that move the positioning cursor alike. */
  predicate SameExtent(a: Child, b: Child, o: Orientation) {
    var s, t := Primary(a, o), Primary(b, o);
    && a.visibility == b.visibility
    && s.marginLead == t.marginLead && s.marginTrail == t.marginTrail
    && s.length == t.length
  }

  // ---------------------------------------------------------------------
  // Counting.

  lemma {:induction false} CountPartPositive(cs: seq<Child>, o: Orientation, i: int)
    requires 0 <= i < |cs| && Shown(cs[i]) && PartFill(Primary(cs[i], o))
    ensures CountPart(cs, o) > 0
  {
    var n := |cs| - 1;
    if i < n {
      assert cs[..n][i] == cs[i];
      CountPartPositive(cs[..n], o, i);
    }
  }

  lemma {:induction false} CountFullPositive(cs: seq<Child>, o: Orientation, i: int)
    requires 0 <= i < |cs| && Shown(cs[i]) && FullFill(Primary(cs[i], o))
    ensures CountFull(cs, o) > 0
  {
    var n := |cs| - 1;
    if i < n {
      assert cs[..n][i] == cs[i];
      CountFullPositive(cs[..n], o, i);
    }
  }

  /** Children of the same shape accumulate the same space sum, the same
      counts, and the same part-fill total. */
  lemma {:induction false} ShapeFixesAccumulation(xs: seq<Child>, ys: seq<Child>, o: Orientation, r: int)
    requires |xs| == |ys|
    requires forall i :: 0 <= i < |xs| ==> SameShape(xs[i], ys[i], o)
    ensures Consumed(xs, o) == Consumed(ys, o)
    ensures CountFull(xs, o) == CountFull(ys, o) && CountPart(xs, o) == CountPart(ys, o)
    ensures PartTotal(xs, o, r) == PartTotal(ys, o, r)
  {
    if xs != [] {
      var n := |xs| - 1;
      forall i | 0 <= i < n ensures SameShape(xs[..n][i], ys[..n][i], o) {
        assert xs[..n][i] == xs[i] && ys[..n][i] == ys[i];
      }
      ShapeFixesAccumulation(xs[..n], ys[..n], o, r);
      StepByShape(xs[n], ys[n], o);
      PartAllocByShape(xs[n], ys[n], o, r);
    }
  }

  /** What one child adds to the accumulation depends only on its shape. */
  lemma {:induction false} StepByShape(a: Child, b: Child, o: Orientation)
    requires SameShape(a, b, o)
    ensures Shown(a) == Shown(b)
    ensures Footprint(Primary(a, o)) == Footprint(Primary(b, o))
    ensures FullFill(Primary(a, o)) == FullFill(Primary(b, o))
    ensures PartFill(Primary(a, o)) == PartFill(Primary(b, o))
  {
  }

  /** With nothing to share, the part-fill children add nothing. */
  lemma {:induction false} PartTotalOfNothing(cs: seq<Child>, o: Orientation)
    ensures PartTotal(cs, o, 0) == 0
  {
    if cs != [] {
      PartTotalOfNothing(cs[..|cs| - 1], o);
    }
  }

  // ---------------------------------------------------------------------
  // Per-child results of the pass.

  /** Stages 2 and 3 change a shown child's primary length to its final
      length, and nothing else. */
  lemma {:induction false} FilledAt(cs: seq<Child>, o: Orientation, container: int, i: int)
    requires 0 <= i < |cs|
    ensures Filled(cs, o, container)[i] ==
      if Shown(cs[i]) then WithPrimary(cs[i], o, Primary(cs[i], o).(length := FinalLength(cs, o, container, i)))
      else cs[i]
  {
    var c, s := cs[i], Primary(cs[i], o);
    if Shown(c) && PartFill(s) {
      CountPartPositive(cs, o, i);
    } else if Shown(c) && FullFill(s) {
      CountFullPositive(cs, o, i);
    }
  }

  /** The whole pass: a Gone child is left as it is; a shown child gets its
      final length and the origin the cursor gives it, and nothing else of it
      changes. */
  lemma {:induction false} LayoutAt(cs: seq<Child>, o: Orientation, container: int, padLead: int, i: int)
    requires 0 <= i < |cs|
    ensures var r, c := Layout(cs, o, container, padLead)[i], cs[i];
      && r.visibility == c.visibility
      && Cross(r, o) == Cross(c, o)
      && Primary(r, o).marginLead == Primary(c, o).marginLead
      && Primary(r, o).marginTrail == Primary(c, o).marginTrail
      && Primary(r, o).mode == Primary(c, o).mode
      && Primary(r, o).length == FinalLength(cs, o, container, i)
      && (Shown(c) ==> Primary(r, o).origin == Cursor(Filled(cs, o, container)[..i], o, padLead) + Primary(c, o).marginLead)
      && (!Shown(c) ==> r == c)
  {
    FilledAt(cs, o, container, i);
  }

  /** The final primary length of every child. */
  lemma {:induction false} LayoutLength(cs: seq<Child>, o: Orientation, container: int, padLead: int, i: int)
    requires 0 <= i < |cs|
    ensures SameShape(cs[i], Layout(cs, o, container, padLead)[i], o)
    ensures Primary(Layout(cs, o, container, padLead)[i], o).length == FinalLength(cs, o, container, i)
  {
    LayoutAt(cs, o, container, padLead, i);
  }

  lemma {:induction false} PartAllocOfShown(c: Child, o: Orientation, r: int)
    requires Shown(c) && PartFill(Primary(c, o))
    ensures PartAlloc(c, o, r) == Trunc(r as real * Primary(c, o).mode.weight)
  {
  }

  /** Gone children are neither resized nor repositioned. */
  lemma {:induction false} GoneChildUntouched(cs: seq<Child>, o: Orientation, container: int, padLead: int, i: int)
    requires 0 <= i < |cs| && !Shown(cs[i])
    ensures Layout(cs, o, container, padLead)[i] == cs[i]
  {
  }

  /** The pass touches only the primary origin and length: visibility,
      margins, mode and the whole cross axis stay; a child that is not
      Filling keeps its length. */
  lemma {:induction false} LayoutKeepsShape(cs: seq<Child>, o: Orientation, container: int, padLead: int, i: int)
    requires 0 <= i < |cs|
    ensures var r := Layout(cs, o, container, padLead)[i];
      && r.visibility == cs[i].visibility
      && Cross(r, o) == Cross(cs[i], o)
      && Primary(r, o).marginLead == Primary(cs[i], o).marginLead
      && Primary(r, o).marginTrail == Primary(cs[i], o).marginTrail
      && Primary(r, o).mode == Primary(cs[i], o).mode
      && (!Primary(cs[i], o).mode.Filling? ==> Primary(r, o).length == Primary(cs[i], o).length)
  {
    LayoutAt(cs, o, container, padLead, i);
  }

  /** Each shown part-fill child gets its weight times the one remainder
      taken before the part-fill loop, truncated toward zero. */
  lemma {:induction false} PartFillLength(cs: seq<Child>, o: Orientation, container: int, padLead: int, i: int)
    requires 0 <= i < |cs| && Shown(cs[i]) && PartFill(Primary(cs[i], o))
    ensures PartRemainder(cs, o, container) == Remainder(container, ClampZero(Consumed(cs, o)))
    ensures Primary(Layout(cs, o, container, padLead)[i], o).length ==
      Trunc(PartRemainder(cs, o, container) as real * Primary(cs[i], o).mode.weight)
  {
    LayoutLength(cs, o, container, padLead, i);
    PartAllocOfShown(cs[i], o, PartRemainder(cs, o, container));
  }

  /** Each shown full-fill child gets the same share: the remainder after
      the part-fill stage divided by the number of full-fill children. */
  lemma {:induction false} FullFillLength(cs: seq<Child>, o: Orientation, container: int, padLead: int, i: int)
    requires 0 <= i < |cs| && Shown(cs[i]) && FullFill(Primary(cs[i], o))
    ensures CountFull(cs, o) > 0
    ensures Primary(Layout(cs, o, container, padLead)[i], o).length ==
      FullRemainder(cs, o, container) / CountFull(cs, o)
    ensures Primary(Layout(cs, o, container, padLead)[i], o).length >= 0
  {
    CountFullPositive(cs, o, i);
    LayoutLength(cs, o, container, padLead, i);
    FinalLengthOfFull(cs, o, container, i);
  }

  lemma {:induction false} FinalLengthOfFull(cs: seq<Child>, o: Orientation, container: int, i: int)
    requires 0 <= i < |cs| && Shown(cs[i]) && FullFill(Primary(cs[i], o))
    requires CountFull(cs, o) > 0
    ensures FinalLength(cs, o, container, i) == FullRemainder(cs, o, container) / CountFull(cs, o)
    ensures FinalLength(cs, o, container, i) >= 0
  {
    ShareBounds(FullRemainder(cs, o, container), CountFull(cs, o));
  }

  // ---------------------------------------------------------------------
  // Totals of the fill stages.

  lemma {:induction false} FullSumOf(xs: seq<Child>, ys: seq<Child>, o: Orientation, share: int)
    requires |xs| == |ys|
    requires forall i :: 0 <= i < |xs| ==> SameShape(xs[i], ys[i], o)
    requires forall i :: 0 <= i < |xs| && Shown(xs[i]) && FullFill(Primary(xs[i], o)) ==> Primary(ys[i], o).length == share
    ensures FillLengthSum(ys, o, true) == CountFull(xs, o) * share
  {
    if xs != [] {
      var n := |xs| - 1;
      assert SameShape(xs[n], ys[n], o);
      FullSumOf(xs[..n], ys[..n], o, share);
      assert (CountFull(xs[..n], o) + 1) * share == CountFull(xs[..n], o) * share + share;
    }
  }

  lemma {:induction false} PartSumOf(xs: seq<Child>, ys: seq<Child>, o: Orientation, r: int)
    requires |xs| == |ys|
    requires forall i :: 0 <= i < |xs| ==> SameShape(xs[i], ys[i], o)
    requires forall i :: 0 <= i < |xs| && Shown(xs[i]) && PartFill(Primary(xs[i], o)) ==> Primary(ys[i], o).length == PartAlloc(xs[i], o, r)
    ensures FillLengthSum(ys, o, false) == PartTotal(xs, o, r)
  {
    if xs != [] {
      var n := |xs| - 1;
      assert SameShape(xs[n], ys[n], o);
      PartSumOf(xs[..n], ys[..n], o, r);
    }
  }

  /** The space sum after the part-fill stage is the first sum grown by
      exactly the lengths the part-fill children were given, then clamped. */
  lemma {:induction false} PartFillTotal(cs: seq<Child>, o: Orientation, container: int, padLead: int)
    ensures FillLengthSum(Layout(cs, o, container, padLead), o, false) ==
      if CountPart(cs, o) > 0 then PartTotal(cs, o, PartRemainder(cs, o, container)) else 0
    ensures SecondSum(cs, o, container) ==
      ClampZero(FirstSum(cs, o) + FillLengthSum(Layout(cs, o, container, padLead), o, false))
  {
    var ys := Layout(cs, o, container, padLead);
    var r := PartRemainder(cs, o, container);
    forall i | 0 <= i < |cs|
      ensures SameShape(cs[i], ys[i], o)
      ensures Shown(cs[i]) && PartFill(Primary(cs[i], o)) ==> Primary(ys[i], o).length == PartAlloc(cs[i], o, r)
    {
      LayoutLength(cs, o, container, padLead, i);
    }
    PartSumOf(cs, ys, o, r);
    if CountPart(cs, o) == 0 {
      PartTotalZeroCount(cs, o, r);
    }
  }

  lemma {:induction false} PartTotalZeroCount(cs: seq<Child>, o: Orientation, r: int)
    requires CountPart(cs, o) == 0
    ensures PartTotal(cs, o, r) == 0
  {
    if cs != [] {
      PartTotalZeroCount(cs[..|cs| - 1], o, r);
    }
  }

  /** The full-fill children together get at most the remainder, and the
      truncation drops less than one unit per full-fill child. */
  lemma {:induction false} FullFillTotal(cs: seq<Child>, o: Orientation, container: int, padLead: int)
    ensures FillLengthSum(Layout(cs, o, container, padLead), o, true) == CountFull(cs, o) * FullShare(cs, o, container)
    ensures FillLengthSum(Layout(cs, o, container, padLead), o, true) <= FullRemainder(cs, o, container)
    ensures CountFull(cs, o) > 0 ==>
      FullRemainder(cs, o, container) - FillLengthSum(Layout(cs, o, container, padLead), o, true) < CountFull(cs, o)
  {
    var ys := Layout(cs, o, container, padLead);
    var share := FullShare(cs, o, container);
    forall i | 0 <= i < |cs|
      ensures SameShape(cs[i], ys[i], o)
      ensures Shown(cs[i]) && FullFill(Primary(cs[i], o)) ==> Primary(ys[i], o).length == share
    {
      LayoutLength(cs, o, container, padLead, i);
    }
    FullSumOf(cs, ys, o, share);
    if CountFull(cs, o) > 0 {
      ShareBounds(FullRemainder(cs, o, container), CountFull(cs, o));
    }
  }

  /** Integer division of a non-negative amount into n equal shares. */
  lemma {:induction false} ShareBounds(rem: int, n: int)
    requires rem >= 0 && n > 0
    ensures 0 <= n * (rem / n) <= rem
    ensures rem - n * (rem / n) < n
  {
  }

  /** When the non-filling children alone use up the container, every
      filling child gets length zero, and nothing fails. */
  lemma {:induction false} OverflowGivesFillZero(cs: seq<Child>, o: Orientation, container: int, padLead: int, i: int)
    requires FirstSum(cs, o) >= container
    requires 0 <= i < |cs| && Shown(cs[i]) && Primary(cs[i], o).mode.Filling?
    ensures Primary(Layout(cs, o, container, padLead)[i], o).length == 0
  {
    LayoutLength(cs, o, container, padLead, i);
    PartTotalOfNothing(cs, o);
    assert PartRemainder(cs, o, container) == 0;
    assert FullRemainder(cs, o, container) == 0;
  }

  // ---------------------------------------------------------------------
  // Positioning.

  /** Children that are all Gone do not move the cursor. */
  lemma {:induction false} CursorGoneSuffix(xs: seq<Child>, o: Orientation, start: int, n: int)
    requires 0 <= n <= |xs|
    requires forall t :: n <= t < |xs| ==> !Shown(xs[t])
    ensures Cursor(xs, o, start) == Cursor(xs[..n], o, start)
    decreases |xs|
  {
    if n < |xs| {
      var m := |xs| - 1;
      assert xs[..m][..n] == xs[..n];
      CursorGoneSuffix(xs[..m], o, start, n);
    } else {
      assert xs[..n] == xs;
    }
  }

  /** The cursor depends only on visibility, margins and lengths. */
  lemma {:induction false} CursorBySameExtent(xs: seq<Child>, ys: seq<Child>, o: Orientation, start: int)
    requires |xs| == |ys|
    requires forall i :: 0 <= i < |xs| ==> SameExtent(xs[i], ys[i], o)
    ensures Cursor(xs, o, start) == Cursor(ys, o, start)
  {
    if xs != [] {
      var n := |xs| - 1;
      assert SameExtent(xs[n], ys[n], o);
      CursorBySameExtent(xs[..n], ys[..n], o, start);
    }
  }

  /** Positioning moves children and never resizes them. */
  lemma {:induction false} PlaceKeepsLength(cs: seq<Child>, o: Orientation, start: int, i: int)
    requires 0 <= i < |cs|
    ensures SameExtent(cs[i], Place(cs, o, start)[i], o)
    ensures Cross(Place(cs, o, start)[i], o) == Cross(cs[i], o)
  {
  }

  /** The first shown child starts at the leading padding plus its own
      leading margin. */
  lemma {:induction false} FirstShownOrigin(cs: seq<Child>, o: Orientation, container: int, padLead: int, i: int)
    requires 0 <= i < |cs| && Shown(cs[i])
    requires forall j :: 0 <= j < i ==> !Shown(cs[j])
    ensures Primary(Layout(cs, o, container, padLead)[i], o).origin == padLead + Primary(cs[i], o).marginLead
  {
    var f := Filled(cs, o, container);
    forall j | 0 <= j < i ensures !Shown(f[..i][j]) {
      FilledAt(cs, o, container, j);
    }
    CursorGoneSuffix(f[..i], o, padLead, 0);
    LayoutAt(cs, o, container, padLead, i);
  }

  /** Each next shown child starts where the previous shown one ends, plus
      that one's trailing margin and its own leading margin. */
  lemma {:induction false} NextShownOrigin(cs: seq<Child>, o: Orientation, container: int, padLead: int, j: int, k: int)
    requires 0 <= j < k < |cs| && Shown(cs[j]) && Shown(cs[k])
    requires forall t :: j < t < k ==> !Shown(cs[t])
    ensures var r := Layout(cs, o, container, padLead);
      Primary(r[k], o).origin ==
        Primary(r[j], o).origin + Primary(r[j], o).length + Primary(r[j], o).marginTrail + Primary(r[k], o).marginLead
  {
    var f := Filled(cs, o, container);
    forall t | j + 1 <= t < k ensures !Shown(f[..k][t]) {
      FilledAt(cs, o, container, t);
    }
    CursorGoneSuffix(f[..k], o, padLead, j + 1);
    assert f[..k][..j + 1] == f[..j + 1];
    assert f[..j + 1][..j] == f[..j];
    FilledAt(cs, o, container, j);
    LayoutAt(cs, o, container, padLead, j);
    LayoutAt(cs, o, container, padLead, k);
  }

  /** With no shown child, a wrapping container is just its padding. */
  lemma {:induction false} WrapExtentEmpty(cs: seq<Child>, o: Orientation, container: int, padLead: int, padTrail: int)
    requires forall j :: 0 <= j < |cs| ==> !Shown(cs[j])
    ensures WrapExtent(cs, o, container, padLead, padTrail) == padLead + padTrail
  {
    var f := Filled(cs, o, container);
    forall j | 0 <= j < |cs| ensures !Shown(f[j]) {
      FilledAt(cs, o, container, j);
    }
    CursorGoneSuffix(f, o, padLead, 0);
  }

  /** A wrapping container ends at the last shown child's end, plus its
      trailing margin and the trailing padding. */
  lemma {:induction false} WrapExtentAfterLast(cs: seq<Child>, o: Orientation, container: int, padLead: int, padTrail: int, k: int)
    requires 0 <= k < |cs| && Shown(cs[k])
    requires forall t :: k < t < |cs| ==> !Shown(cs[t])
    ensures var r := Layout(cs, o, container, padLead);
      WrapExtent(cs, o, container, padLead, padTrail) ==
        Primary(r[k], o).origin + Primary(r[k], o).length + Primary(r[k], o).marginTrail + padTrail
  {
    var f := Filled(cs, o, container);
    forall t | k + 1 <= t < |f| ensures !Shown(f[t]) {
      FilledAt(cs, o, container, t);
    }
    CursorGoneSuffix(f, o, padLead, k + 1);
    assert f[..k + 1][..k] == f[..k];
    FilledAt(cs, o, container, k);
    LayoutAt(cs, o, container, padLead, k);
  }

  /** The cursor walks the margins and lengths: the non-filling footprint
      plus what the two fill stages gave. */
  lemma {:induction false} CursorSplit(xs: seq<Child>, o: Orientation, start: int)
    ensures Cursor(xs, o, start) == start + Consumed(xs, o) + FillLengthSum(xs, o, false) + FillLengthSum(xs, o, true)
  {
    if xs != [] {
      CursorSplit(xs[..|xs| - 1], o, start);
    }
  }

  /** With full-fill children and no clamping, the children, their margins
      and the space given to filling cover the container's primary length
      up to less than one unit per full-fill child.  The paddings are not
      part of this sum: the content starts after the leading padding. */
  lemma {:induction false} FullFillCoversContainer(cs: seq<Child>, o: Orientation, container: int, padLead: int, padTrail: int)
    requires CountFull(cs, o) > 0
    requires 0 <= Consumed(cs, o)
    requires SecondSum(cs, o, container) <= container
    requires CountPart(cs, o) > 0 ==> 0 <= Consumed(cs, o) + PartTotal(cs, o, PartRemainder(cs, o, container))
    ensures var content := WrapExtent(cs, o, container, padLead, padTrail) - padLead - padTrail;
      container - CountFull(cs, o) < content <= container
  {
    var f := Filled(cs, o, container);
    var ys := Layout(cs, o, container, padLead);
    CursorSplit(f, o, padLead);
    forall i | 0 <= i < |cs|
      ensures SameShape(cs[i], f[i], o) && SameExtent(f[i], ys[i], o)
    {
      FilledAt(cs, o, container, i);
    }
    ShapeFixesAccumulation(cs, f, o, 0);
    forall i | 0 <= i < |cs| ensures SameShape(f[i], ys[i], o) {
    }
    FillSumsBySameExtent(f, ys, o);
    PartFillTotal(cs, o, container, padLead);
    FullFillTotal(cs, o, container, padLead);
  }

  lemma {:induction false} FillSumsBySameExtent(xs: seq<Child>, ys: seq<Child>, o: Orientation)
    requires |xs| == |ys|
    requires forall i :: 0 <= i < |xs| ==> SameShape(xs[i], ys[i], o) && SameExtent(xs[i], ys[i], o)
    ensures FillLengthSum(xs, o, true) == FillLengthSum(ys, o, true)
    ensures FillLengthSum(xs, o, false) == FillLengthSum(ys, o, false)
  {
    if xs != [] {
      var n := |xs| - 1;
      assert SameShape(xs[n], ys[n], o) && SameExtent(xs[n], ys[n], o);
      FillSumsBySameExtent(xs[..n], ys[..n], o);
    }
  }

  // ---------------------------------------------------------------------
  // Relayout requests.

  /** Only a shown Filling child can come out of the pass with a size other
      than its snapshot, so only such a child can be asked to relayout. */
  lemma {:induction false} OnlyFillingResized(cs: seq<Child>, o: Orientation, container: int, padLead: int, i: int)
    requires 0 <= i < |cs|
    requires SizeOf(Layout(cs, o, container, padLead)[i]) != SizeOf(cs[i])
    ensures Shown(cs[i]) && Primary(cs[i], o).mode.Filling?
  {
  }

  // ---------------------------------------------------------------------
  // Running the pass twice.

  /** The shares of the fill stages depend only on the shapes. */
  lemma {:induction false} SharesByShape(xs: seq<Child>, ys: seq<Child>, o: Orientation, container: int)
    requires |xs| == |ys|
    requires forall k :: 0 <= k < |xs| ==> SameShape(xs[k], ys[k], o)
    ensures PartRemainder(ys, o, container) == PartRemainder(xs, o, container)
    ensures FullShare(ys, o, container) == FullShare(xs, o, container)
  {
    var r := PartRemainder(xs, o, container);
    ShapeFixesAccumulation(xs, ys, o, r);
    assert PartRemainder(ys, o, container) == r;
    assert SecondSum(ys, o, container) == SecondSum(xs, o, container);
  }

  /** Children of the same shapes get the same final lengths. */
  lemma {:induction false} FinalLengthByShape(xs: seq<Child>, ys: seq<Child>, o: Orientation, container: int, i: int)
    requires |xs| == |ys|
    requires forall k :: 0 <= k < |xs| ==> SameShape(xs[k], ys[k], o)
    requires 0 <= i < |xs| && Shown(xs[i]) && Primary(xs[i], o).mode.Filling?
    ensures FinalLength(xs, o, container, i) == FinalLength(ys, o, container, i)
  {
    SharesByShape(xs, ys, o, container);
    PartAllocByShape(xs[i], ys[i], o, PartRemainder(xs, o, container));
  }

  lemma {:induction false} PartAllocByShape(a: Child, b: Child, o: Orientation, r: int)
    requires SameShape(a, b, o)
    ensures PartAlloc(a, o, r) == PartAlloc(b, o, r)
  {
  }

  /** The fill stages leave laid-out children as they are. */
  lemma {:induction false} FilledOfLayout(cs: seq<Child>, o: Orientation, container: int, padLead: int)
    ensures Filled(Layout(cs, o, container, padLead), o, container) == Layout(cs, o, container, padLead)
  {
    var ys := Layout(cs, o, container, padLead);
    forall i | 0 <= i < |cs| ensures SameShape(cs[i], ys[i], o) {
      LayoutLength(cs, o, container, padLead, i);
    }
    forall i | 0 <= i < |cs| ensures Filled(ys, o, container)[i] == ys[i] {
      LayoutLength(cs, o, container, padLead, i);
      FilledAt(ys, o, container, i);
      if Shown(cs[i]) && Primary(cs[i], o).mode.Filling? {
        FinalLengthByShape(cs, ys, o, container, i);
      }
    }
  }

  /** Positioning children that are already positioned changes nothing. */
  lemma {:induction false} PlaceTwice(f: seq<Child>, o: Orientation, start: int)
    ensures Place(Place(f, o, start), o, start) == Place(f, o, start)
  {
    var ys := Place(f, o, start);
    forall i | 0 <= i < |f| ensures Place(ys, o, start)[i] == ys[i] {
      forall j | 0 <= j < i ensures SameExtent(f[..i][j], ys[..i][j], o) {
        PlaceKeepsLength(f, o, start, j);
      }
      CursorBySameExtent(f[..i], ys[..i], o, start);
    }
  }

  /** Laying out already laid-out children in the same container gives
      the same children again. */
  lemma {:induction false} LayoutIdempotent(cs: seq<Child>, o: Orientation, container: int, padLead: int)
    ensures Layout(Layout(cs, o, container, padLead), o, container, padLead) == Layout(cs, o, container, padLead)
  {
    FilledOfLayout(cs, o, container, padLead);
    PlaceTwice(Filled(cs, o, container), o, padLead);
  }

  // ---------------------------------------------------------------------
  // Gone children and wrapping across passes.

  /** Replacing a Gone child by another Gone child, whatever its margins,
      modes and frame, changes neither the accumulation nor the cursor. */
  lemma {:induction false} GoneChildIgnored(cs: seq<Child>, o: Orientation, i: int, g: Child, r: int, start: int)
    requires 0 <= i < |cs| && !Shown(cs[i]) && !Shown(g)
    ensures Consumed(cs[i := g], o) == Consumed(cs, o)
    ensures CountFull(cs[i := g], o) == CountFull(cs, o) && CountPart(cs[i := g], o) == CountPart(cs, o)
    ensures PartTotal(cs[i := g], o, r) == PartTotal(cs, o, r)
    ensures Cursor(cs[i := g], o, start) == Cursor(cs, o, start)
  {
    var n := |cs| - 1;
    var ds := cs[i := g];
    if i == n {
      assert ds[..n] == cs[..n];
    } else {
      assert ds[..n] == cs[..n][i := g];
      assert ds[n] == cs[n];
      GoneChildIgnored(cs[..n], o, i, g, r, start);
    }
  }

  /** No shown child is Filling on the primary axis. */
  predicate NoFilling(cs: seq<Child>, o: Orientation) {
    forall i :: 0 <= i < |cs| && Shown(cs[i]) ==> !Primary(cs[i], o).mode.Filling?
  }

  lemma {:induction false} NoFillingCounts(cs: seq<Child>, o: Orientation)
    requires NoFilling(cs, o)
    ensures CountFull(cs, o) == 0 && CountPart(cs, o) == 0
    ensures FillLengthSum(cs, o, true) == 0 && FillLengthSum(cs, o, false) == 0
  {
    if cs != [] {
      var n := |cs| - 1;
      assert forall k :: 0 <= k < n ==> cs[..n][k] == cs[k];
      NoFillingCounts(cs[..n], o);
    }
  }

  /** Without shown Filling children a wrapping view takes its paddings plus
      the margins and lengths of its shown children, whatever the container.
      So a second pass, in whatever length the first one gave the view,
      gives the same length again. */
  lemma {:induction false} WrapExtentStable(cs: seq<Child>, o: Orientation, container: int, padLead: int, padTrail: int, next: int)
    requires NoFilling(cs, o)
    ensures WrapExtent(cs, o, container, padLead, padTrail) == padLead + Consumed(cs, o) + padTrail
    ensures WrapExtent(Layout(cs, o, container, padLead), o, next, padLead, padTrail)
      == WrapExtent(cs, o, container, padLead, padTrail)
  {
    NoFillingCounts(cs, o);
    assert Filled(cs, o, container) == cs;
    CursorSplit(cs, o, padLead);
    var ys := Layout(cs, o, container, padLead);
    forall i | 0 <= i < |cs| ensures SameShape(cs[i], ys[i], o) && SameExtent(cs[i], ys[i], o) {
      LayoutLength(cs, o, container, padLead, i);
    }
    ShapeFixesAccumulation(cs, ys, o, 0);
    assert Filled(ys, o, next) == ys;
    CursorBySameExtent(cs, ys, o, padLead);
  }

  /** One visible full-fill child without margins, in a container of 100
      with paddings of 10: the content ends at 110 and the wrapping view
      takes 120, beyond the container.  A second pass in 120 gives 140. */
  lemma FullFillWrapGrows()
    ensures var c := Child(Visible, Span(0, 0, Filling(1.0), 0, 0), Span(0, 0, Fixed, 0, 0));
      && WrapExtent([c], Horizontal, 100, 10, 10) == 120
      && WrapExtent(Layout([c], Horizontal, 100, 10), Horizontal, 120, 10, 10) == 140
  {
    var c := Child(Visible, Span(0, 0, Filling(1.0), 0, 0), Span(0, 0, Fixed, 0, 0));
    assert FullFill(c.horizontal);
    var c1 := c.(horizontal := c.horizontal.(length := 100));
    assert [c][..0] == [];
    assert Consumed([c], Horizontal) == 0;
    assert CountPart([c], Horizontal) == 0 && CountFull([c], Horizontal) == 1;
    assert FullShare([c], Horizontal, 100) == 100;
    assert FullFillAll([c], Horizontal, 100) == [c1];
    assert Filled([c], Horizontal, 100) == [c1];
    assert Cursor([c1], Horizontal, 10) == 110;
    var d := c1.(horizontal := c1.horizontal.(origin := 10));
    assert Layout([c], Horizontal, 100, 10) == [d];
    var d1 := d.(horizontal := d.horizontal.(length := 120));
    assert [d][..0] == [];
    assert Consumed([d], Horizontal) == 0;
    assert CountPart([d], Horizontal) == 0 && CountFull([d], Horizontal) == 1;
    assert FullShare([d], Horizontal, 120) == 120;
    assert FullFillAll([d], Horizontal, 120) == [d1];
    assert Filled([d], Horizontal, 120) == [d1];
    assert Cursor([d1], Horizontal, 10) == 130;
  }

  /** One visible part-fill child of weight 0.5 without margins or paddings:
      in a container of 200 the wrapping view takes 100, and a second pass
      in 100 gives 50. */
  lemma PartFillWrapShrinks()
    ensures var c := Child(Visible, Span(0, 0, Filling(0.5), 0, 0), Span(0, 0, Fixed, 0, 0));
      && WrapExtent([c], Horizontal, 200, 0, 0) == 100
      && WrapExtent(Layout([c], Horizontal, 200, 0), Horizontal, 100, 0, 0) == 50
  {
    var c := Child(Visible, Span(0, 0, Filling(0.5), 0, 0), Span(0, 0, Fixed, 0, 0));
    assert PartFill(c.horizontal);
    assert Trunc(200 as real * 0.5) == 100;
    var c1 := c.(horizontal := c.horizontal.(length := 100));
    assert [c][..0] == [];
    assert Consumed([c], Horizontal) == 0;
    assert CountPart([c], Horizontal) == 1 && CountFull([c], Horizontal) == 0;
    assert PartRemainder([c], Horizontal, 200) == 200;
    assert PartFillAll([c], Horizontal, 200) == [c1];
    assert Filled([c], Horizontal, 200) == [c1];
    assert Cursor([c1], Horizontal, 0) == 100;
    var d := c1.(horizontal := c1.horizontal.(origin := 0));
    assert Layout([c], Horizontal, 200, 0) == [d];
    assert Trunc(100 as real * 0.5) == 50;
    var d1 := d.(horizontal := d.horizontal.(length := 50));
    assert [d][..0] == [];
    assert Consumed([d], Horizontal) == 0;
    assert CountPart([d], Horizontal) == 1 && CountFull([d], Horizontal) == 0;
    assert PartRemainder([d], Horizontal, 100) == 100;
    assert PartFillAll([d], Horizontal, 100) == [d1];
    assert Filled([d], Horizontal, 100) == [d1];
    assert Cursor([d1], Horizontal, 0) == 50;
  }

  /** A Fill weight within the tolerance of one counts as full-fill. */
  lemma {:induction false} NearOneIsFullFill()
    ensures AlmostOne(1.0 + 0.000000001)
    ensures !AlmostOne(0.5)
  {
  }
}
