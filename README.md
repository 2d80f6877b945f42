# LinearView layout and 2x2 matrices, modelled in Dafny

This project models two parts of SLib, a C++ application framework.

- **The single-axis layout pass of `LinearView`.** This is a view group that
  stacks its children in one row (horizontal) or one column (vertical).
  `onUpdateLayout` runs four loops over the children:
  1. It accumulates the space that the shown children use: their margins,
     plus the lengths of the children that are not Filling. It also counts
     the *full-fill* children (a Filling child whose weight is one within
     tolerance) and the *part-fill* children (any other Filling child).
  2. It gives each part-fill child its weight times the space left,
     truncated.
  3. It gives each full-fill child an equal share of what is left after
     that.
  4. It positions the shown children one after another, starting at the
     leading padding. It flags every child whose size changed, so that the
     child lays itself out again.

  A view that wraps its content on the primary axis then takes the final
  cursor plus its trailing padding as its length. Gone children take no
  part in any of this.
- **`Matrix2T`.** This is a 2x2 matrix stored row-major. The model covers:
  - access to rows, columns and elements, by name and by offset;
  - the in-place arithmetic and the operators built on it;
  - products with vectors and with matrices;
  - determinant, inverse and transpose;
  - equality.

Files:

- `layout.dfy` (module `LinearLayout`): the children as values, and
  each stage of the pass as a function on a sequence of children. `Layout`
  is the whole pass.
- `layout_properties.dfy` (module `LayoutProperties`): lemmas about those
  functions. They cover:
  - what each child ends up with;
  - how the fill stages divide the space;
  - where each child is placed;
  - the wrapping length;
  - idempotence, and what a second pass does to a wrapping view.
- `linear_view.dfy` (module `LinearViews`): the `LinearView` class, whose
  layout pass runs over an `array<Child>`. Each of its loops is a method
  proved to compute the matching function of `LinearLayout`.
- `matrix2.dfy` (module `Matrices`): `Mat2` and `Vec2` as values, the
  read-only members and the non-assigning operators as functions, and the
  class `Matrix2`, whose methods update its four fields in place.

Modelling decisions:

- A child is a `Child` value. For each axis it holds the two margins, the
  size mode and the current frame on that axis (`origin`, `length`). The
  layout-size getters and setters of the source read and write
  `length`/`origin` on the primary axis.
- Lengths and positions are unbounded integers.
- Weights and matrix entries are exact reals.
- The cast of `remainedSize * weight` to a position truncates toward zero
  (`Trunc`).
- `Math::isAlmostZero(weight - 1)` is modelled as `|weight - 1| < 10^-6`
  (`AlmostOne`).
- The container length is the view's layout length on the primary axis as
  read at the start of the pass.
- The pass follows the code. The space sum counts the margins and the
  non-filling lengths but not the view's padding. So when the fill stages
  use up the remainder, the children and their margins span the whole
  container length starting from the leading padding
  (`FullFillCoversContainer`). The content therefore ends the padding
  lengths past the container's inner area.
- `forceUpdateLayout()` on a child is modelled as the returned flag
  sequence `relayout`.
- `invalidateLayout(mode)` in `setOrientation` is modelled as the returned
  flag `invalidate`.

## Model

| member | source | states |
|---|---|---|
| LinearLayout.WithPrimary | src/slib/ui/linear_view.cpp:159-161 | writing a child's primary-axis frame sets exactly that axis; the cross axis and the visibility stay |
| LinearLayout.TruncTowardZero | src/slib/ui/linear_view.cpp:159 | the cast of the part-fill product drops the fraction toward zero, for either sign |
| LinearLayout.ClampZero | src/slib/ui/linear_view.cpp:128-130 | the clamped space sum is non-negative, at least the sum, and either the sum or zero |
| LinearLayout.Remainder | src/slib/ui/linear_view.cpp:133-150 | the space left is never negative and is either container minus sum or zero |
| LinearLayout.Trunc | src/slib/ui/linear_view.cpp:159-168 | definition: the `(sl_ui_pos)` cast of the part-fill product, truncating toward zero. Its property is in `TruncTowardZero` |
| LinearLayout.AlmostOne | src/slib/ui/linear_view.cpp:105-117 | definition: the test `isAlmostZero(weight - 1)` (also at lines 158, 167, 210 and 217), with tolerance 10^-6. Its property is in `NearOneIsFullFill` |
| LinearLayout.FirstSum | src/slib/ui/linear_view.cpp:128-130 | definition: `sizeSum` after the first loop, clamped at zero. Its properties are in `ClampZero`, `PartFillLength` and `OverflowGivesFillZero` |
| LinearLayout.PartRemainder | src/slib/ui/linear_view.cpp:132-151 | definition: the `remainedSize` every part-fill child multiplies. Its properties are in `Remainder` and `PartFillLength` |
| LinearLayout.SecondSum | src/slib/ui/linear_view.cpp:176-180 | definition: `sizeSum` after the part-fill loop, clamped at zero. Its property is in `PartFillTotal` |
| LinearLayout.FullRemainder | src/slib/ui/linear_view.cpp:182-201 | definition: the `remainedSize` the full-fill children share. Its properties are in `FullFillLength` and `FullFillTotal` |
| LinearLayout.FinalLength | src/slib/ui/linear_view.cpp:152-223 | definition: a child's final primary length by its mode. That the pass gives it is `LayoutLength`; that it depends only on the children's shapes is `FinalLengthByShape` |
| LinearLayout.Consumed | src/slib/ui/linear_view.cpp:96-126 | definition: the space sum of the first loop, over a prefix of the children. Its properties are in `ShapeFixesAccumulation`, `GoneChildIgnored` and `CursorSplit` |
| LinearLayout.CountFull | src/slib/ui/linear_view.cpp:105-118 | definition: `countFullFill` over a prefix of the children. Its properties are in `CountFullPositive`, `ShapeFixesAccumulation` and `FullFillTotal` |
| LinearLayout.CountPart | src/slib/ui/linear_view.cpp:105-120 | definition: `countPartFill` over a prefix of the children. Its properties are in `CountPartPositive`, `ShapeFixesAccumulation` and `PartTotalZeroCount` |
| LinearLayout.PartAlloc | src/slib/ui/linear_view.cpp:157-170 | definition: the length one part-fill child gets. Its properties are in `PartAllocOfShown` and `PartFillLength` |
| LinearLayout.PartFillAll | src/slib/ui/linear_view.cpp:152-176 | definition of the second loop on all children; keeps the number of children. What each child gets is in `FilledAt` and `PartFillLength` |
| LinearLayout.PartTotal | src/slib/ui/linear_view.cpp:152-176 | definition: what the second loop adds to `sizeSum`. Its properties are in `PartSumOf`, `PartFillTotal`, `PartTotalOfNothing` and `PartTotalZeroCount` |
| LinearLayout.FullShare | src/slib/ui/linear_view.cpp:182-203 | definition: `sizeAvg`, the remainder divided by the full-fill count. Its properties are in `FullFillLength`, `FullFillTotal` and `SharesByShape` |
| LinearLayout.FullFillAll | src/slib/ui/linear_view.cpp:204-224 | definition of the third loop on all children; keeps the number of children. What each child gets is in `FilledAt` and `FullFillLength` |
| LinearLayout.Cursor | src/slib/ui/linear_view.cpp:226-259 | definition: `pos` after a prefix of the children. Its properties are in `CursorSplit`, `CursorGoneSuffix`, `CursorBySameExtent`, `FirstShownOrigin` and `NextShownOrigin` |
| LinearLayout.Place | src/slib/ui/linear_view.cpp:226-259 | definition of the fourth loop on all children; keeps the number of children. Its properties are in `PlaceKeepsLength` and `PlaceTwice` |
| LinearLayout.Filled | src/slib/ui/linear_view.cpp:128-224 | definition of the two fill stages; keeps the number of children. Its properties are in `FilledAt`, `FilledOfLayout` and `OverflowGivesFillZero` |
| LinearLayout.Layout | src/slib/ui/linear_view.cpp:80-259 | definition of the whole pass; keeps the number of children. Its properties are in `LayoutAt`, `LayoutLength`, `LayoutKeepsShape` and `LayoutIdempotent` |
| LinearLayout.WrapExtent | src/slib/ui/linear_view.cpp:261-273 | definition: the final `pos` plus the trailing padding. Its properties are in `WrapExtentEmpty`, `WrapExtentAfterLast`, `WrapExtentStable`, `FullFillWrapGrows` and `PartFillWrapShrinks` |
| LayoutProperties.CountPartPositive | src/slib/ui/linear_view.cpp:105-121 | a shown part-fill child makes the part-fill count positive, so its stage runs |
| LayoutProperties.CountFullPositive | src/slib/ui/linear_view.cpp:105-121 | a shown full-fill child makes the full-fill count positive, so its stage runs |
| LayoutProperties.ShapeFixesAccumulation | src/slib/ui/linear_view.cpp:96-126 | the space sum, both counts and the part-fill total depend only on visibility, margins, mode and non-filling lengths |
| LayoutProperties.PartTotalOfNothing | src/slib/ui/linear_view.cpp:152-176 | with no space left, the part-fill children add nothing to the sum |
| LayoutProperties.FilledAt | src/slib/ui/linear_view.cpp:128-224 | after the fill stages a shown child has its final length and nothing else changed; a Gone child is unchanged |
| LayoutProperties.LayoutAt | src/slib/ui/linear_view.cpp:80-259 | after the pass each child keeps visibility, cross axis, margins and mode; it has its final length; a shown child starts at the cursor plus its leading margin; a Gone child is unchanged |
| LayoutProperties.LayoutLength | src/slib/ui/linear_view.cpp:80-259 | each child's final primary length is its mode's length: its own, the full-fill share, or its part-fill amount |
| LayoutProperties.PartAllocOfShown | src/slib/ui/linear_view.cpp:157-161 | a shown part-fill child is given the truncated product of the remainder and its weight |
| LayoutProperties.GoneChildUntouched | src/slib/ui/linear_view.cpp:97-98 | a Gone child is neither resized nor moved |
| LayoutProperties.LayoutKeepsShape | src/slib/ui/linear_view.cpp:80-259 | the pass changes only the primary origin and length; a child that is not Filling keeps its length |
| LayoutProperties.PartFillLength | src/slib/ui/linear_view.cpp:128-176 | every shown part-fill child gets its weight times the one remainder taken after the first clamp, truncated toward zero |
| LayoutProperties.FullFillLength | src/slib/ui/linear_view.cpp:178-224 | every shown full-fill child gets the same non-negative share: the remainder after the part-fill stage divided by the full-fill count |
| LayoutProperties.FullSumOf | src/slib/ui/linear_view.cpp:203-223 | children that all got the share sum to the full-fill count times the share |
| LayoutProperties.PartSumOf | src/slib/ui/linear_view.cpp:152-176 | the part-fill lengths sum to what the loop added to the space sum |
| LayoutProperties.PartFillTotal | src/slib/ui/linear_view.cpp:152-180 | the sum after the part-fill stage is the first sum plus exactly the lengths the part-fill children got, clamped |
| LayoutProperties.PartTotalZeroCount | src/slib/ui/linear_view.cpp:132 | with no part-fill child the part-fill total is zero |
| LayoutProperties.FullFillTotal | src/slib/ui/linear_view.cpp:182-223 | the full-fill children together get the count times the share, at most the remainder, and less than one unit per child below it |
| LayoutProperties.OverflowGivesFillZero | src/slib/ui/linear_view.cpp:133-150 | when the non-filling children already use up the container, every Filling child gets length zero |
| LayoutProperties.CursorGoneSuffix | src/slib/ui/linear_view.cpp:233-235 | Gone children do not move the cursor |
| LayoutProperties.CursorBySameExtent | src/slib/ui/linear_view.cpp:233-259 | the cursor depends only on visibility, margins and lengths |
| LayoutProperties.PlaceKeepsLength | src/slib/ui/linear_view.cpp:237-253 | positioning moves a child without resizing it and leaves its cross axis |
| LayoutProperties.FirstShownOrigin | src/slib/ui/linear_view.cpp:226-240 | the first shown child starts at the leading padding plus its leading margin |
| LayoutProperties.NextShownOrigin | src/slib/ui/linear_view.cpp:239-253 | each shown child starts at the previous shown child's end plus that child's trailing margin and its own leading margin |
| LayoutProperties.WrapExtentEmpty | src/slib/ui/linear_view.cpp:261-273 | with no shown child a wrapping view's length is its two paddings |
| LayoutProperties.WrapExtentAfterLast | src/slib/ui/linear_view.cpp:261-273 | a wrapping view ends at the last shown child's end plus its trailing margin and the trailing padding |
| LayoutProperties.CursorSplit | src/slib/ui/linear_view.cpp:233-259 | the final cursor is the start plus the accumulated sum plus the part-fill and full-fill lengths |
| LayoutProperties.FullFillCoversContainer | src/slib/ui/linear_view.cpp:128-259 | with full-fill children and no clamping, the content spans the container length, less under one unit per full-fill child |
| LayoutProperties.FillSumsBySameExtent | src/slib/ui/linear_view.cpp:237-253 | children with the same shape and extent have the same fill-length sums |
| LayoutProperties.OnlyFillingResized | src/slib/ui/linear_view.cpp:255-257 | only a shown Filling child can change size, so only one can be asked to relayout |
| LayoutProperties.SharesByShape | src/slib/ui/linear_view.cpp:128-203 | the part-fill remainder and the full-fill share depend only on the children's shapes |
| LayoutProperties.FinalLengthByShape | src/slib/ui/linear_view.cpp:152-223 | children of the same shapes get the same final lengths |
| LayoutProperties.FilledOfLayout | src/slib/ui/linear_view.cpp:128-224 | running the fill stages on laid-out children changes nothing |
| LayoutProperties.PlaceTwice | src/slib/ui/linear_view.cpp:233-259 | positioning already positioned children changes nothing |
| LayoutProperties.LayoutIdempotent | src/slib/ui/linear_view.cpp:80-259 | a second pass in the same container gives the same children |
| LayoutProperties.GoneChildIgnored | src/slib/ui/linear_view.cpp:96-126 | replacing a Gone child by any other Gone child, whatever its margins, modes and frame, leaves the space sum, both counts, the part-fill total and the cursor unchanged |
| LayoutProperties.NoFillingCounts | src/slib/ui/linear_view.cpp:102-122 | with no shown Filling child both counts are zero and no fill length is given |
| LayoutProperties.WrapExtentStable | src/slib/ui/linear_view.cpp:80-273 | with no shown Filling child a wrapping view takes its paddings plus the footprint of its children, whatever the container, so a second pass in the new length gives the same length |
| LayoutProperties.FullFillWrapGrows | src/slib/ui/linear_view.cpp:182-273 | one full-fill child with paddings 10 in a container of 100: the wrapping view takes 120, beyond the container, and a second pass in 120 gives 140 |
| LayoutProperties.PartFillWrapShrinks | src/slib/ui/linear_view.cpp:132-273 | one part-fill child of weight 0.5 in a container of 200: the wrapping view takes 100, and a second pass in 100 gives 50 |
| LayoutProperties.NearOneIsFullFill | src/slib/ui/linear_view.cpp:105-117 | a weight within the tolerance of one is full-fill; weight 0.5 is part-fill |
| LinearViews.Accumulate | src/slib/ui/linear_view.cpp:96-126 | the first loop yields the space sum and both counts of the shown children, and snapshots each shown child's size |
| LinearViews.DistributePartFill | src/slib/ui/linear_view.cpp:152-176 | the second loop sizes every shown part-fill child as the part-fill stage says, adds the amounts to the sum, and leaves the other children |
| LinearViews.PartFillChild | src/slib/ui/linear_view.cpp:153-173 | one part-fill step sizes a shown part-fill child to its weight times the remainder, truncated, adds that length to the sum, and touches no other child |
| LinearViews.DistributeFullFill | src/slib/ui/linear_view.cpp:203-223 | the third loop gives every shown full-fill child the share and leaves the other children |
| LinearViews.Position | src/slib/ui/linear_view.cpp:226-259 | the fourth loop places the children as the positioning stage says, returns the final cursor, and flags each shown child whose size differs from its snapshot |
| LinearViews.PlaceChild | src/slib/ui/linear_view.cpp:235-257 | one positioning step places a child at the cursor plus its leading margin, advances the cursor past it, and touches no other child |
| LinearViews.LayoutPass | src/slib/ui/linear_view.cpp:80-259 | the four loops turn the children into Layout of them; the flagged children are the shown ones whose size changed |
| LinearViews.FillStages | src/slib/ui/linear_view.cpp:126-224 | the two clamps and the two fill loops turn the children into Filled of them |
| LinearViews.FilledVisibility | src/slib/ui/linear_view.cpp:152-223 | the fill stages keep every child's visibility |
| LinearViews.LinearView.constructor | src/slib/ui/linear_view.cpp:32-40 | a new linear view is vertical; the same holds for a vertical linear view (lines 277-280) |
| LinearViews.LinearView.HorizontalLinearView | src/slib/ui/linear_view.cpp:287-290 | a horizontal linear view starts horizontal |
| LinearViews.LinearView.IsHorizontal | src/slib/ui/linear_view.cpp:60-63 | true exactly when the orientation is horizontal |
| LinearViews.LinearView.IsVertical | src/slib/ui/linear_view.cpp:70-73 | true exactly when the view is not horizontal |
| LinearViews.LinearView.SetOrientation | src/slib/ui/linear_view.cpp:51-58 | the orientation becomes the given one; the layout is invalidated exactly when it changed |
| LinearViews.LinearView.SetHorizontal | src/slib/ui/linear_view.cpp:65-68 | the view becomes horizontal, invalidating the layout when it was vertical |
| LinearViews.LinearView.SetVertical | src/slib/ui/linear_view.cpp:75-78 | the view becomes vertical, invalidating the layout when it was horizontal |
| LinearViews.LinearView.UpdateLayout | src/slib/ui/linear_view.cpp:80-273 | the children become Layout of them in the view's primary length from the leading padding; the shown children whose size changed are flagged; a view wrapping on the primary axis takes the final cursor plus the trailing padding as its length; other lengths stay |
| Matrices.Entry | src/slib/math/matrix2.cpp:70-74 | definition: the entry at a row-major offset, the `(&m00)[k]` reads at lines 72, 113 and 128. Its properties are in `Row`, `Column`, `Element` and `WithEntry` |
| Matrices.WithEntry | src/slib/math/matrix2.cpp:132-135 | writing offset k sets that entry and leaves the other three |
| Matrices.Row0 | src/slib/math/matrix2.cpp:44-47 | definition: `getRow0`, the pair (m00, m01). `Row` and `RowRoundTrip` carry its properties |
| Matrices.Row1 | src/slib/math/matrix2.cpp:57-60 | definition: `getRow1`, the pair (m10, m11). `Row` and `RowRoundTrip` carry its properties |
| Matrices.Column0 | src/slib/math/matrix2.cpp:85-88 | definition: `getColumn0`, the pair (m00, m10). `Column` and `ColumnRoundTrip` carry its properties |
| Matrices.Column1 | src/slib/math/matrix2.cpp:98-101 | definition: `getColumn1`, the pair (m01, m11). `Column` and `ColumnRoundTrip` carry its properties |
| Matrices.WithRow0 | src/slib/math/matrix2.cpp:50-54 | definition: `setRow0` on a value. `WithRow`, `RowRoundTrip` and `Matrix2.SetRow0` carry its properties |
| Matrices.WithRow1 | src/slib/math/matrix2.cpp:63-67 | definition: `setRow1` on a value. `WithRow`, `RowRoundTrip` and `Matrix2.SetRow1` carry its properties |
| Matrices.WithColumn0 | src/slib/math/matrix2.cpp:91-95 | definition: `setColumn0` on a value. `WithColumn`, `ColumnRoundTrip` and `Matrix2.SetColumn0` carry its properties |
| Matrices.WithColumn1 | src/slib/math/matrix2.cpp:104-108 | definition: `setColumn1` on a value. `WithColumn`, `ColumnRoundTrip` and `Matrix2.SetColumn1` carry its properties |
| Matrices.WithElement | src/slib/math/matrix2.cpp:132-135 | definition: `setElement` on a value, a write at offset 2*row + column. `ElementRoundTrip` and `Matrix2.SetElement` carry its properties |
| Matrices.Row | src/slib/math/matrix2.cpp:70-74 | row 0 and row 1 by offset are the named rows (lines 44-60) |
| Matrices.Column | src/slib/math/matrix2.cpp:111-115 | column 0 and column 1 by offset are the named columns (lines 85-101) |
| Matrices.Element | src/slib/math/matrix2.cpp:126-129 | for a row and column below 2, the element is that component of the row and of the column |
| Matrices.WithRow | src/slib/math/matrix2.cpp:77-82 | writing row 0 or 1 by offset is writing the named row (lines 50-67) |
| Matrices.WithColumn | src/slib/math/matrix2.cpp:118-123 | writing column 0 or 1 by offset is writing the named column (lines 91-108) |
| Matrices.RowRoundTrip | src/slib/math/matrix2.cpp:70-82 | a row read after it is set is what was set; the other row stays |
| Matrices.ColumnRoundTrip | src/slib/math/matrix2.cpp:111-123 | a column read after it is set is what was set; the other column stays |
| Matrices.ElementRoundTrip | src/slib/math/matrix2.cpp:126-135 | an element read after it is set is what was set; every other offset stays |
| Matrices.Negated | src/slib/math/matrix2.cpp:289-294 | zero minus the matrix is its additive inverse, each entry negated |
| Matrices.MultiplyLeft | src/slib/math/matrix2.cpp:166-171 | the row vector times the matrix is the transpose times the vector as a column, `transpose().multiplyRight(v)`; `MultiplyLeftActsInTurn` gives its law for products |
| Matrices.MultiplyRight | src/slib/math/matrix2.cpp:174-179 | definition: the matrix times the column vector, each component a row dotted with the vector; `operator*(Vector2T)` returns the same (lines 327-330). Its properties are in `ProductActsInTurn` and `MultiplyLeftIsTransposedRight` |
| Matrices.Sum | src/slib/math/matrix2.cpp:259-264 | definition of `+` (a copy, then `add`), entry by entry. Its properties are in `AddThenSubtract` and `Matrix2.Add` |
| Matrices.Difference | src/slib/math/matrix2.cpp:274-279 | definition of `-` (a copy, then `subtract`), entry by entry. Its properties are in `AddThenSubtract`, `Negated` and `Matrix2.Subtract` |
| Matrices.Scaled | src/slib/math/matrix2.cpp:297-302 | definition of `* T` (a copy, then `multiply(T)`). Its properties are in `ScaleThenDivide` and `Matrix2.MultiplyScalar` |
| Matrices.Product | src/slib/math/matrix2.cpp:333-338 | definition of `*` on two matrices: each entry a row of the left factor dotted with a column of the right one. Its properties are in `ProductByRowsAndColumns`, `DeterminantOfProduct`, `ProductWithIdentity`, `ProductActsInTurn` and `InverseIsInverse` |
| Matrices.ProductByRowsAndColumns | src/slib/math/matrix2.cpp:182-191 | each element of the product is the row of the left factor times the column of the right one |
| Matrices.Quotient | src/slib/math/matrix2.cpp:312-317 | definition of `/ T` (a copy, then `divide`), for a non-zero divisor. Its property is in `ScaleThenDivide` |
| Matrices.Determinant | src/slib/math/matrix2.cpp:194-197 | definition: `getDeterminant`, taken as m00*m11 - m01*m10. Its properties are in `DeterminantOfProduct` and `InverseTransposeCommutes` |
| Matrices.Inverse | src/slib/math/matrix2.cpp:200-217 | definition: the adjugate over the determinant, as `makeInverse` computes and `inverse()` returns on a copy. Its property is in `InverseIsInverse` |
| Matrices.Transpose | src/slib/math/matrix2.cpp:220-232 | the transpose keeps the diagonal and swaps row and column of every element |
| Matrices.InverseTranspose | src/slib/math/matrix2.cpp:242-248 | definition: the transpose of the inverse, for a non-zero determinant. Its property is in `InverseTransposeCommutes` |
| Matrices.Equal | src/slib/math/matrix2.cpp:348-352 | `==` holds exactly when the two matrices are equal |
| Matrices.NotEqual | src/slib/math/matrix2.cpp:355-359 | `!=` is the negation of `==` |
| Matrices.AddThenSubtract | src/slib/math/matrix2.cpp:138-149 | adding and then subtracting a matrix restores the original, and the other way round |
| Matrices.ScaleThenDivide | src/slib/math/matrix2.cpp:152-163 | dividing by a non-zero value undoes multiplying by it |
| Matrices.DeterminantOfProduct | src/slib/math/matrix2.cpp:182-197 | the determinant of a product is the product of the determinants |
| Matrices.TransposeInvolution | src/slib/math/matrix2.cpp:220-232 | transposing twice restores the matrix |
| Matrices.MultiplyLeftIsTransposedRight | src/slib/math/matrix2.cpp:166-179 | multiplying a vector from the left is multiplying it from the right by the transpose |
| Matrices.MultiplyLeftActsInTurn | src/slib/math/matrix2.cpp:166-191 | a row vector times a product is the vector times the left factor, then times the right one |
| Matrices.ProductWithIdentity | src/slib/math/matrix2.cpp:38-41 | the identity constant is a two-sided unit of the product |
| Matrices.ProductActsInTurn | src/slib/math/matrix2.cpp:174-191 | applying a product to a vector applies the right factor, then the left |
| Matrices.InverseIsInverse | src/slib/math/matrix2.cpp:200-217 | for a non-zero determinant the inverse is a left and a right inverse |
| Matrices.InverseTransposeCommutes | src/slib/math/matrix2.cpp:235-248 | the transpose has the same determinant, and the inverse transpose is also the inverse of the transpose |
| Matrices.SelfProductAsWritten | src/slib/math/matrix2.cpp:182-191 | definition: lines 185-190 when the argument is `this`, the second row computed from the already overwritten first row. `SelfProductOfExample` and `SelfProductDiffersFromSquare` show how it differs from `Product` |
| Matrices.SquareOfExample | src/slib/math/matrix2.cpp:182-191 | the square of [[2, 0], [1, 0]] is [[4, 0], [2, 0]] |
| Matrices.SelfProductOfExample | src/slib/math/matrix2.cpp:182-191 | the in-place product of [[2, 0], [1, 0]] with itself, as written, is [[4, 0], [4, 0]] |
| Matrices.SelfProductDiffersFromSquare | src/slib/math/matrix2.cpp:341-345 | for [[2, 0], [1, 0]], `m *= m` as written differs from the square in row 1, column 0 (4 instead of 2) |
| Matrices.Matrix2.constructor | src/slib/math/matrix2.cpp:29-41 | a new matrix holds the four given entries in row-major order, the layout of the constant arrays; the constructors themselves are declared in the header (see "## Left out") |
| Matrices.Matrix2.SetEntry | src/slib/math/matrix2.cpp:132-135 | writing offset k changes that field only |
| Matrices.Matrix2.SetRow0 | src/slib/math/matrix2.cpp:50-54 | row 0 becomes the vector; row 1 stays |
| Matrices.Matrix2.SetRow1 | src/slib/math/matrix2.cpp:63-67 | row 1 becomes the vector; row 0 stays |
| Matrices.Matrix2.SetRow | src/slib/math/matrix2.cpp:77-82 | the row at the index becomes the vector; the other row stays |
| Matrices.Matrix2.SetColumn0 | src/slib/math/matrix2.cpp:91-95 | column 0 becomes the vector; column 1 stays |
| Matrices.Matrix2.SetColumn1 | src/slib/math/matrix2.cpp:104-108 | column 1 becomes the vector; column 0 stays |
| Matrices.Matrix2.SetColumn | src/slib/math/matrix2.cpp:118-123 | the column at the index becomes the vector; the other column stays |
| Matrices.Matrix2.SetElement | src/slib/math/matrix2.cpp:132-135 | the element at the offset becomes the value; the others stay |
| Matrices.Matrix2.Add | src/slib/math/matrix2.cpp:138-142 | the matrix becomes the sum with `other`, also when `other` is the same object; `+` and `+=` are this (lines 259-271) |
| Matrices.Matrix2.Subtract | src/slib/math/matrix2.cpp:145-149 | the matrix becomes the difference with `other`, also when aliased; `-` and `-=` are this (lines 274-286) |
| Matrices.Matrix2.MultiplyScalar | src/slib/math/matrix2.cpp:152-156 | every entry is multiplied by the value; `* T` and `*= T` are this (lines 297-309) |
| Matrices.Matrix2.Divide | src/slib/math/matrix2.cpp:159-163 | every entry is divided by the non-zero value; `/ T` and `/= T` are this (lines 312-324) |
| Matrices.Matrix2.Multiply | src/slib/math/matrix2.cpp:182-191 | as written: the product with a distinct matrix, but when the argument is this object, the second row is computed from the overwritten first row |
| Matrices.Matrix2.MultiplyBy | src/slib/math/matrix2.cpp:182-191 | corrected: the product with the argument taken before any write, including for `m *= m`; `operator*` (lines 333-338, which multiplies a copy) agrees with it |
| Matrices.Matrix2.MakeInverse | src/slib/math/matrix2.cpp:200-209 | for a non-zero determinant the matrix becomes its inverse |
| Matrices.Matrix2.MakeTranspose | src/slib/math/matrix2.cpp:220-224 | the matrix becomes its transpose |
| Matrices.Matrix2.MakeInverseTranspose | src/slib/math/matrix2.cpp:235-239 | the matrix becomes the transpose of its inverse |

## Left out

- LayoutProperties.LayoutIdempotent: holds only for a second pass in the same container. The pass does not keep two properties that a wrapping view might be expected to have. First, with a shown Filling child, a wrapping view's length is not stable from one pass to the next (`FullFillWrapGrows`, `PartFillWrapShrinks`); it is stable without one (`WrapExtentStable`). Second, the content plus the paddings can exceed the container, because the space sum leaves the padding out (`FullFillWrapGrows`: 120 in a container of 100). The model follows the code in both.
- LinearViews.LinearView.UpdateLayout: `measureLayoutWrappingSize` (lines 262 and 268 of `linear_view.cpp`) is not modelled. It measures the wrapping size on the cross axis and belongs to the view group, which is not part of this model. So `UpdateLayout` leaves the cross-axis length unchanged.
- The recursive layout that `forceUpdateLayout()` starts in a child is not modelled; the model returns the flags only. `invalidateLayout(mode)` and the `UIUpdateMode` argument are likewise returned as a flag or dropped.
- `setAlwaysOnUpdateLayout` and `setSavingCanvasState` in the constructor concern the host's redraw machinery and are not modelled. Padding, layout size and wrapping start at zero and false in the model; their defaults in the base view class are not part of this model.
- LinearLayout.Trunc: positions are unbounded integers, so the 32-bit wrap-around of `sl_ui_pos`/`sl_ui_len` and any unsigned conversion in the comparisons are not modelled.
- LinearLayout.AlmostOne: `sl_real` floating point is modelled as exact reals. The tolerance of `Math::isAlmostZero` is taken as 10^-6; its definition is not part of this model.
- LinearViews.Position: the size comparison uses exact equality for `isAlmostEqual`, which matches integral layout sizes.
- The scratch buffer `SLIB_SCOPED_BUFFER` is the sequence `sizes`. The snapshot of a Gone child is never read, so the value stored for it (zero) does not matter.
- `Matrix2T::lerp` (lines 251-256 of `matrix2.cpp`) is not modelled: `SLIB_LERP` is defined in a header that is not part of this model.
- Matrices.Determinant: `SLIB_MATH_MATRIX_DETERMINANT2` is defined in `slib/math/matrix2.h`, which is not part of this model; it is taken to be m00*m11 - m01*m10.
- Matrices.Inverse: requires a non-zero determinant. The source divides by zero in floating point and yields infinities, which exact reals cannot express.
- Matrices.InverseTranspose: requires a non-zero determinant, for the same reason.
- Matrices.Matrix2.MakeInverse: requires a non-zero determinant, for the same reason.
- Matrices.Matrix2.MakeInverseTranspose: requires a non-zero determinant, for the same reason.
- Matrices.Quotient: requires a non-zero divisor, for the same reason.
- Matrices.Matrix2.Divide: requires a non-zero divisor, for the same reason.
- Matrices.Row: requires an index below 2. A larger index reads outside the matrix in the source, which is undefined behaviour.
- Matrices.Column: requires an index below 2, for the same reason.
- Matrices.WithRow: requires an index below 2, for the same reason.
- Matrices.WithColumn: requires an index below 2, for the same reason.
- Matrices.Matrix2.SetRow: requires an index below 2, for the same reason.
- Matrices.Matrix2.SetColumn: requires an index below 2, for the same reason.
- Matrices.Entry: requires an offset below 4, for the same reason.
- Matrices.WithEntry: requires an offset below 4, for the same reason.
- Matrices.Element: requires an offset below 4, for the same reason.
- Matrices.WithElement: requires an offset below 4, for the same reason.
- Matrices.Matrix2.SetEntry: requires an offset below 4, for the same reason.
- Matrices.Matrix2.SetElement: requires an offset below 4, for the same reason.
- The constructors of `Matrix2T` are declared in `slib/math/matrix2.h`, which is not part of this model; `Matrices.Matrix2.constructor` simply stores the four entries.
- `Vector2T` is modelled only as the pair `Vec2(x, y)`; its own members are not part of this model.
- The static constants `zero()`, `one()` and `identity()` are the constants `Zero`, `One` and `Identity`.
- The non-assigning operators and the copying members `inverse()`, `transpose()` and `inverseTranspose()` work on a copy. They are modelled by the functions `Sum`, `Difference`, `Scaled`, `Quotient`, `Product`, `Inverse`, `Transpose` and `InverseTranspose`.

## Findings

| source | as written | input that shows it | evidently intended | confidence | as-written member | corrected member |
|---|---|---|---|---|---|---|
| src/slib/math/matrix2.cpp:182-191 | `multiply(const Matrix2T& m)` stores the new first row into `this` before it reads `m` for the second row, so when `m` is `this` (`m.multiply(m)`, `m *= m`) the second row uses the overwritten first row | m = [[2, 0], [1, 0]]: the element at row 1, column 0 becomes 4 where the square has 2 | the square of m, as `operator*` gives (it multiplies a copy) | high; not executed | Matrices.Matrix2.Multiply, Matrices.SelfProductDiffersFromSquare | Matrices.Matrix2.MultiplyBy |
