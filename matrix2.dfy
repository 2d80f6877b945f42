// 2x2 matrices, stored row-major as m00, m01, m10, m11.
//
// The entries are exact reals.  Mat2 and Vec2 are the values that the
// read-only members and the non-assigning operators compute; the class
// Matrix2 holds the four fields that the assigning members update in place.

module Matrices {

  datatype Vec2 = Vec2(x: real, y: real)

  datatype Mat2 = Mat2(m00: real, m01: real, m10: real, m11: real)

  const Zero: Mat2 := Mat2(0.0, 0.0, 0.0, 0.0)
  const One: Mat2 := Mat2(1.0, 1.0, 1.0, 1.0)
  const Identity: Mat2 := Mat2(1.0, 0.0, 0.0, 1.0)

  // ---------------------------------------------------------------------
  // Access by index.  The four entries lie in memory in the order
  // m00, m01, m10, m11; indexed access reads that layout.

  /** The entry at offset k of the row-major layout. */
  function Entry(m: Mat2, k: nat): real
    requires k < 4
  {
    if k == 0 then m.m00 else if k == 1 then m.m01 else if k == 2 then m.m10 else m.m11
  }

  /** The matrix with the entry at offset k replaced by v. */
  function WithEntry(m: Mat2, k: nat, v: real): (r: Mat2)
    requires k < 4
    ensures Entry(r, k) == v
    ensures forall j :: 0 <= j < 4 && j != k ==> Entry(r, j) == Entry(m, j)
  {
    if k == 0 then m.(m00 := v) else if k == 1 then m.(m01 := v) else if k == 2 then m.(m10 := v) else m.(m11 := v)
  }

  function Row0(m: Mat2): Vec2 { Vec2(m.m00, m.m01) }
  function Row1(m: Mat2): Vec2 { Vec2(m.m10, m.m11) }
  function Column0(m: Mat2): Vec2 { Vec2(m.m00, m.m10) }
  function Column1(m: Mat2): Vec2 { Vec2(m.m01, m.m11) }

  /** Row `index`, read at offsets 2*index and 2*index + 1. */
  function Row(m: Mat2, index: nat): (v: Vec2)
    requires index < 2
    ensures v == if index == 0 then Row0(m) else Row1(m)
  {
    Vec2(Entry(m, 2 * index), Entry(m, 2 * index + 1))
  }

  /** Column `index`, read at offsets index and index + 2. */
  function Column(m: Mat2, index: nat): (v: Vec2)
    requires index < 2
    ensures v == if index == 0 then Column0(m) else Column1(m)
  {
    Vec2(Entry(m, index), Entry(m, index + 2))
  }

  /** The element at offset 2*row + column.  For a row and a column below 2
      that is the entry in that row and column. */
  function Element(m: Mat2, row: nat, column: nat): (e: real)
    requires 2 * row + column < 4
    ensures row < 2 && column < 2 ==> e == (if column == 0 then Row(m, row).x else Row(m, row).y)
    ensures row < 2 && column < 2 ==> e == (if row == 0 then Column(m, column).x else Column(m, column).y)
  {
    Entry(m, 2 * row + column)
  }

  function WithRow0(m: Mat2, v: Vec2): Mat2 { m.(m00 := v.x, m01 := v.y) }
  function WithRow1(m: Mat2, v: Vec2): Mat2 { m.(m10 := v.x, m11 := v.y) }
  function WithColumn0(m: Mat2, v: Vec2): Mat2 { m.(m00 := v.x, m10 := v.y) }
  function WithColumn1(m: Mat2, v: Vec2): Mat2 { m.(m01 := v.x, m11 := v.y) }

  /** Writes offsets 2*index and 2*index + 1. */
  function WithRow(m: Mat2, index: nat, v: Vec2): (r: Mat2)
    requires index < 2
    ensures r == if index == 0 then WithRow0(m, v) else WithRow1(m, v)
  {
    WithEntry(WithEntry(m, 2 * index, v.x), 2 * index + 1, v.y)
  }

  /** Writes offsets index and index + 2. */
  function WithColumn(m: Mat2, index: nat, v: Vec2): (r: Mat2)
    requires index < 2
    ensures r == if index == 0 then WithColumn0(m, v) else WithColumn1(m, v)
  {
    WithEntry(WithEntry(m, index, v.x), index + 2, v.y)
  }

  function WithElement(m: Mat2, row: nat, column: nat, v: real): Mat2
    requires 2 * row + column < 4
  {
    WithEntry(m, 2 * row + column, v)
  }

  /** Setting a row and reading it back gives what was set; the other row
      stays. */
  lemma RowRoundTrip(m: Mat2, index: nat, v: Vec2)
    requires index < 2
    ensures Row(WithRow(m, index, v), index) == v
    ensures Row(WithRow(m, index, v), 1 - index) == Row(m, 1 - index)
  {
  }

  /** Setting a column and reading it back gives what was set; the other
      column stays. */
  lemma ColumnRoundTrip(m: Mat2, index: nat, v: Vec2)
    requires index < 2
    ensures Column(WithColumn(m, index, v), index) == v
    ensures Column(WithColumn(m, index, v), 1 - index) == Column(m, 1 - index)
  {
  }

  /** Setting an element and reading it back gives what was set; every other
      offset stays. */
  lemma ElementRoundTrip(m: Mat2, row: nat, column: nat, v: real)
    requires 2 * row + column < 4
    ensures Element(WithElement(m, row, column, v), row, column) == v
    ensures forall k :: 0 <= k < 4 && k != 2 * row + column ==> Entry(WithElement(m, row, column, v), k) == Entry(m, k)
  {
  }

  // ---------------------------------------------------------------------
  // Arithmetic.  These are also the non-assigning operators: `a + b` is
  // Sum, `a - b` Difference, `a * k` Scaled, `a / k` Quotient, `a * v`
  // MultiplyRight, `a * b` Product, `-a` Negated.

  function Sum(a: Mat2, b: Mat2): Mat2 {
    Mat2(a.m00 + b.m00, a.m01 + b.m01, a.m10 + b.m10, a.m11 + b.m11)
  }

  function Difference(a: Mat2, b: Mat2): Mat2 {
    Mat2(a.m00 - b.m00, a.m01 - b.m01, a.m10 - b.m10, a.m11 - b.m11)
  }

  function Scaled(a: Mat2, k: real): Mat2 {
    Mat2(a.m00 * k, a.m01 * k, a.m10 * k, a.m11 * k)
  }

  function Quotient(a: Mat2, k: real): Mat2
    requires k != 0.0
  {
    Mat2(a.m00 / k, a.m01 / k, a.m10 / k, a.m11 / k)
  }

  /** Unary minus: the zero matrix minus `a`. */
  function Negated(a: Mat2): (r: Mat2)
    ensures Sum(a, r) == Zero
    ensures r == Scaled(a, -1.0)
  {
    Difference(Zero, a)
  }

  function Dot(u: Vec2, v: Vec2): real {
    u.x * v.x + u.y * v.y
  }

  /** The row vector v times the matrix: the matrix's transpose times v as
      a column vector. */
  function MultiplyLeft(m: Mat2, v: Vec2): (r: Vec2)
    ensures r == MultiplyRight(Transpose(m), v)
  {
    Vec2(v.x * m.m00 + v.y * m.m10, v.x * m.m01 + v.y * m.m11)
  }

  /** The matrix times the column vector v. */
  function MultiplyRight(m: Mat2, v: Vec2): Vec2 {
    Vec2(m.m00 * v.x + m.m01 * v.y, m.m10 * v.x + m.m11 * v.y)
  }

  /** The matrix product a times b. */
  function Product(a: Mat2, b: Mat2): Mat2 {
    Mat2(Dot(Row0(a), Column0(b)), Dot(Row0(a), Column1(b)),
         Dot(Row1(a), Column0(b)), Dot(Row1(a), Column1(b)))
  }

  /** Each element of the product is the sum of the products of a row of the
      left factor with a column of the right one. */
  lemma ProductByRowsAndColumns(a: Mat2, b: Mat2, row: nat, column: nat)
    requires row < 2 && column < 2
    ensures Element(Product(a, b), row, column)
      == Element(a, row, 0) * Element(b, 0, column) + Element(a, row, 1) * Element(b, 1, column)
  {
  }

  function Determinant(m: Mat2): real {
    m.m00 * m.m11 - m.m01 * m.m10
  }

  /** The adjugate scaled by one over the determinant. */
  function Inverse(m: Mat2): Mat2
    requires Determinant(m) != 0.0
  {
    var d := 1.0 / Determinant(m);
    Mat2(d * m.m11, d * -m.m01, d * -m.m10, d * m.m00)
  }

  /** Swaps m01 and m10. */
  function Transpose(m: Mat2): (r: Mat2)
    ensures r.m00 == m.m00 && r.m11 == m.m11
    ensures forall row: nat, column: nat :: row < 2 && column < 2 ==> Element(r, row, column) == Element(m, column, row)
  {
    m.(m01 := m.m10, m10 := m.m01)
  }

  function InverseTranspose(m: Mat2): Mat2
    requires Determinant(m) != 0.0
  {
    Transpose(Inverse(m))
  }

  /** `==`: all four entries are equal. */
  function Equal(a: Mat2, b: Mat2): (r: bool)
    ensures r <==> a == b
  {
    a.m00 == b.m00 && a.m01 == b.m01 && a.m10 == b.m10 && a.m11 == b.m11
  }

  /** `!=`: some entry differs. */
  function NotEqual(a: Mat2, b: Mat2): (r: bool)
    ensures r == !Equal(a, b)
  {
    a.m00 != b.m00 || a.m01 != b.m01 || a.m10 != b.m10 || a.m11 != b.m11
  }

  // ---------------------------------------------------------------------
  // Laws.

  /** Adding a matrix and then subtracting it restores the original. */
  lemma AddThenSubtract(m: Mat2, o: Mat2)
    ensures Difference(Sum(m, o), o) == m
    ensures Sum(Difference(m, o), o) == m
  {
  }

  /** Dividing by a non-zero value undoes multiplying by it. */
  lemma ScaleThenDivide(m: Mat2, k: real)
    requires k != 0.0
    ensures Quotient(Scaled(m, k), k) == m
  {
  }

  /** The determinant is multiplicative. */
  lemma DeterminantOfProduct(a: Mat2, b: Mat2)
    ensures Determinant(Product(a, b)) == Determinant(a) * Determinant(b)
  {
  }

  lemma TransposeInvolution(m: Mat2)
    ensures Transpose(Transpose(m)) == m
  {
  }

  /** Multiplying a row vector from the left is multiplying the transpose's
      column vector from the right. */
  lemma MultiplyLeftIsTransposedRight(m: Mat2, v: Vec2)
    ensures MultiplyLeft(m, v) == MultiplyRight(Transpose(m), v)
  {
  }

  /** A row vector times a product is the vector times the left factor,
      then times the right one. */
  lemma MultiplyLeftActsInTurn(a: Mat2, b: Mat2, v: Vec2)
    ensures MultiplyLeft(Product(a, b), v) == MultiplyLeft(b, MultiplyLeft(a, v))
  {
  }

  lemma ProductWithIdentity(m: Mat2)
    ensures Product(m, Identity) == m && Product(Identity, m) == m
  {
  }

  /** The product is applied by applying its factors in turn. */
  lemma ProductActsInTurn(a: Mat2, b: Mat2, v: Vec2)
    ensures MultiplyRight(Product(a, b), v) == MultiplyRight(a, MultiplyRight(b, v))
  {
  }

  /** With a non-zero determinant, the inverse is a two-sided inverse. */
  lemma InverseIsInverse(m: Mat2)
    requires Determinant(m) != 0.0
    ensures Product(Inverse(m), m) == Identity
    ensures Product(m, Inverse(m)) == Identity
  {
  }

  /** The inverse transpose is the transpose of the inverse, and the
      transpose's inverse too. */
  lemma InverseTransposeCommutes(m: Mat2)
    requires Determinant(m) != 0.0
    ensures Determinant(Transpose(m)) == Determinant(m)
    ensures InverseTranspose(m) == Inverse(Transpose(m))
  {
  }

  // ---------------------------------------------------------------------
  // The in-place product as the source writes it, for this multiplied by
  // itself: the second row is computed after the first row of `this` (which
  // is also the argument) has been overwritten.

  function SelfProductAsWritten(m: Mat2): Mat2 {
    var r0 := Vec2(Dot(Row0(m), Column0(m)), Dot(Row0(m), Column1(m)));
    // the argument's first row now reads r0
    Mat2(r0.x, r0.y, Dot(Row1(m), Vec2(r0.x, m.m10)), Dot(Row1(m), Vec2(r0.y, m.m11)))
  }

  lemma SquareOfExample(m: Mat2)
    requires m == Mat2(2.0, 0.0, 1.0, 0.0)
    ensures Product(m, m) == Mat2(4.0, 0.0, 2.0, 0.0)
  {
  }

  lemma SelfProductOfExample(m: Mat2)
    requires m == Mat2(2.0, 0.0, 1.0, 0.0)
    ensures SelfProductAsWritten(m) == Mat2(4.0, 0.0, 4.0, 0.0)
  {
  }

  /** `m *= m` does not square m: with m = [[2, 0], [1, 0]] the element at
      row 1, column 0 comes out 4 where the square has 2. */
  lemma SelfProductDiffersFromSquare(m: Mat2)
    requires m == Mat2(2.0, 0.0, 1.0, 0.0)
    ensures SelfProductAsWritten(m).m10 == 4.0 && Product(m, m).m10 == 2.0
    ensures SelfProductAsWritten(m) != Product(m, m)
  {
    SquareOfExample(m);
    SelfProductOfExample(m);
  }

  // ---------------------------------------------------------------------
  // The object whose members update the entries in place.

  class Matrix2 {
    var m00: real
    var m01: real
    var m10: real
    var m11: real

    constructor (a00: real, a01: real, a10: real, a11: real)
      ensures Value() == Mat2(a00, a01, a10, a11)
    {
      m00, m01, m10, m11 := a00, a01, a10, a11;
    }

    /** The value of the four fields. */
    function Value(): Mat2
      reads this
    {
      Mat2(m00, m01, m10, m11)
    }

    /** Writes the field at offset k of the row-major layout. */
    method SetEntry(k: nat, v: real)
      requires k < 4
      modifies this
      ensures Value() == WithEntry(old(Value()), k, v)
    {
      if k == 0 {
        m00 := v;
      } else if k == 1 {
        m01 := v;
      } else if k == 2 {
        m10 := v;
      } else {
        m11 := v;
      }
    }

    method SetRow0(v: Vec2)
      modifies this
      ensures Value() == WithRow0(old(Value()), v)
    {
      m00 := v.x;
      m01 := v.y;
    }

    method SetRow1(v: Vec2)
      modifies this
      ensures Value() == WithRow1(old(Value()), v)
    {
      m10 := v.x;
      m11 := v.y;
    }

    method SetRow(index: nat, v: Vec2)
      requires index < 2
      modifies this
      ensures Value() == WithRow(old(Value()), index, v)
      ensures Row(Value(), index) == v && Row(Value(), 1 - index) == Row(old(Value()), 1 - index)
    {
      SetEntry(2 * index, v.x);
      SetEntry(2 * index + 1, v.y);
      RowRoundTrip(old(Value()), index, v);
    }

    method SetColumn0(v: Vec2)
      modifies this
      ensures Value() == WithColumn0(old(Value()), v)
    {
      m00 := v.x;
      m10 := v.y;
    }

    method SetColumn1(v: Vec2)
      modifies this
      ensures Value() == WithColumn1(old(Value()), v)
    {
      m01 := v.x;
      m11 := v.y;
    }

    method SetColumn(index: nat, v: Vec2)
      requires index < 2
      modifies this
      ensures Value() == WithColumn(old(Value()), index, v)
      ensures Column(Value(), index) == v && Column(Value(), 1 - index) == Column(old(Value()), 1 - index)
    {
      SetEntry(index, v.x);
      SetEntry(index + 2, v.y);
      ColumnRoundTrip(old(Value()), index, v);
    }

    method SetElement(row: nat, column: nat, v: real)
      requires 2 * row + column < 4
      modifies this
      ensures Value() == WithElement(old(Value()), row, column, v)
      ensures Element(Value(), row, column) == v
    {
      SetEntry(2 * row + column, v);
    }

    /** `add` and `+=`; correct also when `other` is this object. */
    method Add(other: Matrix2)
      modifies this
      ensures Value() == Sum(old(Value()), old(other.Value()))
    {
      m00 := m00 + other.m00;
      m01 := m01 + other.m01;
      m10 := m10 + other.m10;
      m11 := m11 + other.m11;
    }

    /** `subtract` and `-=`; correct also when `other` is this object. */
    method Subtract(other: Matrix2)
      modifies this
      ensures Value() == Difference(old(Value()), old(other.Value()))
    {
      m00 := m00 - other.m00;
      m01 := m01 - other.m01;
      m10 := m10 - other.m10;
      m11 := m11 - other.m11;
    }

    /** `multiply(T)` and `*= T`. */
    method MultiplyScalar(value: real)
      modifies this
      ensures Value() == Scaled(old(Value()), value)
    {
      m00 := m00 * value;
      m01 := m01 * value;
      m10 := m10 * value;
      m11 := m11 * value;
    }

    /** `divide(T)` and `/= T`. */
    method Divide(value: real)
      requires value != 0.0
      modifies this
      ensures Value() == Quotient(old(Value()), value)
    {
      m00 := m00 / value;
      m01 := m01 / value;
      m10 := m10 / value;
      m11 := m11 / value;
    }

    /** `multiply(const Matrix2T&)` as written: the first row is stored
        before the second row is computed, so when `m` is this object the
        second row reads the new first row. */
    method Multiply(m: Matrix2)
      modifies this
      ensures m != this ==> Value() == Product(old(Value()), old(m.Value()))
      ensures m == this ==> Value() == SelfProductAsWritten(old(Value()))
    {
      var v0 := Dot(Vec2(m00, m01), Vec2(m.m00, m.m10));
      var v1 := Dot(Vec2(m00, m01), Vec2(m.m01, m.m11));
      m00 := v0;
      m01 := v1;
      v0 := Dot(Vec2(m10, m11), Vec2(m.m00, m.m10));
      v1 := Dot(Vec2(m10, m11), Vec2(m.m01, m.m11));
      m10 := v0;
      m11 := v1;
    }

    /** The in-place product with the argument read before anything is
        written, so that `m *= m` squares m. */
    method MultiplyBy(m: Matrix2)
      modifies this
      ensures Value() == Product(old(Value()), old(m.Value()))
    {
      var b := m.Value();
      var v0 := Dot(Vec2(m00, m01), Column0(b));
      var v1 := Dot(Vec2(m00, m01), Column1(b));
      m00 := v0;
      m01 := v1;
      v0 := Dot(Vec2(m10, m11), Column0(b));
      v1 := Dot(Vec2(m10, m11), Column1(b));
      m10 := v0;
      m11 := v1;
    }

    method MakeInverse()
      requires Determinant(Value()) != 0.0
      modifies this
      ensures Value() == Inverse(old(Value()))
    {
      ghost var before := Value();
      var a00 := m11;
      var a01 := -m10;
      var a10 := -m01;
      var a11 := m00;
      var d := 1.0 / Determinant(Value());
      assert Inverse(before) == Mat2(d * a00, d * a10, d * a01, d * a11);
      m00 := d * a00;
      m01 := d * a10;
      m10 := d * a01;
      m11 := d * a11;
    }

    method MakeTranspose()
      modifies this
      ensures Value() == Transpose(old(Value()))
    {
      var f := m01;
      m01 := m10;
      m10 := f;
    }

    method MakeInverseTranspose()
      requires Determinant(Value()) != 0.0
      modifies this
      ensures Value() == InverseTranspose(old(Value()))
    {
      MakeInverse();
      MakeTranspose();
    }
  }
}
