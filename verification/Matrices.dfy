/** Row-major buffers and the matrices they hold. */
module Matrices {

  ghost predicate IsMatrix<F>(m: seq<seq<F>>, rows: nat, width: nat) {
    && |m| == rows
    && forall r :: 0 <= r < rows ==> |m[r]| == width
  }

  lemma RowFits(r: nat, rows: nat, width: nat)
    requires r < rows
    ensures 0 <= r * width
    ensures r * width + width == (r + 1) * width <= rows * width
  {
    Distributes(r, 1, width);
    Distributes(r + 1, rows - (r + 1), width);
  }

  lemma Distributes(a: nat, b: nat, width: nat)
    ensures 0 <= a * width && 0 <= b * width && (a + b) * width == a * width + b * width
  {
  }

  /** Row r of a row-major buffer. */
  ghost function RowOf<F>(buffer: seq<F>, rows: nat, width: nat, r: nat): (row: seq<F>)
    requires |buffer| == rows * width && r < rows
    ensures |row| == width
    ensures forall c :: 0 <= c < width ==>
              0 <= r * width + c < |buffer| && row[c] == buffer[r * width + c]
  {
    RowFits(r, rows, width);
    buffer[r * width..r * width + width]
  }

  /** The rows of a row-major buffer. */
  ghost function Rows<F>(buffer: seq<F>, rows: nat, width: nat): (m: seq<seq<F>>)
    requires |buffer| == rows * width
    ensures IsMatrix(m, rows, width)
    ensures forall r :: 0 <= r < rows ==> m[r] == RowOf(buffer, rows, width, r)
  {
    seq(rows, (r: nat) requires r < rows => RowOf(buffer, rows, width, r))
  }

  lemma TableRow<F>(table: seq<F>, rows: nat, width: nat, r: nat)
    requires |table| == rows * width && r < rows && 0 <= r * width && r * width + width <= |table|
    ensures Rows(table, rows, width)[r] == table[r * width..r * width + width]
  {
  }

  lemma ArrayPrefix<F>(a: array<F>, n: nat, s: seq<F>)
    requires n == |s| <= a.Length && forall i :: 0 <= i < n ==> a[i] == s[i]
    ensures a[..n] == s
  {
  }

  lemma SliceOfSlice<F>(s: seq<F>, a: nat, b: nat, lo: nat, size: nat)
    requires a <= b <= |s| && lo + size <= b - a
    ensures s[a..b][lo..lo + size] == s[a + lo..a + lo + size]
  {
    var t, u := s[a..b][lo..lo + size], s[a + lo..a + lo + size];
    forall i | 0 <= i < size ensures t[i] == u[i] {
      assert s[a..b][lo + i] == s[a + (lo + i)];
    }
  }

  /** A part of a row is a part of the buffer. */
  lemma RowSlice<F>(buffer: seq<F>, rows: nat, width: nat, r: nat, lo: nat, size: nat)
    requires |buffer| == rows * width && r < rows && lo + size <= width
    ensures 0 <= r * width && r * width + width <= |buffer|
    ensures buffer[r * width + lo..r * width + lo + size] == Rows(buffer, rows, width)[r][lo..lo + size]
  {
    RowFits(r, rows, width);
  }

  /** The row-major buffer that holds a matrix. */
  ghost function Flat<F>(m: seq<seq<F>>): seq<F> {
    if |m| == 0 then [] else Flat(m[..|m| - 1]) + m[|m| - 1]
  }

  lemma FlatExtend<F>(m: seq<seq<F>>, r: nat)
    requires r < |m|
    ensures Flat(m[..r + 1]) == Flat(m[..r]) + m[r]
  {
    assert m[..r + 1][..r] == m[..r];
  }

  lemma {:induction false} FlatLength<F>(m: seq<seq<F>>, rows: nat, width: nat)
    requires IsMatrix(m, rows, width)
    ensures |Flat(m)| == rows * width
  {
    if rows > 0 {
      FlatLength(m[..rows - 1], rows - 1, width);
      RowFits(rows - 1, rows, width);
    }
  }

  lemma {:induction false} FlatAt<F>(m: seq<seq<F>>, rows: nat, width: nat, r: nat, c: nat)
    requires IsMatrix(m, rows, width) && r < rows && c < width
    ensures 0 <= r * width + c < |Flat(m)| == rows * width
    ensures Flat(m)[r * width + c] == m[r][c]
  {
    FlatLength(m, rows, width);
    FlatLength(m[..rows - 1], rows - 1, width);
    RowFits(r, rows, width);
    RowFits(rows - 1, rows, width);
    if r < rows - 1 {
      FlatAt(m[..rows - 1], rows - 1, width, r, c);
    }
  }

  /** Splitting into rows undoes flattening. */
  lemma RowsOfFlat<F>(m: seq<seq<F>>, rows: nat, width: nat)
    requires IsMatrix(m, rows, width)
    ensures |Flat(m)| == rows * width
    ensures Rows(Flat(m), rows, width) == m
  {
    FlatLength(m, rows, width);
    var back := Rows(Flat(m), rows, width);
    forall r | 0 <= r < rows ensures back[r] == m[r] {
      forall c | 0 <= c < width ensures back[r][c] == m[r][c] {
        FlatAt(m, rows, width, r, c);
      }
      assert back[r] == m[r];
    }
  }

  /** Flattening undoes splitting into rows. */
  lemma {:induction false} FlatOfRows<F>(buffer: seq<F>, rows: nat, width: nat)
    requires |buffer| == rows * width
    ensures Flat(Rows(buffer, rows, width)) == buffer
  {
    if rows > 0 {
      RowFits(rows - 1, rows, width);
      var cut := (rows - 1) * width;
      FlatOfRows(buffer[..cut], rows - 1, width);
      FirstRows(buffer, rows, width, rows - 1);
      assert Rows(buffer, rows, width)[rows - 1] == buffer[cut..];
      assert buffer[..cut] + buffer[cut..] == buffer;
    }
  }

  /** The first rows of a buffer are the rows of its first part. */
  lemma FirstRows<F>(buffer: seq<F>, rows: nat, width: nat, n: nat)
    requires |buffer| == rows * width && n <= rows
    ensures 0 <= n * width <= |buffer|
    ensures Rows(buffer[..n * width], n, width) == Rows(buffer, rows, width)[..n]
  {
    if n < rows {
      RowFits(n, rows, width);
    }
    forall r | 0 <= r < n
      ensures Rows(buffer[..n * width], n, width)[r] == Rows(buffer, rows, width)[r]
    {
      RowFits(r, n, width);
    }
  }

  /** A one-row buffer is its own only row. */
  lemma SingleRow<F>(buffer: seq<F>)
    ensures Rows(buffer, 1, |buffer|) == [buffer]
    ensures Flat([buffer]) == buffer
  {
    var m := Rows(buffer, 1, |buffer|);
    forall c | 0 <= c < |buffer| ensures m[0][c] == buffer[c] {
      assert m[0][c] == buffer[0 * |buffer| + c];
    }
    assert m[0] == buffer;
    assert Flat([buffer]) == Flat([buffer][..0]) + buffer;
    assert [buffer][..0] == [];
  }

  /** s with the part that starts at lo replaced by t. */
  ghost function Splice<F>(s: seq<F>, lo: nat, t: seq<F>): (r: seq<F>)
    requires lo + |t| <= |s|
    ensures |r| == |s|
    ensures forall i :: 0 <= i < |s| ==> r[i] == if lo <= i < lo + |t| then t[i - lo] else s[i]
  {
    s[..lo] + t + s[lo + |t|..]
  }

  /** Writing inside one row of a buffer changes that row alone. */
  lemma SpliceInRow<F>(buffer: seq<F>, rows: nat, width: nat, r: nat, lo: nat, t: seq<F>)
    requires |buffer| == rows * width && r < rows && lo + |t| <= width
    ensures r * width + lo + |t| <= |buffer|
    ensures Rows(Splice(buffer, r * width + lo, t), rows, width)
         == Rows(buffer, rows, width)[r := Splice(Rows(buffer, rows, width)[r], lo, t)]
  {
    RowFits(r, rows, width);
    var before := Rows(buffer, rows, width);
    var after := Rows(Splice(buffer, r * width + lo, t), rows, width);
    forall q | 0 <= q < rows
      ensures after[q] == if q == r then Splice(before[r], lo, t) else before[q]
    {
      RowFits(q, rows, width);
      if q < r {
        RowFits(q, r, width);
      } else if q > r {
        RowFits(r, q, width);
      }
      forall c | 0 <= c < width
        ensures after[q][c] == (if q == r then Splice(before[r], lo, t) else before[q])[c]
      {
        assert after[q][c] == Splice(buffer, r * width + lo, t)[q * width + c];
        assert before[q][c] == buffer[q * width + c];
      }
      assert |after[q]| == width;
    }
  }

  /** Two adjacent writes are one write. */
  lemma SpliceAppend<F>(s: seq<F>, lo: nat, t: seq<F>, u: seq<F>)
    requires lo + |t| + |u| <= |s|
    ensures Splice(Splice(s, lo, t), lo + |t|, u) == Splice(s, lo, t + u)
  {
  }

  /** now is was with the first r rows of y written in order from first. */
  ghost predicate SpanHolds<F>(was: seq<F>, now: seq<F>, first: nat, y: seq<seq<F>>,
                               rows: nat, width: nat, r: nat)
  {
    && IsMatrix(y, rows, width) && r <= rows
    && 0 <= r * width <= rows * width && first + rows * width <= |was|
    && |Flat(y[..r])| == r * width
    && now == Splice(was, first, Flat(y[..r]))
  }

  lemma SpanStart<F>(was: seq<F>, first: nat, y: seq<seq<F>>, rows: nat, width: nat)
    requires IsMatrix(y, rows, width) && first + rows * width <= |was|
    ensures SpanHolds(was, was, first, y, rows, width, 0)
  {
    assert y[..0] == [];
  }

  lemma SpanStep<F>(was: seq<F>, now: seq<F>, first: nat, y: seq<seq<F>>, rows: nat, width: nat, r: nat)
    requires SpanHolds(was, now, first, y, rows, width, r) && r < rows
    ensures 0 <= first + r * width && first + r * width + width <= |was| == |now|
    ensures SpanHolds(was, Splice(now, first + r * width, y[r]), first, y, rows, width, r + 1)
  {
    RowFits(r, rows, width);
    FlatExtend(y, r);
    SpliceAppend(was, first, Flat(y[..r]), y[r]);
  }

  /** If was is zero throughout, the part not yet written is zero. */
  lemma SpanZero<F>(was: seq<F>, now: seq<F>, y: seq<seq<F>>, rows: nat, width: nat, r: nat, zero: F)
    requires SpanHolds(was, now, 0, y, rows, width, r)
    requires forall i :: 0 <= i < |was| ==> was[i] == zero
    ensures |now| == |was| && 0 <= r * width
    ensures forall i :: r * width <= i < |now| ==> now[i] == zero
  {
  }

  lemma SpanDone<F>(was: seq<F>, now: seq<F>, first: nat, y: seq<seq<F>>, rows: nat, width: nat)
    requires SpanHolds(was, now, first, y, rows, width, rows)
    ensures |Flat(y)| == rows * width
    ensures now == Splice(was, first, Flat(y))
    ensures first == 0 && |was| == rows * width ==> now == Flat(y)
  {
    assert y[..rows] == y;
  }
}
