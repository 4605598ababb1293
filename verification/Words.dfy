/** size_t, modelled as the naturals up to SIZE_MAX, and the checked operations on it. */
module Words {
  import opened Wrappers

  const SIZE_MAX := 0xFFFF_FFFF_FFFF_FFFF
  const INT32_MAX := 0x7FFF_FFFF

  type Word = n: nat | n <= SIZE_MAX

  /** Succeeds exactly when the mathematical sum is a size_t. */
  function CheckedAdd(left: Word, right: Word): (r: Result<Word>)
    ensures r.Success? <==> left + right <= SIZE_MAX
    ensures r.Success? ==> r.value == left + right
  {
    if right > SIZE_MAX - left then Failure(Overflow) else Success(left + right)
  }

  /** Succeeds exactly when the mathematical product is a size_t: the division test is exact. */
  function CheckedMultiply(left: Word, right: Word): (r: Result<Word>)
    ensures r.Success? <==> left * right <= SIZE_MAX
    ensures r.Success? ==> r.value == left * right
    ensures r.Failure? ==> r.error == Overflow
  {
    if left != 0 && right > SIZE_MAX / left then
      QuotientBound(left, right);
      Failure(Overflow)
    else
      if left != 0 then QuotientBound(left, right); Success(left * right) else Success(0)
  }

  lemma QuotientBound(left: nat, right: nat)
    requires left != 0
    ensures right <= SIZE_MAX / left <==> left * right <= SIZE_MAX
  {
    var q := SIZE_MAX / left;
    assert left * q <= SIZE_MAX < left * (q + 1);
    if right <= q {
      assert left * right <= left * q;
    } else {
      assert left * right >= left * (q + 1);
    }
  }
}
