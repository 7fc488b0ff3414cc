/** Derivation of the requested page from the table widget's row offset
    (`iDisplayStart`). The view computes `str(round(int(iDisplayStart) / 10) + 1)`:
    Python's `round` rounds to the nearest integer and breaks ties towards the
    even neighbour, so this is not `offset / 10` floored. */
module Paging {
  import Decimal

  /** Rows the table widget shows per page; the upstream page size is separate. */
  const RowsPerPage: nat := 10

  /** `r` is `n / 10` rounded to the nearest integer, ties going to the even one. */
  predicate IsRoundHalfEven(n: int, r: int) {
    && RowsPerPage * r - 5 <= n <= RowsPerPage * r + 5
    && ((n == RowsPerPage * r - 5 || n == RowsPerPage * r + 5) ==> r % 2 == 0)
  }

  /** Python's `round(n / 10)` computed exactly on integers. */
  function RoundTenth(n: int): (r: int)
    ensures IsRoundHalfEven(n, r)
  {
    var q := n / RowsPerPage;
    var rem := n % RowsPerPage;
    if rem < 5 then q
    else if rem > 5 then q + 1
    else if q % 2 == 0 then q
    else q + 1
  }

  /** There is only one half-even rounding, so `RoundTenth` is it. */
  lemma RoundTenthUnique(n: int, r: int)
    requires IsRoundHalfEven(n, r)
    ensures r == RoundTenth(n)
  {
  }

  /** The 1-based page number the request asks for. */
  function PageNumber(offset: int): (p: int)
    ensures IsRoundHalfEven(offset, p - 1)
    ensures offset >= 0 ==> p >= 1
  {
    RoundTenth(offset) + 1
  }

  /** The page number as the string the session store is keyed by. */
  function PageKey(offset: int): (k: string)
    ensures Decimal.IsDecimal(k) && Decimal.Parse(k) == PageNumber(offset)
    ensures Decimal.IsCanonical(k)
  {
    Decimal.ParseStr(PageNumber(offset));
    Decimal.Str(PageNumber(offset))
  }

  /** Two offsets share a session entry exactly when they denote the same page. */
  lemma PageKeyIffSamePage(a: int, b: int)
    ensures PageKey(a) == PageKey(b) <==> PageNumber(a) == PageNumber(b)
  {
    Decimal.StrInjective(PageNumber(a), PageNumber(b));
  }

  /** Further along the table never means an earlier page. */
  lemma PageNumberMonotone(a: int, b: int)
    requires a <= b
    ensures PageNumber(a) <= PageNumber(b)
  {
  }

  /** Worked offsets: 0, 10 and 25 give pages 1, 2 and 3, and 15 (a tie at
      1.5) goes to the even neighbour 2, hence page 3 rather than page 2. */
  lemma PageNumberExamples()
    ensures PageNumber(0) == 1
    ensures PageNumber(10) == 2
    ensures PageNumber(25) == 3
    ensures PageNumber(15) == 3
    ensures PageNumber(5) == 1
    ensures PageKey(25) == "3"
  {
    assert Decimal.Digits(3) == "3";
  }
}
