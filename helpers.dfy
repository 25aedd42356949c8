/**
 * The arithmetic and conversion helpers of the utils package: pagination,
 * list offsets and the strconv wrappers.
 */
module Helpers {
  import opened Wrappers

  const Int64Min: int := -0x8000_0000_0000_0000
  const Int64Max: int := 0x7fff_ffff_ffff_ffff
  const Uint64Limit: int := 0x1_0000_0000_0000_0000

  predicate IsInt64(x: int) {
    Int64Min <= x <= Int64Max
  }

  /** Go's two's-complement wrap-around of a 64-bit signed result. */
  function Wrap64(x: int): (r: int)
    ensures IsInt64(r)
    ensures IsInt64(x) ==> r == x
    ensures (x - r) % Uint64Limit == 0
  {
    (x - Int64Min) % Uint64Limit + Int64Min
  }

  // ---------------------------------------------------------------- Paginate

  datatype Pagination = Pagination(
    currentPage: int,
    itemsPerPage: int,
    nextPage: Option<int>,
    previousPage: Option<int>,
    totalCount: int,
    totalPages: int)

  /**
   * The exact integer ceiling of `a / b` for a positive `b`. It agrees with
   * `math.Ceil(float64(a) / float64(b))` while `a` and `b` are below 2^53,
   * where float64 holds them exactly.
   */
  function CeilDiv(a: int, b: int): (q: int)
    requires b > 0
    ensures (q - 1) * b < a <= q * b
  {
    if a >= 0 then
      var q := (a + b - 1) / b;
      assert a + b - 1 == q * b + (a + b - 1) % b;
      assert (q - 1) * b == q * b - b;
      q
    else
      var q := -((-a) / b);
      assert -a == (-q) * b + (-a) % b;
      assert (q - 1) * b == q * b - b;
      q
  }

  /**
   * `Paginate`: a non-positive page size counts as 1; the page count is the
   * ceiling of total over page size; the neighbouring pages exist exactly when
   * they are in range.
   */
  function Paginate(total: int, page: int, perPage: int): (p: Pagination)
    ensures p.itemsPerPage == if perPage <= 0 then 1 else perPage
    ensures (p.totalPages - 1) * p.itemsPerPage < total <= p.totalPages * p.itemsPerPage
    ensures p.nextPage.Some? <==> page < p.totalPages
    ensures p.nextPage.Some? ==> p.nextPage.value == page + 1
    ensures p.previousPage.Some? <==> page > 1
    ensures p.previousPage.Some? ==> p.previousPage.value == page - 1
    ensures p.currentPage == page && p.totalCount == total
  {
    var per := if perPage <= 0 then 1 else perPage;
    var totalPages := CeilDiv(total, per);
    Pagination(
      page,
      per,
      if page < totalPages then Some(page + 1) else None,
      if page > 1 then Some(page - 1) else None,
      total,
      totalPages)
  }

  // --------------------------------------------------------- CalculateOffset

  datatype OffsetResult = OffsetResult(
    currentPage: int,
    itemsPerPage: int,
    orderBy: string,
    sortBy: string,
    offset: int)

  /**
   * `CalculateOffset`: `orderBy` defaults to `created_at`, `sortBy` is forced
   * into {asc, desc}, and the offset is `(page - 1) * perPage` computed in
   * 64-bit arithmetic and clamped at zero.
   */
  function CalculateOffset(currentPage: int, itemsPerPage: int, sortBy: string, orderBy: string): (r: OffsetResult)
    requires IsInt64(currentPage) && IsInt64(itemsPerPage)
    ensures r.orderBy == if orderBy == "" then "created_at" else orderBy
    ensures r.sortBy == "asc" || r.sortBy == "desc"
    ensures (sortBy == "asc" || sortBy == "desc") ==> r.sortBy == sortBy
    ensures 0 <= r.offset <= Int64Max
    ensures var exact := (currentPage - 1) * itemsPerPage;
            IsInt64(exact) ==> r.offset == if exact < 0 then 0 else exact
    ensures r.currentPage == currentPage && r.itemsPerPage == itemsPerPage
  {
    var order := if orderBy == "" then "created_at" else orderBy;
    var sort := if sortBy != "asc" && sortBy != "desc" then "desc" else sortBy;
    var product := Wrap64(Wrap64(currentPage - 1) * itemsPerPage);
    assert IsInt64(currentPage - 1) ==> Wrap64(currentPage - 1) == currentPage - 1;
    OffsetResult(currentPage, itemsPerPage, order, sort, if product < 0 then 0 else product)
  }

  // -------------------------------------------------------- strconv wrappers

  /** The two ways `strconv` parsing fails; the source panics on either. */
  datatype NumError = ErrSyntax | ErrRange

  predicate IsDigit(c: char) {
    '0' <= c <= '9'
  }

  predicate AllDigits(s: string) {
    forall i :: 0 <= i < |s| ==> IsDigit(s[i])
  }

  function DigitChar(d: int): (c: char)
    requires 0 <= d < 10
    ensures IsDigit(c)
  {
    (('0' as int) + d) as char
  }

  /** Decimal digits of a natural number, most significant first. */
  function FormatNat(n: nat): (s: string)
    ensures |s| > 0 && AllDigits(s)
  {
    if n < 10 then [DigitChar(n)] else FormatNat(n / 10) + [DigitChar(n % 10)]
  }

  /** The value of a non-empty string of decimal digits. */
  function DigitsValue(s: string): nat
    requires |s| > 0 && AllDigits(s)
  {
    var last := (s[|s| - 1] as int) - ('0' as int);
    if |s| == 1 then last else DigitsValue(s[..|s| - 1]) * 10 + last
  }

  lemma {:induction false} DigitsValueOfFormat(n: nat)
    ensures DigitsValue(FormatNat(n)) == n
  {
    if n >= 10 {
      var s := FormatNat(n);
      assert s[..|s| - 1] == FormatNat(n / 10);
      DigitsValueOfFormat(n / 10);
    }
  }

  /** `strconv.FormatInt(i, 10)`, also what `fmt` prints for `%d`. */
  function ConvertInt64ToString(i: int): (s: string)
    ensures |s| > 0
    ensures i >= 0 ==> AllDigits(s)
    ensures i < 0 ==> s[0] == '-' && AllDigits(s[1..])
  {
    if i < 0 then "-" + FormatNat(-i) else FormatNat(i)
  }

  /** `strconv.ParseUint(s, 10, 64)`: digits only, no sign, below 2^64. */
  function ConvertStringToUint(s: string): (r: Result<int, NumError>)
    ensures r.Ok? ==> 0 <= r.value < Uint64Limit
    ensures r.Ok? <==> |s| > 0 && AllDigits(s) && DigitsValue(s) < Uint64Limit
  {
    if |s| == 0 || !AllDigits(s) then Err(ErrSyntax)
    else if DigitsValue(s) >= Uint64Limit then Err(ErrRange)
    else Ok(DigitsValue(s))
  }

  /** `strconv.ParseInt(s, 10, 64)`: an optional sign, then digits, within the int64 range. */
  function ConvertStringToInt64(s: string): (r: Result<int, NumError>)
    ensures r.Ok? ==> IsInt64(r.value)
    ensures r.Ok? ==> |s| > 0 && AllDigits(if s[0] == '+' || s[0] == '-' then s[1..] else s)
    ensures r.Ok? && |s| > 0 && AllDigits(s) ==> r.value == DigitsValue(s)
    ensures |s| > 0 && AllDigits(s) && DigitsValue(s) <= Int64Max ==> r == Ok(DigitsValue(s))
  {
    if |s| == 0 then Err(ErrSyntax)
    else
      var negative := s[0] == '-';
      var digits := if s[0] == '+' || s[0] == '-' then s[1..] else s;
      if |digits| == 0 || !AllDigits(digits) then Err(ErrSyntax)
      else
        var u: int := DigitsValue(digits);
        if !negative && u > Int64Max then Err(ErrRange)
        else if negative && u > -Int64Min then Err(ErrRange)
        else Ok(if negative then -u else u)
  }

  /** `uint(i)`: the two's-complement reinterpretation of an int64. */
  function ConvertInt64ToUint(i: int): (u: int)
    requires IsInt64(i)
    ensures 0 <= u < Uint64Limit
    ensures i >= 0 ==> u == i
    ensures i < 0 ==> u == i + Uint64Limit
  {
    i % Uint64Limit
  }

  /** Printing an int64 and parsing it back gives the same number. */
  lemma Int64RoundTrip(i: int)
    requires IsInt64(i)
    ensures ConvertStringToInt64(ConvertInt64ToString(i)) == Ok(i)
  {
    var s := ConvertInt64ToString(i);
    if i < 0 {
      assert s[1..] == FormatNat(-i);
      DigitsValueOfFormat(-i);
    } else {
      assert IsDigit(s[0]);
      DigitsValueOfFormat(i);
    }
  }

  /** A non-negative int64 printed in decimal parses back as the same uint; a negative one is refused. */
  lemma UintOfFormatted(i: int)
    requires IsInt64(i)
    ensures i >= 0 ==> ConvertStringToUint(ConvertInt64ToString(i)) == Ok(i)
    ensures i < 0 ==> ConvertStringToUint(ConvertInt64ToString(i)) == Err(ErrSyntax)
  {
    if i >= 0 {
      DigitsValueOfFormat(i);
    } else {
      assert !IsDigit(ConvertInt64ToString(i)[0]);
    }
  }

  /** Decimal printing is injective: different numbers never print the same. */
  lemma FormatInjective(i: int, j: int)
    requires ConvertInt64ToString(i) == ConvertInt64ToString(j)
    ensures i == j
  {
    var s := ConvertInt64ToString(i);
    if i < 0 && j < 0 {
      assert s[1..] == FormatNat(-i) == FormatNat(-j);
      DigitsValueOfFormat(-i);
      DigitsValueOfFormat(-j);
    } else if i >= 0 && j >= 0 {
      DigitsValueOfFormat(i);
      DigitsValueOfFormat(j);
    }
  }

  /** Decimal text holds only digits and a leading `-`: never a `:`, `?` or other separator. */
  lemma FormattedChars(i: int)
    ensures forall c :: c in ConvertInt64ToString(i) ==> c == '-' || IsDigit(c)
  {
    var s := ConvertInt64ToString(i);
    if i < 0 {
      assert forall j :: 1 <= j < |s| ==> s[j] == s[1..][j - 1];
    }
  }
}
