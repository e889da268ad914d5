/** Cent rounding, the inclusive tax split and the balance tolerance
    (internal/accounting/service.go). Every amount is counted in cents: a `real` is an
    exact value in the middle of a computation, an `int` is a stored two-decimal one. */
module Money {
  import opened Prelude

  datatype NormalBalance = DebitNormal | CreditNormal

  const PPN_RATE: real := 0.11

  /** The nearest whole cent, ties going to the even neighbour, as "%.2f" prints it. */
  function ToCents(x: real): (c: int)
    ensures x - 0.5 <= c as real <= x + 0.5
    ensures (c as real == x - 0.5 || c as real == x + 0.5) ==> c % 2 == 0
  {
    var low := x.Floor;
    var part := x - low as real;
    if part < 0.5 || (part == 0.5 && low % 2 == 0) then low else low + 1
  }

  /** The nearest whole cent, ties going away from zero, as a NUMERIC(15,2) column keeps it. */
  function ToColumn(x: real): (c: int)
    requires x >= 0.0
    ensures x - 0.5 < c as real <= x + 0.5
  {
    (x + 0.5).Floor
  }

  lemma ToCentsUnique(x: real, c: int)
    requires x - 0.5 < c as real < x + 0.5
    ensures ToCents(x) == c
  {
    var d := ToCents(x);
    assert -1.0 < (d - c) as real < 1.0;
  }

  predicate HalfCent(x: real) {
    x - x.Floor as real == 0.5
  }

  /** The base and the tax of a total; inclusive totals already hold the tax. */
  function SplitTax(total: real, rate: real, inclusive: bool): (r: (real, real))
    requires rate > 0.0
    ensures inclusive ==> r.0 + r.1 == total && r.1 == r.0 * rate
    ensures !inclusive ==> r.0 == total && r.1 == total * rate
  {
    if inclusive then
      var base := total / (1.0 + rate);
      assert base * (1.0 + rate) == total;
      (base, total - base)
    else
      (total, total * rate)
  }

  /** The workspace's rate when its tax profile has a positive one, otherwise 11%. */
  function EffectiveRate(profile: Option<real>): (rate: real)
    ensures rate > 0.0
    ensures rate == PPN_RATE || profile == Some(rate)
    ensures profile.Some? && profile.value > 0.0 ==> rate == profile.value
  {
    match profile
    case Some(r) => if r <= 0.0 then PPN_RATE else r
    case None => PPN_RATE
  }

  /** Rounding the two parts of any inclusive total separately misses the rounded total by
      at most one cent. */
  lemma SplitWithinOneCent(total: real, rate: real)
    requires rate > 0.0
    ensures var (base, tax) := SplitTax(total, rate, true);
            -1 <= ToCents(base) + ToCents(tax) - ToCents(total) <= 1
  {
    var (base, tax) := SplitTax(total, rate, true);
    var gap := ToCents(base) + ToCents(tax) - ToCents(total);
    assert -1.5 <= gap as real <= 1.5;
  }

  /** For a total of whole cents the two rounded parts add up exactly, except when the base
      falls on a half cent of an odd total. The tie case is meant for halves that a binary
      fraction holds exactly, such as 12.5 cents; others print to whichever side they lie. */
  lemma SplitExactIff(total: int, rate: real)
    requires rate > 0.0
    ensures var (base, tax) := SplitTax(total as real, rate, true);
            ToCents(base) + ToCents(tax) == total <==> !HalfCent(base) || total % 2 == 0
  {
    var (base, tax) := SplitTax(total as real, rate, true);
    var low := base.Floor;
    var part := base - low as real;
    if part < 0.5 {
      ToCentsUnique(base, low);
      ToCentsUnique(tax, total - low);
    } else if part > 0.5 {
      ToCentsUnique(base, low + 1);
      ToCentsUnique(tax, total - low - 1);
    } else {
      TieSplit(base, tax, low, total);
    }
  }

  lemma TieSplit(base: real, tax: real, low: int, total: int)
    requires base == low as real + 0.5 && tax == (total - low - 1) as real + 0.5
    ensures ToCents(base) + ToCents(tax) == total <==> total % 2 == 0
  {
    TieIsEven(base, low);
    TieIsEven(tax, total - low - 1);
  }

  lemma TieIsEven(x: real, low: int)
    requires x == low as real + 0.5
    ensures ToCents(x) % 2 == 0 && low <= ToCents(x) <= low + 1
  {
    assert low as real <= ToCents(x) as real <= (low + 1) as real;
  }

  lemma OddIsNotEven(low: int, total: int)
    ensures (low as real + 0.5) * 1.11 != total as real
  {
    assert 222 * low + 111 != 200 * total;
    assert 200.0 * ((low as real + 0.5) * 1.11) == (222 * low + 111) as real;
  }

  /** At 11% no base of a whole-cent total falls on a half cent, so the parts always add up. */
  lemma SplitExactAtPpnRate(total: int)
    ensures var (base, tax) := SplitTax(total as real, PPN_RATE, true);
            ToCents(base) + ToCents(tax) == total
  {
    var (base, tax) := SplitTax(total as real, PPN_RATE, true);
    assert base * 1.11 == total as real;
    if HalfCent(base) {
      OddIsNotEven(base.Floor, total);
      assert false;
    }
    SplitExactIff(total, PPN_RATE);
  }

  /** At a rate of 100% a total of 0.25 splits into two parts of 0.125, which binary fractions
      hold exactly; each prints as 0.12, so a cent is gone. */
  lemma SplitCanLoseACent()
    ensures var (base, tax) := SplitTax(25.0, 1.0, true);
            ToCents(base) == 12 && ToCents(tax) == 12
  {
    TieIsEven(12.5, 12);
  }

  /** The one-cent tolerance on a debit and a credit total. */
  predicate BalancesEqual(debit: int, credit: int) {
    -1 <= debit - credit <= 1
  }

  function ApplyNormal(current: int, debit: int, credit: int, normal: NormalBalance): int {
    if normal == CreditNormal then current + credit - debit else current + debit - credit
  }

  /** What a line adds to the stored balance of an account. */
  function Signed(debit: int, credit: int, normal: NormalBalance): int {
    ApplyNormal(0, debit, credit, normal)
  }

  function SignOf(normal: NormalBalance): int {
    if normal == CreditNormal then -1 else 1
  }

  /** Stored balances carry the sign of the account's normal side. */
  lemma SignedIsDebitMinusCredit(debit: int, credit: int, normal: NormalBalance)
    ensures Signed(debit, credit, normal) == SignOf(normal) * (debit - credit)
  {
  }

  lemma SignAdds(normal: NormalBalance, x: int, y: int)
    ensures SignOf(normal) * (x + y) == SignOf(normal) * x + SignOf(normal) * y
    ensures SignOf(normal) * x == 0 <==> x == 0
  {
  }
}
