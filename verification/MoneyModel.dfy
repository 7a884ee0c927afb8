/**
  Money over 64-bit minor units. Go's int64 arithmetic wraps silently, so every sum
  and product is followed by an explicit Wrap.
 */
module MoneyModel {
  import opened Results

  const TWO_63: int := 0x8000_0000_0000_0000
  const TWO_64: int := 0x1_0000_0000_0000_0000
  const DEFAULT_CURRENCY: string := "USD"

  /** The value an int64 holds after an operation whose exact result is x. */
  function Wrap(x: int): int
  {
    (x + TWO_63) % TWO_64 - TWO_63
  }

  datatype Money = Money(amount: int, currency: string) {

    predicate IsZero() {
      amount == 0
    }

    function Add(other: Money): Result<Money>
    {
      if currency != other.currency then Err(Validation)
      else Ok(Money(Wrap(amount + other.amount), currency))
    }

    function Mul(quantity: int): Money
    {
      Money(Wrap(amount * quantity), currency)
    }
  }

  function NewMoney(amount: int, currency: string): Result<Money>
  {
    if amount < 0 || |currency| != 3 then Err(Validation) else Ok(Money(amount, currency))
  }

  /** Wrapping is a residue: it stays in range, changes nothing in range, and ignores multiples of 2^64. */
  lemma WrapIsResidue(x: int, k: int)
    ensures -TWO_63 <= Wrap(x) < TWO_63
    ensures -TWO_63 <= x < TWO_63 ==> Wrap(x) == x
    ensures Wrap(x + k * TWO_64) == Wrap(x)
    ensures (Wrap(x) - x) % TWO_64 == 0
  {
    var q := (x + TWO_63) / TWO_64;
    assert x + TWO_63 == q * TWO_64 + (x + TWO_63) % TWO_64;
    assert x + k * TWO_64 + TWO_63 == (q + k) * TWO_64 + (x + TWO_63) % TWO_64;
    assert Wrap(x) - x == -q * TWO_64;
  }

  /** Sums and products are those of arithmetic modulo 2^64, so exact whenever they fit; currencies do not mix. */
  lemma ArithmeticIsExact(a: Money, b: Money, quantity: int)
    ensures a.Add(b).Err? <==> a.currency != b.currency
    ensures a.Add(b).Err? ==> a.Add(b).error == Validation
    ensures a.Add(b).Ok? ==>
              a.Add(b).value.currency == a.currency && (a.Add(b).value.amount - a.amount - b.amount) % TWO_64 == 0
    ensures a.Add(b).Ok? && -TWO_63 <= a.amount + b.amount < TWO_63 ==> a.Add(b).value.amount == a.amount + b.amount
    ensures a.Mul(quantity).currency == a.currency && (a.Mul(quantity).amount - a.amount * quantity) % TWO_64 == 0
    ensures -TWO_63 <= a.amount * quantity < TWO_63 ==> a.Mul(quantity).amount == a.amount * quantity
  {
    WrapIsResidue(a.amount + b.amount, 0);
    WrapIsResidue(a.amount * quantity, 0);
  }

  /** Wrapping the operands first does not change a wrapped sum. */
  lemma WrapSum(x: int, y: int)
    ensures Wrap(Wrap(x) + Wrap(y)) == Wrap(x + y)
  {
    var p, q := (x + TWO_63) / TWO_64, (y + TWO_63) / TWO_64;
    assert Wrap(x) == x - p * TWO_64;
    assert Wrap(y) == y - q * TWO_64;
    assert Wrap(x) + Wrap(y) == (x + y) + (-p - q) * TWO_64;
    WrapIsResidue(x + y, -p - q);
  }
}
