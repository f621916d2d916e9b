/** Ether denominations and the exact conversion of a decimal amount into wei,
    the smallest unit, as `toWei` is used by the request handler. */
module Units {
  import opened Outcomes

  /** The decimal number `mantissa / 10^places`, kept exactly. */
  datatype Decimal = Decimal(mantissa: nat, places: nat)

  /** The denominations the service names: 'wei', 'gwei' and 'ether'. */
  datatype Unit = Wei | Gwei | Ether

  /** How many decimal digits of wei one unit holds: 1 gwei is 10^9 wei,
      1 ether is 10^18 wei. */
  function Decimals(unit: Unit): nat {
    match unit
    case Wei => 0
    case Gwei => 9
    case Ether => 18
  }

  function Pow10(n: nat): (p: nat)
    ensures p >= 1
  {
    if n == 0 then 1 else 10 * Pow10(n - 1)
  }

  lemma {:induction false} Pow10Add(a: nat, b: nat)
    ensures Pow10(a + b) == Pow10(a) * Pow10(b)
  {
    if a > 0 {
      Pow10Add(a - 1, b);
      assert Pow10(a + b) == 10 * Pow10(a - 1 + b);
    }
  }

  /** True when the last `n` decimal digits of `m` are all zero. */
  predicate EndsInZeros(m: nat, n: nat) {
    n == 0 || (m % 10 == 0 && EndsInZeros(m / 10, n - 1))
  }

  /** `m` with its last `n` decimal digits dropped. */
  function DropDigits(m: nat, n: nat): nat {
    if n == 0 then m else DropDigits(m / 10, n - 1)
  }

  /** Dropping `n` zero digits divides exactly by 10^n. */
  lemma {:induction false} DropZeros(m: nat, n: nat)
    requires EndsInZeros(m, n)
    ensures DropDigits(m, n) * Pow10(n) == m
  {
    if n > 0 {
      DropZeros(m / 10, n - 1);
      assert DropDigits(m, n) * Pow10(n) == 10 * (DropDigits(m / 10, n - 1) * Pow10(n - 1));
    }
  }

  /** A multiple of 10^n ends in `n` zero digits. */
  lemma {:induction false} MultipleEndsInZeros(k: nat, n: nat)
    ensures EndsInZeros(k * Pow10(n), n)
  {
    if n > 0 {
      var m := k * Pow10(n);
      assert m == 10 * (k * Pow10(n - 1));
      MultipleEndsInZeros(k, n - 1);
    }
  }

  /** True when the amount has no non-zero digit below one wei of `unit`,
      i.e. when it is a whole number of wei. */
  predicate WholeWei(amount: Decimal, unit: Unit) {
    amount.places <= Decimals(unit)
    || EndsInZeros(amount.mantissa, amount.places - Decimals(unit))
  }

  /** `amount` given in `unit`, converted to wei. It succeeds precisely on
      whole numbers of wei (ToWeiExact says what it returns then); an amount
      that would need a fraction of a wei is refused with a ValueError. */
  function ToWei(amount: Decimal, unit: Unit): (r: Result<nat>)
    ensures r.Success? <==> WholeWei(amount, unit)
    ensures r.Failure? ==> r.error.ValueError?
  {
    var d, p := Decimals(unit), amount.places;
    if p <= d then
      Success(amount.mantissa * Pow10(d - p))
    else if EndsInZeros(amount.mantissa, p - d) then
      Success(DropDigits(amount.mantissa, p - d))
    else
      Failure(ValueError("amount is not a whole number of wei"))
  }

  /** The conversion is exact: the number of wei times 10^places equals the
      mantissa times 10^Decimals(unit), so the wei value is the amount's own
      value, with nothing rounded away. */
  lemma ToWeiExact(amount: Decimal, unit: Unit)
    requires WholeWei(amount, unit)
    ensures ToWei(amount, unit).value * Pow10(amount.places)
            == amount.mantissa * Pow10(Decimals(unit))
  {
    var d, p := Decimals(unit), amount.places;
    var wei := ToWei(amount, unit).value;
    if p <= d {
      Pow10Add(d - p, p);
      MulAssoc(amount.mantissa, Pow10(d - p), Pow10(p));
    } else {
      DropZeros(amount.mantissa, p - d);
      Pow10Add(p - d, d);
      MulAssoc(wei, Pow10(p - d), Pow10(d));
    }
  }

  lemma MulAssoc(a: nat, b: nat, c: nat)
    ensures a * (b * c) == (a * b) * c
  {
  }

  lemma CancelFactor(a: nat, b: nat, c: nat)
    requires c > 0 && a * c == b * c
    ensures a == b
  {
  }

  /** A refused amount has no exact wei value at all: the conversion never
      rounds, it fails only where rounding would be needed. */
  lemma RefusedMeansNotRepresentable(amount: Decimal, unit: Unit, wei: nat)
    requires ToWei(amount, unit).Failure?
    ensures wei * Pow10(amount.places) != amount.mantissa * Pow10(Decimals(unit))
  {
    var d, p := Decimals(unit), amount.places;
    if wei * Pow10(p) == amount.mantissa * Pow10(d) {
      Pow10Add(p - d, d);
      MulAssoc(wei, Pow10(p - d), Pow10(d));
      CancelFactor(wei * Pow10(p - d), amount.mantissa, Pow10(d));
      MultipleEndsInZeros(wei, p - d);
      assert false;
    }
  }

  /** The wei value of a whole number of wei is its value as a decimal,
      scaled to wei: `sum` ether is `sum * 10^18` wei, written here as
      mantissa · 10^Decimals(unit) / 10^places. */
  lemma ScaledByPowerOfTen(amount: Decimal, unit: Unit)
    requires WholeWei(amount, unit)
    ensures ToWei(amount, unit)
      == Success(amount.mantissa * Pow10(Decimals(unit)) / Pow10(amount.places))
  {
    ToWeiExact(amount, unit);
    DivCancel(ToWei(amount, unit).value, Pow10(amount.places));
  }

  lemma MulAtLeast(k: int, b: nat)
    requires k >= 1
    ensures k * b >= b
  {
  }

  lemma MulSub(a: int, q: int, b: int)
    ensures (a - q) * b == a * b - q * b
  {
  }

  /** Multiplying by `b` and then dividing by `b` gives the number back. */
  lemma DivCancel(a: nat, b: nat)
    requires b > 0
    ensures a * b / b == a
  {
    var x := a * b;
    var q, r := x / b, x % b;
    assert x == q * b + r && 0 <= r < b;
    MulSub(a, q, b);
    if q < a {
      MulAtLeast(a - q, b);
    } else if a < q {
      MulAtLeast(q - a, b);
      MulSub(q, a, b);
    }
  }

  /** One ether is 10^18 wei, one gwei 10^9 wei. */
  lemma WeiPerUnit()
    ensures Pow10(Decimals(Gwei)) == 1000000000
    ensures Pow10(Decimals(Ether)) == 1000000000000000000
  {
  }

  /** The wei value of an amount in wei is the amount itself: converting the
      number of wei back into a decimal of `unit` and then to wei is the
      identity. */
  lemma WeiRoundTrip(wei: nat, unit: Unit)
    ensures ToWei(Decimal(wei, Decimals(unit)), unit) == Success(wei)
  {
  }
}
