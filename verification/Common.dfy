/** Small value types shared by every module. */
module Common {

  newtype byte = x: int | 0 <= x < 256

  type Bytes = seq<byte>

  datatype Option<+T> = None | Some(value: T)

  datatype Result<+T, +E> = Ok(value: T) | Err(error: E)

  function Min(a: nat, b: nat): nat {
    if a <= b then a else b
  }

  function Max(a: nat, b: nat): nat {
    if a >= b then a else b
  }

  /** The elements of a sequence, as a set. */
  function Elements<T>(s: seq<T>): set<T> {
    set x | x in s
  }

  predicate Distinct<T(==)>(s: seq<T>) {
    forall i, j :: 0 <= i < j < |s| ==> s[i] != s[j]
  }

  function Digit(n: nat): char
    requires n < 10
  {
    '0' + n as char
  }

  /** A number in decimal, without leading zeros. */
  function Decimal(n: nat): string {
    if n < 10 then [Digit(n)] else Decimal(n / 10) + [Digit(n % 10)]
  }

  predicate IsDigit(c: char) {
    '0' <= c <= '9'
  }

  lemma {:induction false} DecimalDigits(n: nat)
    ensures Decimal(n) != "" && forall i :: 0 <= i < |Decimal(n)| ==> IsDigit(Decimal(n)[i])
  {
    if n >= 10 {
      DecimalDigits(n / 10);
    }
  }

  /** Different numbers are written differently. */
  lemma {:induction false} DecimalInjective(a: nat, b: nat)
    requires Decimal(a) == Decimal(b)
    ensures a == b
  {
    DecimalDigits(a / 10);
    DecimalDigits(b / 10);
    if a >= 10 && b >= 10 {
      var x, y := Decimal(a / 10), Decimal(b / 10);
      assert Decimal(a)[..|x|] == x && Decimal(b)[..|y|] == y;
      assert |Decimal(a)| == |x| + 1 && |Decimal(b)| == |y| + 1;
      DecimalInjective(a / 10, b / 10);
      assert Decimal(a)[|x|] == Digit(a % 10) && Decimal(b)[|y|] == Digit(b % 10);
    }
  }

  function PowerOfTen(n: nat): nat {
    if n == 0 then 1 else 10 * PowerOfTen(n - 1)
  }

  /** A number has at most `n` digits exactly when it is below the power of ten. */
  lemma {:induction false} DecimalLength(k: nat, n: nat)
    requires n >= 1
    ensures |Decimal(k)| <= n <==> k < PowerOfTen(n)
  {
    if n == 1 {
      DecimalDigits(k / 10);
      assert PowerOfTen(1) == 10 * PowerOfTen(0);
    } else if k >= 10 {
      DecimalLength(k / 10, n - 1);
    } else {
      assert PowerOfTen(n) == 10 * PowerOfTen(n - 1);
      PowerPositive(n - 1);
    }
  }

  lemma {:induction false} PowerPositive(n: nat)
    ensures PowerOfTen(n) >= 1
  {
    if n > 0 {
      PowerPositive(n - 1);
    }
  }

  lemma {:induction false} SubsetCardinality<T>(a: set<T>, b: set<T>)
    requires a <= b
    ensures |a| <= |b|
  {
    if a != {} {
      var x :| x in a;
      SubsetCardinality(a - {x}, b - {x});
    }
  }
}
