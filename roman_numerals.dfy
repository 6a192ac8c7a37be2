/**
 * `romanize`, the planet-name suffix: a greedy loop over a descending table of
 * Roman symbols, and the standard value of a Roman numeral, which it inverts.
 */
module RomanNumerals {

  /** The number of rows of the symbol table. */
  const ROWS: nat := 13

  /** The symbols in the order `Object.keys` visits them. */
  const SYMBOLS: seq<string> := ["M", "CM", "D", "CD", "C", "XC", "L", "XL", "X", "IX", "V", "IV", "I"]

  /** The value of each symbol. */
  const WEIGHTS: seq<nat> := [1000, 900, 500, 400, 100, 90, 50, 40, 10, 9, 5, 4, 1]

  function Symbol(k: nat): string
    requires k < ROWS
  {
    SYMBOLS[k]
  }

  function Weight(k: nat): nat
    requires k < ROWS
  {
    WEIGHTS[k]
  }

  /** The value of a single Roman digit (0 for any other character). */
  function DigitValue(c: char): nat {
    match c
    case 'M' => 1000
    case 'D' => 500
    case 'C' => 100
    case 'L' => 50
    case 'X' => 10
    case 'V' => 5
    case 'I' => 1
    case _ => 0
  }

  /**
   * The value of a numeral: a digit followed by a larger one is subtracted,
   * every other digit is added.
   */
  function Value(s: string): int {
    if |s| == 0 then 0
    else if |s| == 1 then DigitValue(s[0])
    else (if DigitValue(s[0]) < DigitValue(s[1]) then -(DigitValue(s[0]) as int) else DigitValue(s[0]) as int) + Value(s[1..])
  }

  /** `s.repeat(q)`. */
  function Repeat(s: string, q: nat): string {
    if q == 0 then "" else s + Repeat(s, q - 1)
  }

  /**
   * The numeral the greedy scan produces from table row `k` on, for the
   * remainder `n`: the row's symbol as long as its value fits, then the next row.
   */
  function Greedy(n: nat, k: nat): string
    requires k <= ROWS
    decreases ROWS - k, n
  {
    if k == ROWS then ""
    else if n >= Weight(k) then Symbol(k) + Greedy(n - Weight(k), k)
    else Greedy(n, k + 1)
  }

  /** `romanize(num)`: for each symbol, append it `floor(num / value)` times and subtract that much. */
  method Romanize(num: nat) returns (str: string)
    ensures str == Greedy(num, 0)
    ensures Value(str) == num
  {
    str := "";
    var n: nat := num;
    var k := 0;
    while k < ROWS
      invariant 0 <= k <= ROWS
      invariant str + Greedy(n, k) == Greedy(num, 0)
    {
      WeightPositive(k);
      var q := n / Weight(k);
      DivCount(n, Weight(k));
      GreedyRow(n, k);
      AppendAssoc(str, Repeat(Symbol(k), q), Greedy(n - q * Weight(k), k + 1));
      n := n - q * Weight(k);
      str := str + Repeat(Symbol(k), q);
      k := k + 1;
    }
    assert str == Greedy(num, 0);
    RoundTrip(num);
  }

  lemma WeightPositive(k: nat)
    requires k < ROWS
    ensures Weight(k) > 0
  {
  }

  lemma AppendAssoc(a: string, b: string, c: string)
    ensures a + (b + c) == (a + b) + c
  {
  }

  /** How many times `w` can be taken from `n`, by repeated subtraction. */
  function Count(n: nat, w: nat): nat
    requires w > 0
    decreases n
  {
    if n >= w then 1 + Count(n - w, w) else 0
  }

  /** What is left of `n` after taking `w` from it as often as possible. */
  function Rem(n: nat, w: nat): nat
    requires w > 0
    decreases n
  {
    if n >= w then Rem(n - w, w) else n
  }

  lemma MulAtLeast(x: int, w: int)
    requires x >= 1 && w > 0
    ensures x * w >= w
  {
    assert x * w == (x - 1) * w + w;
    assert (x - 1) * w >= 0;
  }

  /** Division is determined by a quotient and a remainder in range. */
  lemma DivUnique(a: int, w: int, q: int, r: int)
    requires w > 0 && a == q * w + r && 0 <= r < w
    ensures a / w == q
  {
    var q' := a / w;
    var r' := a % w;
    assert a == q' * w + r';
    if q' > q {
      assert (q' - q) * w == q' * w - q * w;
      MulAtLeast(q' - q, w);
    } else if q' < q {
      assert (q - q') * w == q * w - q' * w;
      MulAtLeast(q - q', w);
    }
  }

  /** Taking `q = n / w` copies of a value `w` leaves a non-negative remainder, one fewer copy after one. */
  lemma Quotient(n: nat, w: nat, q: nat)
    requires w > 0 && q == n / w
    ensures 0 <= n - q * w < w
    ensures q > 0 ==> n >= w && (n - w) / w == q - 1 && n - q * w == (n - w) - (q - 1) * w
    ensures q == 0 ==> n < w
  {
    assert n == q * w + n % w;
    if q > 0 {
      MulAtLeast(q, w);
      assert n - w == (q - 1) * w + n % w;
      DivUnique(n - w, w, q - 1, n % w);
    }
  }

  /** The loop's `floor(n / w)` and `n - floor(n / w)·w` are the count and remainder of repeated subtraction. */
  lemma {:induction false} DivCount(n: nat, w: nat)
    requires w > 0
    ensures n / w == Count(n, w)
    ensures n - (n / w) * w == Rem(n, w)
    decreases n
  {
    Quotient(n, w, n / w);
    if n >= w {
      DivCount(n - w, w);
    } else {
      DivUnique(n, w, 0, n);
    }
  }

  /** One pass of the loop: row `k`'s symbol as often as its value fits, then the greedy numeral of what is left. */
  lemma {:induction false} GreedyRow(n: nat, k: nat)
    requires k < ROWS
    ensures Weight(k) > 0
    ensures Greedy(n, k) == Repeat(Symbol(k), Count(n, Weight(k))) + Greedy(Rem(n, Weight(k)), k + 1)
    decreases n
  {
    WeightPositive(k);
    var w, sym := Weight(k), Symbol(k);
    if n >= w {
      GreedyRow(n - w, k);
      assert Greedy(n, k) == sym + Greedy(n - w, k);
      assert Repeat(sym, Count(n, w)) == sym + Repeat(sym, Count(n - w, w));
      assert Rem(n, w) == Rem(n - w, w);
      AppendAssoc(sym, Repeat(sym, Count(n - w, w)), Greedy(Rem(n - w, w), k + 1));
    } else {
      assert Greedy(n, k) == Greedy(n, k + 1);
      assert Count(n, w) == 0 && Rem(n, w) == n;
    }
  }

  // ----- The round trip -----

  function FirstValue(s: string): nat {
    if |s| == 0 then 0 else DigitValue(s[0])
  }

  function LastValue(s: string): nat {
    if |s| == 0 then 0 else DigitValue(s[|s| - 1])
  }

  /** Joining two numerals adds their values when the join does not put a smaller digit before a larger one. */
  lemma {:induction false} ValueConcat(x: string, y: string)
    requires |x| == 0 || |y| == 0 || LastValue(x) >= FirstValue(y)
    ensures Value(x + y) == Value(x) + Value(y)
    decreases |x|
  {
    if |x| == 0 {
      assert x + y == y;
    } else if |y| == 0 {
      assert x + y == x;
    } else if |x| == 1 {
      assert (x + y)[1..] == y;
    } else {
      ValueConcat(x[1..], y);
      assert (x + y)[1..] == x[1..] + y;
      assert (x + y)[0] == x[0] && (x + y)[1] == x[1];
    }
  }

  /** The bound below which the greedy scan from row `k` is exact (row 0 has none). */
  function Bound(k: nat): nat
    requires 1 <= k <= ROWS
  {
    Weight(k - 1)
  }

  /** What the proof needs to know about each table row. */
  lemma RowFacts(k: nat)
    requires k < ROWS
    ensures Weight(k) > 0
    ensures Value(Symbol(k)) == Weight(k) as int
    ensures 1 <= |Symbol(k)| <= 2
    ensures FirstValue(Symbol(k)) <= Weight(k)
    ensures LastValue(Symbol(k)) >= Weight(k)
    ensures k >= 1 ==> Bound(k) > Weight(k)
    ensures k >= 1 && |Symbol(k)| == 2 ==> Bound(k) < 2 * Weight(k)
    ensures k >= 1 && |Symbol(k)| == 1 ==>
      forall d: nat :: IsDigitValue(d) && d < Bound(k) - Weight(k) ==> d <= LastValue(Symbol(k))
    ensures k == 0 ==> LastValue(Symbol(k)) == 1000
  {
  }

  /** The values a Roman digit can have (0 stands for no digit). */
  predicate IsDigitValue(d: nat) {
    d == 0 || d == 1 || d == 5 || d == 10 || d == 50 || d == 100 || d == 500 || d == 1000
  }

  lemma FirstValueIsDigit(s: string)
    ensures IsDigitValue(FirstValue(s))
  {
  }

  /** From row `k` on, for a remainder below the row's bound, the greedy numeral has value `n`. */
  lemma {:induction false} GreedyExact(n: nat, k: nat)
    requires k <= ROWS
    requires k == 0 || n < Bound(k)
    ensures Value(Greedy(n, k)) == n
    ensures FirstValue(Greedy(n, k)) <= n
    decreases ROWS - k, n
  {
    if k < ROWS {
      RowFacts(k);
      if n >= Weight(k) {
        var rest := Greedy(n - Weight(k), k);
        GreedyExact(n - Weight(k), k);
        FirstValueIsDigit(rest);
        assert LastValue(Symbol(k)) >= FirstValue(rest);
        ValueConcat(Symbol(k), rest);
        assert FirstValue(Symbol(k) + rest) == FirstValue(Symbol(k));
      } else {
        GreedyExact(n, k + 1);
      }
    }
  }

  /** `romanize` inverts the numeral value. */
  lemma RoundTrip(num: nat)
    ensures Value(Greedy(num, 0)) == num
  {
    GreedyExact(num, 0);
  }

  /** `romanize(0)` is the empty string. */
  lemma {:induction false} ZeroIsEmpty(k: nat)
    requires k <= ROWS
    ensures Greedy(0, k) == ""
    decreases ROWS - k
  {
    if k < ROWS {
      RowFacts(k);
      ZeroIsEmpty(k + 1);
    }
  }
}
