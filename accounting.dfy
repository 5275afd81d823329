/** The single-account balance ledger: a data layer that owns the balance, in
    cents, and an operations layer that credits, debits with overdraft
    protection, and displays it through a reference to that data layer. */
module Accounting {
  import opened Decimal

  datatype Option<T> = None | Some(value: T)

  /** The opening balance, 1000.00, in cents. */
  const InitialBalance: int := 100000

  // ------------------------------------------------------------------
  // Data layer
  // ------------------------------------------------------------------

  /** Holds the balance in cents. The store itself does not validate what
      it is given; keeping it non-negative is the operations' job. */
  class DataLayer {
    var storageBalance: int

    constructor ()
      ensures storageBalance == InitialBalance
    {
      storageBalance := InitialBalance;
    }

    /** Returns the balance; changes nothing (no modifies clause). */
    method Read() returns (balance: int)
      ensures balance == storageBalance
    {
      balance := storageBalance;
    }

    /** Replaces the balance unconditionally. */
    method Write(balance: int)
      modifies this
      ensures storageBalance == balance
    {
      storageBalance := balance;
    }
  }

  /** The display form `DDDDDD.CC` of a balance in cents: whole units
      (floor of cents / 100) zero-padded to at least six digits, a point,
      then the remaining cents zero-padded to two digits. */
  function FormatBalance(balanceInCents: int): (r: string)
    ensures |r| >= 9
  {
    // Dafny's `/` with a positive divisor rounds down, as Math.floor does.
    var dollars := balanceInCents / 100;
    var cents := TruncRem(balanceInCents, 100);
    PadStart(IntString(dollars), 6, '0') + "." + PadStart(IntString(cents), 2, '0')
  }

  /** Reads a `D...D.CC` display string back into cents: None unless it is
      one or more digits, a point, and exactly two digits. */
  function ParseBalance(s: string): (balance: Option<nat>) {
    if |s| >= 4 && s[|s| - 3] == '.' then ReadFields(s[..|s| - 3], s[|s| - 2..]) else None
  }

  /** The whole-units and cents fields read together, if both are digits. */
  function ReadFields(whole: string, cents: string): (balance: Option<nat>) {
    if AllDigits(whole) && AllDigits(cents)
    then Some(ParseDigits(whole) * 100 + ParseDigits(cents))
    else None
  }

  /** The display string spelt out: the padded whole units, a point, and
      the two cent digits. */
  lemma FormatBalanceSplit(n: nat)
    ensures FormatBalance(n)
         == PadStart(Digits(n / 100), 6, '0') + "." + [DigitChar(n % 100 / 10), DigitChar(n % 10)]
  {
    CentsArithmetic(n);
    FormatBalanceOfNat(n);
    TwoDigits(n % 100);
  }

  /** For a non-negative balance, both fields are plain digit strings. */
  lemma FormatBalanceOfNat(n: nat)
    ensures FormatBalance(n) == PadStart(Digits(n / 100), 6, '0') + "." + PadStart(Digits(n % 100), 2, '0')
  {
    IntStringNat(n / 100);
    IntStringNat(n % 100);
    assert TruncRem(n, 100) == n % 100;
  }

  /** The cents are below 100, their units digit is the balance's, and
      whole units, tens and units of cents recombine to the balance. */
  lemma CentsArithmetic(n: nat)
    ensures n % 100 < 100 && n % 100 / 10 < 10
    ensures n % 100 % 10 == n % 10
    ensures n / 100 * 100 + (n % 100 / 10 * 10 + n % 10) == n
  {
    var q, r := n / 100, n % 100;
    var t, u := r / 10, r % 10;
    assert n == q * 100 + r;
    assert r == t * 10 + u;
    assert n == (q * 10 + t) * 10 + u;
    assert n % 10 == u;
  }

  /** The point is third from the end, and the last two characters are the
      tens and units digits of the cents. */
  lemma FormatBalanceCents(n: nat)
    ensures var r := FormatBalance(n);
      && r[|r| - 3] == '.'
      && r[|r| - 2] == DigitChar(n % 100 / 10)
      && r[|r| - 1] == DigitChar(n % 10)
  {
    CentsArithmetic(n);
    FormatBalanceSplit(n);
    PointLayout(FormatBalance(n), PadStart(Digits(n / 100), 6, '0'), DigitChar(n % 100 / 10), DigitChar(n % 10));
  }

  /** Everything before the point is decimal digits that read as the whole
      units, floor(n / 100). */
  lemma FormatBalanceDollars(n: nat)
    ensures WholeUnitsField(FormatBalance(n), n / 100)
  {
    CentsArithmetic(n);
    FormatBalanceSplit(n);
    DisplayWhole(FormatBalance(n), n / 100, DigitChar(n % 100 / 10), DigitChar(n % 10));
  }

  /** Everything but the last three characters of r is decimal digits that
      read as `dollars`. */
  predicate WholeUnitsField(r: string, dollars: nat) {
    |r| >= 3 && AllDigits(r[..|r| - 3]) && ParseDigits(r[..|r| - 3]) == dollars
  }

  /** In padded whole units, a point and two characters, everything before
      the point reads as the whole units. */
  lemma DisplayWhole(r: string, dollars: nat, tens: char, units: char)
    requires r == PadStart(Digits(dollars), 6, '0') + "." + [tens, units]
    ensures WholeUnitsField(r, dollars)
  {
    WholeUnitsValue(dollars);
    PointLayout(r, PadStart(Digits(dollars), 6, '0'), tens, units);
  }

  /** The zero-padded whole-units field reads back as the whole units. */
  lemma WholeUnitsValue(dollars: nat)
    ensures AllDigits(PadStart(Digits(dollars), 6, '0'))
    ensures ParseDigits(PadStart(Digits(dollars), 6, '0')) == dollars
  {
    ZeroPadPreservesValue(Digits(dollars), 6);
    DigitsRoundTrip(dollars);
  }

  lemma PointLayout(r: string, whole: string, tens: char, units: char)
    requires r == whole + "." + [tens, units]
    ensures r[|r| - 3] == '.' && r[|r| - 2] == tens && r[|r| - 1] == units && r[..|r| - 3] == whole
  {
  }

  /** What ParseBalance reads from digits, a point and two digits. */
  lemma ParseBalanceOf(whole: string, tens: char, units: char)
    requires |whole| >= 1 && AllDigits(whole) && IsDigit(tens) && IsDigit(units)
    ensures ParseBalance(whole + "." + [tens, units])
         == Some(ParseDigits(whole) * 100 + (DigitValue(tens) * 10 + DigitValue(units)))
  {
    FieldsOf(whole, tens, units);
    ReadTwoDigitFields(whole, tens, units);
  }

  lemma ReadTwoDigitFields(whole: string, tens: char, units: char)
    requires AllDigits(whole) && IsDigit(tens) && IsDigit(units)
    ensures ReadFields(whole, [tens, units])
         == Some(ParseDigits(whole) * 100 + (DigitValue(tens) * 10 + DigitValue(units)))
  {
    ParseTwoDigits(tens, units);
  }

  /** ParseBalance cuts digits, a point and two digits into those fields. */
  lemma FieldsOf(whole: string, tens: char, units: char)
    requires |whole| >= 1
    ensures ParseBalance(whole + "." + [tens, units]) == ReadFields(whole, [tens, units])
  {
    var r := whole + "." + [tens, units];
    PointLayout(r, whole, tens, units);
    assert r[|r| - 2..] == [tens, units];
  }

  /** The display string is nine characters wide exactly when the balance is
      below 999999.99 + 0.01, and wider ones carry no padding zero in front. */
  lemma FormatBalanceWidth(n: nat)
    ensures |FormatBalance(n)| == 9 <==> n < 100000000
    ensures |FormatBalance(n)| > 9 ==> FormatBalance(n)[0] != '0'
  {
    var d := Digits(n / 100);
    FormatBalanceSplit(n);
    var r := FormatBalance(n);
    assert |r| == |PadStart(d, 6, '0')| + 3;
    DigitsFit(n / 100, 6);
    assert Pow10(6) == 1000000;
    assert n / 100 < 1000000 <==> n < 100000000;
    if |r| > 9 {
      assert r[0] == d[0];
    }
  }

  /** Parsing the display string gives back the balance it was made from. */
  lemma FormatBalanceRoundTrip(n: nat)
    ensures ParseBalance(FormatBalance(n)) == Some(n)
  {
    FormatBalanceSplit(n);
    SplitRoundTrip(n, FormatBalance(n));
  }

  /** The spelt-out display of n (FormatBalanceSplit) reads back as n. */
  lemma SplitRoundTrip(n: nat, r: string)
    requires r == PadStart(Digits(n / 100), 6, '0') + "." + [DigitChar(n % 100 / 10), DigitChar(n % 10)]
    ensures ParseBalance(r) == Some(n)
  {
    CentsArithmetic(n);
    WholeUnitsValue(n / 100);
    ParseBalanceOf(PadStart(Digits(n / 100), 6, '0'), DigitChar(n % 100 / 10), DigitChar(n % 10));
  }

  /** A negative balance (which only a direct write can produce) is shown
      with a minus sign inside the whole-units field, so its display is not
      of the `D...D.CC` form and does not read back. */
  lemma FormatBalanceNegative(n: int)
    requires n < 0
    ensures ParseBalance(FormatBalance(n)) == None
  {
    var s := IntString(n / 100);
    IntStringSign(n / 100);
    var whole := PadStart(s, 6, '0');
    var r := FormatBalance(n);
    assert r == whole + "." + PadStart(IntString(TruncRem(n, 100)), 2, '0');
    var k := |whole| - |s|;
    assert whole[k] == '-' by {
      assert whole[k..][0] == s[0];
    }
    assert r[..|r| - 3][k] == '-';
  }

  /** Different balances are displayed differently. */
  lemma FormatBalanceInjective(m: nat, n: nat)
    requires FormatBalance(m) == FormatBalance(n)
    ensures m == n
  {
    FormatBalanceRoundTrip(m);
    FormatBalanceRoundTrip(n);
  }

  /** Below 1000000.00 the display is fixed-width: exactly six digits of
      whole units, a point, and exactly two digits of cents. */
  lemma FormatBalanceFixedWidth(n: nat)
    requires n < 100000000
    ensures FormatBalance(n) == FixedDigits(n / 100, 6) + "." + FixedDigits(n % 100, 2)
  {
    FormatBalanceOfNat(n);
    FieldsFixed(n / 100, n % 100);
  }

  /** Whole units below 10^6 and cents below 100 fill their padded fields
      exactly. */
  lemma FieldsFixed(dollars: nat, cents: nat)
    requires dollars < 1000000 && cents < 100
    ensures PadStart(Digits(dollars), 6, '0') + "." + PadStart(Digits(cents), 2, '0')
         == FixedDigits(dollars, 6) + "." + FixedDigits(cents, 2)
  {
    assert Pow10(2) == 100 && Pow10(6) == 1000000;
    ZeroPaddedIsFixed(dollars, 6);
    ZeroPaddedIsFixed(cents, 2);
  }

  // ------------------------------------------------------------------
  // Operations
  // ------------------------------------------------------------------

  /** Business operations over a data layer held by reference: every
      operation is one read-modify-write of that data layer's balance. */
  class Operations {
    const dataLayer: DataLayer

    constructor (dataLayer: DataLayer)
      ensures this.dataLayer == dataLayer
    {
      this.dataLayer := dataLayer;
    }

    /** The text shown for the current balance; changes nothing. */
    method ViewBalance() returns (display: string)
      ensures display == FormatBalance(dataLayer.storageBalance)
    {
      var balance := dataLayer.Read();
      display := FormatBalance(balance);
    }

    /** Adds the amount to the balance, with no upper bound. */
    method CreditAccount(amountInCents: int)
      modifies dataLayer
      ensures dataLayer.storageBalance == old(dataLayer.storageBalance) + amountInCents
      ensures old(dataLayer.storageBalance) >= 0 && amountInCents >= 0 ==> dataLayer.storageBalance >= 0
      ensures amountInCents >= 0 ==> dataLayer.storageBalance == Step(old(dataLayer.storageBalance), Credit(amountInCents))
    {
      var currentBalance := dataLayer.Read();
      var newBalance := currentBalance + amountInCents;
      dataLayer.Write(newBalance);
    }

    /** Overdraft protection: subtracts the amount and answers true when the
        balance covers it; otherwise leaves the balance as it was and answers
        false. */
    method DebitAccount(amountInCents: int) returns (success: bool)
      modifies dataLayer
      ensures success <==> old(dataLayer.storageBalance) >= amountInCents
      ensures success ==> dataLayer.storageBalance == old(dataLayer.storageBalance) - amountInCents
      ensures !success ==> dataLayer.storageBalance == old(dataLayer.storageBalance)
      ensures dataLayer.storageBalance >= 0 || dataLayer.storageBalance == old(dataLayer.storageBalance)
      ensures amountInCents >= 0 ==> dataLayer.storageBalance == Step(old(dataLayer.storageBalance), Debit(amountInCents))
    {
      var currentBalance := dataLayer.Read();
      if currentBalance >= amountInCents {
        var newBalance := currentBalance - amountInCents;
        dataLayer.Write(newBalance);
        success := true;
      } else {
        success := false;
      }
    }
  }

  // ------------------------------------------------------------------
  // Sequences of operations
  // ------------------------------------------------------------------

  /** One request from the calling shell, with an amount already converted
      to non-negative cents. */
  datatype Request = Credit(amount: nat) | Debit(amount: nat)

  /** The balance after one request, as CreditAccount and DebitAccount
      leave it. */
  function Step(balance: int, req: Request): (next: int) {
    match req
    case Credit(a) => balance + a
    case Debit(a) => if balance >= a then balance - a else balance
  }

  /** The balance after serving the requests in order. */
  function Replay(balance: int, reqs: seq<Request>): (final: int)
    decreases |reqs|
  {
    if reqs == [] then balance else Replay(Step(balance, reqs[0]), reqs[1..])
  }

  function TotalCredits(reqs: seq<Request>): (total: nat) {
    if reqs == [] then 0
    else (if reqs[0].Credit? then reqs[0].amount else 0) + TotalCredits(reqs[1..])
  }

  function TotalDebits(reqs: seq<Request>): (total: nat) {
    if reqs == [] then 0
    else (if reqs[0].Debit? then reqs[0].amount else 0) + TotalDebits(reqs[1..])
  }

  /** Serving two batches one after the other is serving their concatenation. */
  lemma {:induction false} ReplayAppend(balance: int, xs: seq<Request>, ys: seq<Request>)
    ensures Replay(balance, xs + ys) == Replay(Replay(balance, xs), ys)
    decreases |xs|
  {
    if xs == [] {
      assert xs + ys == ys;
    } else {
      assert (xs + ys)[1..] == xs[1..] + ys;
      ReplayAppend(Step(balance, xs[0]), xs[1..], ys);
    }
  }

  /** Overdraft protection over any session: a non-negative balance stays
      non-negative whatever requests are served. */
  lemma {:induction false} ReplayNonNegative(balance: int, reqs: seq<Request>)
    requires balance >= 0
    ensures Replay(balance, reqs) >= 0
    decreases |reqs|
  {
    if reqs != [] {
      ReplayNonNegative(Step(balance, reqs[0]), reqs[1..]);
    }
  }

  /** The balance moves only by the amounts requested: it rises by at most
      the credits and falls by at most the debits. */
  lemma {:induction false} ReplayBounds(balance: int, reqs: seq<Request>)
    ensures balance - TotalDebits(reqs) <= Replay(balance, reqs) <= balance + TotalCredits(reqs)
    decreases |reqs|
  {
    if reqs != [] {
      ReplayBounds(Step(balance, reqs[0]), reqs[1..]);
    }
  }
}
