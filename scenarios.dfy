/** The ledger's own test scenarios, stated as clients of the data layer and
    operations contracts: each method drives fresh objects and promises the
    balances, outcomes and display strings the scenario expects. */
module LedgerScenarios {
  import opened Decimal
  import opened Accounting

  /** The display of a balance given as whole units and cents. */
  lemma DisplayOf(n: nat, dollars: nat, cents: nat)
    requires dollars < 1000000 && cents < 100 && n == dollars * 100 + cents
    ensures FormatBalance(n) == FixedDigits(dollars, 6) + "." + FixedDigits(cents, 2)
  {
    assert n / 100 == dollars && n % 100 == cents;
    FormatBalanceFixedWidth(n);
  }

  // The fixed-width fields of the balances the scenarios display.

  lemma InitialText()
    ensures FixedDigits(1000, 6) + "." + FixedDigits(0, 2) == "001000.00"
  {
    assert FixedDigits(1000, 6) == "001000";
    assert FixedDigits(0, 2) == "00";
  }

  lemma LargeCreditText()
    ensures FixedDigits(100999, 6) + "." + FixedDigits(99, 2) == "100999.99"
  {
    assert FixedDigits(100999, 6) == "100999";
    assert FixedDigits(99, 2) == "99";
  }

  lemma ZeroText()
    ensures FixedDigits(0, 6) + "." + FixedDigits(0, 2) == "000000.00"
  {
    assert FixedDigits(0, 6) == "000000";
    assert FixedDigits(0, 2) == "00";
  }

  lemma OneCentText()
    ensures FixedDigits(0, 6) + "." + FixedDigits(1, 2) == "000000.01"
  {
    assert FixedDigits(0, 6) == "000000";
    assert FixedDigits(1, 2) == "01";
  }

  lemma CompoundText()
    ensures FixedDigits(1227, 6) + "." + FixedDigits(29, 2) == "001227.29"
  {
    assert FixedDigits(1227, 6) == "001227";
    assert FixedDigits(29, 2) == "29";
  }

  /** A fresh ledger holds 1000.00 and shows it as `001000.00`. */
  method InitialBalanceScenario() returns (balance: int, shown: string)
    ensures balance == 100000
    ensures shown == "001000.00"
  {
    var dataLayer := new DataLayer();
    var operations := new Operations(dataLayer);
    balance := dataLayer.Read();
    shown := operations.ViewBalance();
    DisplayOf(dataLayer.storageBalance, 1000, 0);
    InitialText();
  }

  /** Whatever is written is what the next read returns. */
  method WriteReadScenario(written: int) returns (balance: int)
    ensures balance == written
  {
    var dataLayer := new DataLayer();
    dataLayer.Write(written);
    balance := dataLayer.Read();
  }

  /** A second write replaces the first. */
  method OverwriteScenario() returns (balance: int)
    ensures balance == 200000
  {
    var dataLayer := new DataLayer();
    dataLayer.Write(150000);
    dataLayer.Write(200000);
    balance := dataLayer.Read();
  }

  /** Viewing twice shows the same text and leaves the balance alone. */
  method ViewTwiceScenario() returns (first: string, second: string, balance: int)
    ensures first == second
    ensures balance == InitialBalance
  {
    var dataLayer := new DataLayer();
    var operations := new Operations(dataLayer);
    first := operations.ViewBalance();
    second := operations.ViewBalance();
    balance := dataLayer.Read();
  }

  /** Crediting 99999.99 reaches 100999.99, which still fits nine characters. */
  method LargeCreditScenario() returns (balance: int, shown: string)
    ensures balance == 10099999
    ensures shown == "100999.99"
  {
    var dataLayer := new DataLayer();
    var operations := new Operations(dataLayer);
    operations.CreditAccount(9999999);
    balance := dataLayer.Read();
    shown := operations.ViewBalance();
    DisplayOf(dataLayer.storageBalance, 100999, 99);
    LargeCreditText();
  }

  /** Crediting or debiting zero changes nothing; the zero debit succeeds. */
  method ZeroAmountScenario() returns (debited: bool, balance: int)
    ensures debited
    ensures balance == InitialBalance
  {
    var dataLayer := new DataLayer();
    var operations := new Operations(dataLayer);
    operations.CreditAccount(0);
    debited := operations.DebitAccount(0);
    balance := dataLayer.Read();
  }

  /** Debiting the whole balance succeeds and leaves `000000.00`; a further
      debit of one cent is refused. */
  method DepleteScenario() returns (whole: bool, depleted: int, more: bool, shown: string)
    ensures whole && !more
    ensures depleted == 0
    ensures shown == "000000.00"
  {
    var dataLayer := new DataLayer();
    var operations := new Operations(dataLayer);
    whole := operations.DebitAccount(100000);
    depleted := dataLayer.Read();
    more := operations.DebitAccount(1);
    shown := operations.ViewBalance();
    DisplayOf(dataLayer.storageBalance, 0, 0);
    ZeroText();
  }

  /** Debiting one cent short of the balance leaves `000000.01`. */
  method BoundaryDebitScenario() returns (debited: bool, balance: int, shown: string)
    ensures debited
    ensures balance == 1
    ensures shown == "000000.01"
  {
    var dataLayer := new DataLayer();
    dataLayer.Write(50000);
    var operations := new Operations(dataLayer);
    debited := operations.DebitAccount(49999);
    balance := dataLayer.Read();
    shown := operations.ViewBalance();
    DisplayOf(dataLayer.storageBalance, 0, 1);
    OneCentText();
  }

  /** A refused debit leaves the balance as it was, and a later debit that
      fits is accepted, here through a second operations object over the
      same data layer. */
  method RefusedThenAcceptedScenario() returns (first: bool, afterRefused: int, second: bool, balance: int)
    ensures !first && second
    ensures afterRefused == 10000
    ensures balance == 5000
  {
    var dataLayer := new DataLayer();
    dataLayer.Write(10000);
    var a := new Operations(dataLayer);
    var b := new Operations(dataLayer);
    first := a.DebitAccount(20000);
    afterRefused := dataLayer.Read();
    second := b.DebitAccount(5000);
    balance := dataLayer.Read();
  }

  lemma CompoundReplay()
    ensures Replay(InitialBalance, [Credit(25075), Debit(12345), Credit(9999)]) == 122729
  {
  }

  /** Credit 250.75, debit 123.45, credit 99.99: the balance passes through
      1250.75 and 1127.30, and the objects end where Replay says, at 1227.29. */
  method CompoundScenario() returns (afterCredit: int, debited: bool, afterDebit: int, balance: int, shown: string)
    ensures afterCredit == 125075
    ensures debited
    ensures afterDebit == 112730
    ensures balance == Replay(InitialBalance, [Credit(25075), Debit(12345), Credit(9999)])
    ensures balance == 122729
    ensures shown == "001227.29"
  {
    var dataLayer := new DataLayer();
    var operations := new Operations(dataLayer);
    operations.CreditAccount(25075);
    afterCredit := dataLayer.Read();
    debited := operations.DebitAccount(12345);
    afterDebit := dataLayer.Read();
    operations.CreditAccount(9999);
    balance := dataLayer.Read();
    shown := operations.ViewBalance();
    DisplayOf(dataLayer.storageBalance, 1227, 29);
    CompoundText();
    CompoundReplay();
  }
}
