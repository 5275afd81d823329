# Account ledger core, in Dafny

This project models the core of a single-account balance manager: a Node.js
port of a COBOL program that keeps one balance, in cents, starting at
1000.00.

- `DataLayer` owns the balance. It reads it, overwrites it, and formats a
  balance as `DDDDDD.CC`.
- `Operations` holds a reference to a `DataLayer`. It shows the balance,
  credits an amount, and debits an amount with overdraft protection.

The model keeps the source's shape:

- `Accounting.DataLayer` and `Accounting.Operations` are Dafny classes.
  - Their methods read and write the one mutable field, `storageBalance`.
  - `Operations.dataLayer` is a reference, so two `Operations` objects
    built over one `DataLayer` share its balance.
- The balance and the amounts are unbounded integers of cents.
- `FormatBalance` is a pure function. It is written with the JavaScript
  built-ins it uses, which are modelled in module `Decimal`:
  - `String(i)` is `IntString`;
  - `s.padStart(w, '0')` is `PadStart`;
  - the truncating `%` is `TruncRem`;
  - `Math.floor(n / 100)` is Dafny's `/`, which rounds down for a
    positive divisor.
- `ParseBalance` reads a display string back into cents. It exists only to
  state the round trip; it is not part of the program.
- `Step` and `Replay` are a reference definition of a session of credits
  and debits. `CreditAccount` and `DebitAccount` are proved to move the
  balance exactly as `Step` does, and properties of whole sessions are
  proved about `Replay`.
- Module `LedgerScenarios` restates a selection of the program's unit
  tests as methods over fresh objects. Each method's contract gives the
  balances, outcomes and display strings that test expects. The other
  tests are instances of the `CreditAccount`, `DebitAccount` and
  `FormatBalance` contracts.

## Model

| member | source | states |
|---|---|---|
| Accounting.DataLayer.constructor | src/accounting/index.js:20-23 | a new data layer holds the opening balance of 1000.00, i.e. 100000 cents |
| Accounting.DataLayer.Read | src/accounting/index.js:29-31 | returns the stored balance and changes nothing (no modifies clause) |
| Accounting.DataLayer.Write | src/accounting/index.js:37-39 | the stored balance becomes the given value, unvalidated, and nothing else changes |
| Accounting.FormatBalance | src/accounting/index.js:46-50 | the display built as the source builds it, from `String`, `padStart` and the truncating `%` (IntString, PadStart, TruncRem), for any integer balance; it is at least nine characters long |
| Accounting.FormatBalanceSplit | src/accounting/index.js:46-50 | for a non-negative balance the display is floor(n/100) zero-padded to six characters, a point, then exactly two characters: the tens digit and the units digit of n mod 100 |
| Accounting.FormatBalanceCents | src/accounting/index.js:46-50 | the point is third from the end, followed by the tens digit and then the units digit of the cents |
| Accounting.FormatBalanceDollars | src/accounting/index.js:46-50 | everything before the point is decimal digits reading as the whole units floor(n/100) |
| Accounting.FormatBalanceWidth | src/accounting/index.js:46-50 | the display is nine characters exactly when the balance is below 1000000.00; a wider display has no leading padding zero |
| Accounting.FormatBalanceFixedWidth | src/accounting/index.js:46-50 | below 1000000.00 the display is exactly the six-digit whole-units field, a point, and the two-digit cents field |
| Accounting.FormatBalanceRoundTrip | src/accounting/index.js:46-50 | reading the display of any non-negative balance back gives that balance |
| Accounting.FormatBalanceInjective | src/accounting/index.js:46-50 | two balances with the same display are equal |
| Accounting.FormatBalanceNegative | src/accounting/index.js:46-50 | a negative balance is shown with a minus sign inside the whole-units field, so its display never has the digits-point-two-digits form |
| Accounting.Operations.constructor | src/accounting/index.js:58-60 | the operations object refers to the given data layer, which it shares and does not copy |
| Accounting.Operations.ViewBalance | src/accounting/index.js:65-69 | the text shown is the formatted stored balance, and the balance is not changed (no modifies clause) |
| Accounting.Operations.CreditAccount | src/accounting/index.js:75-88 | the new balance is the old balance plus the amount; a non-negative credit keeps a non-negative balance non-negative and moves it as Step does |
| Accounting.Operations.DebitAccount | src/accounting/index.js:96-117 | answers true exactly when the old balance covers the amount; on true the amount is subtracted, on false the balance is unchanged; the result is never a new negative balance; a non-negative debit moves the balance as Step does |
| Accounting.ReplayNonNegative | src/accounting/index.js:96-117 | overdraft protection over any session: from a non-negative balance, any sequence of credits and debits leaves it non-negative |
| Accounting.ReplayBounds | src/accounting/index.js:75-117 | over a session the balance rises by at most the sum of the credits and falls by at most the sum of the debits |
| Accounting.ReplayAppend | src/accounting/index.js:75-117 | serving two sessions one after the other is serving their concatenation |
| Decimal.DigitsRoundTrip | src/accounting/index.js:49 | the decimal digits of n read back as n |
| Decimal.DigitsFit | src/accounting/index.js:49 | the decimal text of n fits in k characters exactly when n < 10^k |
| Decimal.ZeroPadPreservesValue | src/accounting/index.js:49 | zero-padding keeps the text all digits and keeps its value |
| Decimal.ZeroPaddedIsFixed | src/accounting/index.js:49 | a number below 10^k, zero-padded to k characters, is exactly its k-digit fixed-width field |
| Decimal.TwoDigits | src/accounting/index.js:49 | a number below 100 padded to two characters is its tens digit then its units digit |
| LedgerScenarios.InitialBalanceScenario | src/accounting/test/index.test.js:12-24 | a fresh ledger reads 100000 and displays `001000.00` |
| LedgerScenarios.WriteReadScenario | src/accounting/test/index.test.js:50-54 | a read after a write returns the written value, for every value |
| LedgerScenarios.OverwriteScenario | src/accounting/test/index.test.js:56-61 | a second write replaces the first |
| LedgerScenarios.ViewTwiceScenario | src/accounting/test/index.test.js:66-79 | viewing twice shows the same text and leaves the balance at 1000.00 |
| LedgerScenarios.LargeCreditScenario | src/accounting/test/index.test.js:101-108 | crediting 99999.99 gives 10099999 cents, displayed `100999.99` |
| LedgerScenarios.ZeroAmountScenario | src/accounting/test/index.test.js:143-150 | a zero credit and a zero debit leave the balance unchanged, and the zero debit is accepted |
| LedgerScenarios.DepleteScenario | src/accounting/test/index.test.js:175-183 | debiting the whole balance succeeds, leaves 0 and shows `000000.00`; a further one-cent debit is refused |
| LedgerScenarios.BoundaryDebitScenario | src/accounting/test/index.test.js:251-261 | debiting 499.99 from 500.00 succeeds, leaves 1 cent and shows `000000.01` |
| LedgerScenarios.RefusedThenAcceptedScenario | src/accounting/test/index.test.js:275-289 | a refused debit leaves 100.00 in place, and a later 50.00 debit through a second operations object over the same data layer leaves 50.00 |
| LedgerScenarios.CompoundScenario | src/accounting/test/index.test.js:356-372 | credit 250.75, debit 123.45 (accepted), credit 99.99 passes through 125075 and 112730 and ends at 122729 cents, as Replay computes, displayed `001227.29` |

## Left out

- The menu system, `main` and the readline prompt loop (`MenuSystem`): these are console I/O.
- `parseAmount`: it converts typed decimal text to cents through floating point (`parseFloat`, `Math.round`). The model takes amounts already in cents.
- The menu-choice check (1 to 4): this is input handling in the menu.
- The `console.log` messages of `viewBalance`, `creditAccount` and `debitAccount`. Instead, `ViewBalance` returns the text it would print after `Current balance: `.
- JavaScript numbers are doubles, and the model uses unbounded integers. Not modelled:
  - loss of precision above 2^53 cents;
  - the floating-point division inside `Math.floor(n / 100)`;
  - exponent notation in `String(n)` at 10^21 and beyond.
- Non-integer balances: `Write` accepts any number in the source, but the model's balance is an integer.
- `FormatBalance` is a module-level function rather than a `DataLayer` method, because it reads no field of the data layer.
