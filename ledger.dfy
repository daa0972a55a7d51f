/**
 * The fee ledger's append rule, shared by the fee form (app.py) and the gateway webhook
 * (webhook_forwarder.py): a new row's `balanceAfter` is the student's latest balance (0.0
 * when the student has no row yet) minus the amount paid. The latest row of a student is the
 * last one appended for that student.
 */
module Ledger {
  import opened Wrappers
  import opened Models

  /** What a caller supplies for one payment; the ledger adds student, receipt id and balance. */
  datatype Payment = Payment(
    amount: real, mode: PaymentMode, transactionId: string, purpose: string, recordedBy: string)

  /**
   * The stored transaction id: the one supplied when it is non-empty, otherwise a generated
   * id (`txn or receipt_id` on the form, `... or gen_generic_id("TXN")` at the gateway).
   */
  function TransactionReference(supplied: string, generated: string): (t: string)
    ensures supplied != "" ==> t == supplied
    ensures supplied == "" ==> t == generated
  {
    if supplied != "" then supplied else generated
  }

  /** The row both payment paths insert for `owner`, before any receipt is attached. */
  function NextRow(fees: seq<Fee>, owner: Student, p: Payment, receiptId: string, now: nat)
    : (row: Fee)
    ensures row.balanceAfter == LatestBalance(fees, owner.key) - p.amount
    ensures row.studentKey == owner.key && row.name == owner.profile.name
    ensures row.receiptId == receiptId && row.amount == p.amount && row.paymentMode == p.mode
    ensures row.transactionId == p.transactionId && row.purpose == p.purpose
    ensures row.recordedBy == p.recordedBy && row.timestamp == now
    ensures row.invoicePath == None && row.notes == None
  {
    NewFee(receiptId, owner.key, owner.profile.name, p.amount, p.mode, p.transactionId,
           Some(LatestBalance(fees, owner.key) - p.amount), p.purpose, p.recordedBy, now)
  }

  /** Every row was appended by the rule: its balance is its student's previous balance minus its amount. */
  predicate AppendRule(fees: seq<Fee>)
    decreases |fees|
  {
    fees == []
    || (var front, last := fees[..|fees| - 1], fees[|fees| - 1];
        AppendRule(front) && last.balanceAfter == LatestBalance(front, last.studentKey) - last.amount)
  }

  /** The student's rows, in insertion order. */
  function RowsOf(fees: seq<Fee>, key: nat): (rows: seq<Fee>)
    ensures forall i | 0 <= i < |rows| :: rows[i].studentKey == key
    decreases |fees|
  {
    if fees == [] then []
    else RowsOf(fees[..|fees| - 1], key) + (if fees[|fees| - 1].studentKey == key then [fees[|fees| - 1]] else [])
  }

  /** `balance_after` of the student's most recent fee row, or 0.0 when there is none. */
  function LatestBalance(fees: seq<Fee>, key: nat): real
    decreases |fees|
  {
    if fees == [] then 0.0
    else if fees[|fees| - 1].studentKey == key then fees[|fees| - 1].balanceAfter
    else LatestBalance(fees[..|fees| - 1], key)
  }

  /** The latest balance is 0.0 for a student without rows, otherwise the balance on their last row. */
  lemma {:induction false} LatestBalanceIsLastRow(fees: seq<Fee>, key: nat)
    ensures RowsOf(fees, key) == [] ==> LatestBalance(fees, key) == 0.0
    ensures RowsOf(fees, key) != [] ==>
              LatestBalance(fees, key) == RowsOf(fees, key)[|RowsOf(fees, key)| - 1].balanceAfter
    decreases |fees|
  {
    if fees != [] {
      var front, last := fees[..|fees| - 1], fees[|fees| - 1];
      LatestBalanceIsLastRow(front, key);
      if last.studentKey != key {
        assert RowsOf(fees, key) == RowsOf(front, key) + [];
        assert RowsOf(front, key) + [] == RowsOf(front, key);
      }
    }
  }

  /** The rows of every other student, in insertion order. */
  function RowsExcept(fees: seq<Fee>, key: nat): (rows: seq<Fee>)
    ensures forall i | 0 <= i < |rows| :: rows[i].studentKey != key
    decreases |fees|
  {
    if fees == [] then []
    else RowsExcept(fees[..|fees| - 1], key) + (if fees[|fees| - 1].studentKey != key then [fees[|fees| - 1]] else [])
  }

  /** The sum of the amounts of some rows. */
  function Total(rows: seq<Fee>): (t: real)
    ensures (forall i | 0 <= i < |rows| :: rows[i].amount >= 0.0) ==> t >= 0.0
    decreases |rows|
  {
    if rows == [] then 0.0 else Total(rows[..|rows| - 1]) + rows[|rows| - 1].amount
  }

  lemma AppendKeepsRule(fees: seq<Fee>, owner: Student, p: Payment, receiptId: string, now: nat)
    requires AppendRule(fees)
    ensures AppendRule(fees + [NextRow(fees, owner, p, receiptId, now)])
  {
    var all := fees + [NextRow(fees, owner, p, receiptId, now)];
    assert all[..|all| - 1] == fees;
  }

  /** Under the append rule a student's latest balance is minus the sum of all their payments. */
  lemma {:induction false} LatestBalanceIsMinusTotal(fees: seq<Fee>, key: nat)
    requires AppendRule(fees)
    ensures LatestBalance(fees, key) == -Total(RowsOf(fees, key))
    decreases |fees|
  {
    if fees != [] {
      var front, last := fees[..|fees| - 1], fees[|fees| - 1];
      LatestBalanceIsMinusTotal(front, key);
      if last.studentKey == key {
        var rows := RowsOf(fees, key);
        assert last.balanceAfter == LatestBalance(front, key) - last.amount;
        assert rows == RowsOf(front, key) + [last];
        assert rows[..|rows| - 1] == RowsOf(front, key);
        assert Total(rows) == Total(RowsOf(front, key)) + last.amount;
      } else {
        assert RowsOf(fees, key) == RowsOf(front, key) + [];
        assert RowsOf(front, key) + [] == RowsOf(front, key);
        assert LatestBalance(fees, key) == LatestBalance(front, key);
      }
    }
  }

  /** The row a payment appends carries minus everything that student has paid, this payment included. */
  lemma NextRowBalance(fees: seq<Fee>, owner: Student, p: Payment, receiptId: string, now: nat)
    requires AppendRule(fees)
    ensures NextRow(fees, owner, p, receiptId, now).balanceAfter == -(Total(RowsOf(fees, owner.key)) + p.amount)
  {
    LatestBalanceIsMinusTotal(fees, owner.key);
  }

  /**
   * The running-sum invariant: however a student's payments were interleaved with other
   * students' (manual or gateway alike), the k-th row of that student carries minus the
   * sum of that student's first k + 1 amounts.
   */
  lemma {:induction false} RunningBalance(fees: seq<Fee>, key: nat, k: nat)
    requires AppendRule(fees)
    requires k < |RowsOf(fees, key)|
    ensures RowsOf(fees, key)[k].balanceAfter == -Total(RowsOf(fees, key)[..k + 1])
    decreases |fees|
  {
    var front, last := fees[..|fees| - 1], fees[|fees| - 1];
    var rows, earlier := RowsOf(fees, key), RowsOf(front, key);
    if last.studentKey == key && k == |rows| - 1 {
      assert rows == earlier + [last];
      LatestBalanceIsMinusTotal(front, key);
      assert rows[..k + 1] == rows;
      assert rows[..k + 1][..k] == earlier;
    } else {
      assert k < |earlier|;
      RunningBalance(front, key, k);
      assert rows[k] == earlier[k];
      assert rows[..k + 1] == earlier[..k + 1];
    }
  }

  /** Two tables agreeing on owner, amount and balance of every row: the receipt path is irrelevant to the ledger. */
  predicate SameLedger(a: seq<Fee>, b: seq<Fee>) {
    |a| == |b|
    && forall i | 0 <= i < |a| ::
         a[i].studentKey == b[i].studentKey && a[i].amount == b[i].amount
         && a[i].balanceAfter == b[i].balanceAfter
  }

  lemma {:induction false} SameLedgerSameBalance(a: seq<Fee>, b: seq<Fee>, key: nat)
    requires SameLedger(a, b)
    ensures LatestBalance(a, key) == LatestBalance(b, key)
    decreases |a|
  {
    if a != [] {
      assert SameLedger(a[..|a| - 1], b[..|b| - 1]);
      SameLedgerSameBalance(a[..|a| - 1], b[..|b| - 1], key);
    }
  }

  lemma {:induction false} SameLedgerSameRule(a: seq<Fee>, b: seq<Fee>)
    requires SameLedger(a, b)
    ensures AppendRule(a) <==> AppendRule(b)
    decreases |a|
  {
    if a != [] {
      var n := |a| - 1;
      assert SameLedger(a[..n], b[..n]);
      SameLedgerSameRule(a[..n], b[..n]);
      SameLedgerSameBalance(a[..n], b[..n], a[n].studentKey);
    }
  }

  /** Attaching a receipt path to a row keeps every balance valid. */
  lemma AttachKeepsRule(fees: seq<Fee>, i: nat, path: string)
    requires i < |fees| && AppendRule(fees)
    ensures AppendRule(fees[i := fees[i].(invoicePath := Some(path))])
  {
    SameLedgerSameRule(fees, fees[i := fees[i].(invoicePath := Some(path))]);
  }

  lemma {:induction false} TotalOfAppend(a: seq<Fee>, b: seq<Fee>)
    ensures Total(a + b) == Total(a) + Total(b)
    decreases |b|
  {
    if b == [] {
      assert a + b == a;
    } else {
      var b' := b[..|b| - 1];
      assert (a + b)[..|a + b| - 1] == a + b';
      TotalOfAppend(a, b');
    }
  }

  /** The sum over all rows splits into one student's rows and everyone else's. */
  lemma {:induction false} TotalSplits(fees: seq<Fee>, key: nat)
    ensures Total(fees) == Total(RowsOf(fees, key)) + Total(RowsExcept(fees, key))
    decreases |fees|
  {
    if fees != [] {
      var front, last := fees[..|fees| - 1], fees[|fees| - 1];
      TotalSplits(front, key);
      if last.studentKey == key {
        assert RowsExcept(fees, key) == RowsExcept(front, key) + [];
        assert RowsExcept(front, key) + [] == RowsExcept(front, key);
        TotalOfAppend(RowsOf(front, key), [last]);
      } else {
        assert RowsOf(fees, key) == RowsOf(front, key) + [];
        assert RowsOf(front, key) + [] == RowsOf(front, key);
        TotalOfAppend(RowsExcept(front, key), [last]);
      }
      assert Total([last]) == last.amount by {
        assert [last][..0] == [];
      }
    }
  }

  /**
   * The total of all amounts received equals what one student has paid (minus their latest
   * balance) plus the total of everyone else's rows.
   */
  lemma TotalCollectedMatchesBalance(fees: seq<Fee>, key: nat)
    requires AppendRule(fees)
    ensures Total(fees) == -LatestBalance(fees, key) + Total(RowsExcept(fees, key))
  {
    TotalSplits(fees, key);
    LatestBalanceIsMinusTotal(fees, key);
  }
}
