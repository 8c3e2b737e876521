/** The transaction ledger: one record per successful withdrawal, kept in
    insertion order and only ever appended to. */
module Ledger {
  import opened Format

  /** The only transaction type the application writes. */
  const WITHDRAWAL := "withdrawal"

  /** One ledger entry. `amount` is in whole pounds, `balanceAfter` in pence;
      `formatted` is the display line computed when the record is created. */
  datatype Transaction = Transaction(
    timestamp: string,
    kind: string,
    amount: int,
    balanceAfter: int,
    formatted: string)

  /** The display line "<timestamp> | <Type> £<amount> | Balance £<balance>". */
  function FormatLine(timestamp: string, kind: string, amount: int, balanceAfter: int): (r: string) {
    timestamp + " | " + Title(kind) + " £" + Money(amount * 100) + " | Balance £" + Money(balanceAfter)
  }

  /** The display line splits back into its fields at known positions: the
      timestamp, the title-cased type, the amount and the balance after. */
  lemma FormatLineFields(timestamp: string, kind: string, amount: int, balanceAfter: int)
    ensures var r := FormatLine(timestamp, kind, amount, balanceAfter);
            var h := |timestamp| + 3;
            var m := h + |kind|;
            var tail := " | Balance £" + Money(balanceAfter);
            && m + |tail| <= |r|
            && r[..h] == timestamp + " | "
            && r[h..m] == Title(kind)
            && r[m..|r| - |tail|] == " £" + Money(amount * 100)
            && r[|r| - |tail|..] == tail
  {
    var head := timestamp + " | ";
    var title := Title(kind);
    var middle := " £" + Money(amount * 100);
    var tail := " | Balance £" + Money(balanceAfter);
    var r := FormatLine(timestamp, kind, amount, balanceAfter);
    assert r == head + title + middle + tail;
    var h := |head|;
    var m := h + |title|;
    assert r[..h] == head;
    assert r[h..m] == title;
    assert r[m..|r| - |tail|] == middle;
    assert r[|r| - |tail|..] == tail;
  }

  /** The record `add_transaction` builds for a withdrawal; the clock reading is
      passed in as `timestamp`. */
  function NewTransaction(amount: int, balanceAfter: int, timestamp: string): (t: Transaction)
    ensures t.kind == WITHDRAWAL && t.amount == amount && t.balanceAfter == balanceAfter
    ensures t.timestamp == timestamp
    ensures Format.Title(t.kind) == "Withdrawal"
    ensures t.formatted == FormatLine(timestamp, WITHDRAWAL, amount, balanceAfter)
  {
    Transaction(timestamp, WITHDRAWAL, amount, balanceAfter,
                FormatLine(timestamp, WITHDRAWAL, amount, balanceAfter))
  }

  /** What a record written by a successful withdrawal looks like. */
  predicate IsWithdrawalRecord(t: Transaction) {
    && t.kind == WITHDRAWAL
    && t.amount > 0
    && t.amount % 10 == 0
    && t.balanceAfter >= 0
    && t.formatted == FormatLine(t.timestamp, t.kind, t.amount, t.balanceAfter)
  }

  predicate ValidLedger(ledger: seq<Transaction>) {
    forall i :: 0 <= i < |ledger| ==> IsWithdrawalRecord(ledger[i])
  }

  /** The display lines of the ledger, in insertion order. */
  function Lines(ledger: seq<Transaction>): (r: seq<string>)
    ensures |r| == |ledger|
  {
    seq(|ledger|, i requires 0 <= i < |ledger| => ledger[i].formatted)
  }

  /** Total pounds withdrawn over a stretch of the ledger. */
  function Withdrawn(ledger: seq<Transaction>): (total: int) {
    if ledger == [] then 0 else ledger[0].amount + Withdrawn(ledger[1..])
  }

  /** Appending one record adds its amount to the total withdrawn. */
  lemma {:induction false} WithdrawnAppend(ledger: seq<Transaction>, t: Transaction)
    ensures Withdrawn(ledger + [t]) == Withdrawn(ledger) + t.amount
  {
    if ledger != [] {
      assert (ledger + [t])[1..] == ledger[1..] + [t];
      WithdrawnAppend(ledger[1..], t);
    }
  }
}
