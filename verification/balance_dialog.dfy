/**
 * The add-balance dialog's `handleAddBalance`
 * (src/components/settlements/AddBalanceDialog.tsx, lines 36-92): three
 * checks in a fixed order, then one settled transfer record and a form
 * reset.
 *
 * The amount box holds text that `parseFloat` reads: it is empty, not a
 * number, or a number (`NumberField`). `now` stands for
 * `new Date().toISOString()`, the record's `settled_at`.
 */
module BalanceDialog {
  import opened Wrappers
  import opened Ledger
  import Aggregator

  datatype NumberField = Blank | NaN | Num(value: real)

  /** The `settlements` row the dialog inserts (lines 67-76). */
  datatype SettlementRecord = SettlementRecord(
    groupId: string, fromUserId: UserId, toUserId: UserId, amount: real,
    currency: string, status: string, settledAt: string, notes: string)

  const FillAllFields := "Please fill in all required fields"
  const NotToYourself := "Cannot add balance to yourself"
  const InvalidAmount := "Please enter a valid amount"
  const DefaultNotes := "Manual balance adjustment"

  /** The record the dialog inserts for these inputs, or the message it shows instead. */
  function Validate(groupId: string, currency: string, now: string, from: UserId, to: UserId, amount: NumberField,
                    notes: string): Result<SettlementRecord, string>
  {
    if from == "" || to == "" || amount.Blank? then Err(FillAllFields)
    else if from == to then Err(NotToYourself)
    else if amount.NaN? || amount.value <= 0.0 then Err(InvalidAmount)
    else Ok(SettlementRecord(groupId, from, to, amount.value, currency, "settled", now,
                             if notes == "" then DefaultNotes else notes))
  }

  /** The dialog's four fields and whether it is open. */
  class BalanceForm {
    var fromUserId: UserId
    var toUserId: UserId
    var amount: NumberField
    var notes: string
    var open: bool

    constructor ()
      ensures fromUserId == "" && toUserId == "" && amount == Blank && notes == "" && !open
    {
      fromUserId, toUserId, amount, notes, open := "", "", Blank, "", false;
    }

    /**
     * Submit the form: on a rejection nothing changes; on success the four
     * fields are cleared and the dialog closes.
     */
    method AddBalance(groupId: string, currency: string, now: string) returns (r: Result<SettlementRecord, string>)
      modifies this
      ensures r == Validate(groupId, currency, now, old(fromUserId), old(toUserId), old(amount), old(notes))
      ensures r.Ok? ==> fromUserId == "" && toUserId == "" && amount == Blank && notes == "" && !open
      ensures r.Err? ==> fromUserId == old(fromUserId) && toUserId == old(toUserId)
                         && amount == old(amount) && notes == old(notes) && open == old(open)
    {
      r := Validate(groupId, currency, now, fromUserId, toUserId, amount, notes);
      if r.Ok? {
        fromUserId, toUserId, amount, notes := "", "", Blank, "";
        open := false;
      }
    }
  }

  /**
   * The checks and their order: a missing field is reported first, then a
   * transfer to oneself, then an amount that is not a positive number; any
   * other input is accepted.
   */
  lemma ValidateRejects(groupId: string, currency: string, now: string, from: UserId, to: UserId, amount: NumberField, notes: string)
    ensures Validate(groupId, currency, now, from, to, amount, notes) == Err(FillAllFields)
        <==> from == "" || to == "" || amount == Blank
    ensures Validate(groupId, currency, now, from, to, amount, notes) == Err(NotToYourself)
        <==> from != "" && to != "" && amount != Blank && from == to
    ensures Validate(groupId, currency, now, from, to, amount, notes) == Err(InvalidAmount)
        <==> from != "" && to != "" && from != to && (amount == NaN || (amount.Num? && amount.value <= 0.0))
    ensures Validate(groupId, currency, now, from, to, amount, notes).Ok?
        <==> from != "" && to != "" && from != to && amount.Num? && amount.value > 0.0
  {
  }

  /**
   * An accepted request yields one settled record between two different
   * users for the entered positive amount, with the entered notes or the
   * default text.
   */
  lemma ValidateAccepts(groupId: string, currency: string, now: string, from: UserId, to: UserId, amount: NumberField, notes: string)
    requires Validate(groupId, currency, now, from, to, amount, notes).Ok?
    ensures var rec := Validate(groupId, currency, now, from, to, amount, notes).value;
      && rec.fromUserId == from && rec.toUserId == to && rec.fromUserId != rec.toUserId
      && Num(rec.amount) == amount && rec.amount > 0.0
      && rec.status == "settled" && rec.settledAt == now && rec.groupId == groupId && rec.currency == currency
      && rec.notes == (if notes == "" then DefaultNotes else notes) && rec.notes != ""
  {
  }

  /** The transfer row the settlement engine reads back for an accepted record. */
  function TransferOf(rec: SettlementRecord): TransferRow
  {
    TransferRow(rec.fromUserId, rec.toUserId, rec.amount)
  }

  /**
   * Once the settlement engine reads an accepted record back as a settled
   * transfer, the payer's net position rises by the amount, the receiver's
   * falls by it, and nobody else's moves.
   */
  lemma RecordedBalanceMoves(l: Snapshot, groupId: string, currency: string, now: string, from: UserId, to: UserId,
                             amount: NumberField, notes: string, u: UserId)
    requires Validate(groupId, currency, now, from, to, amount, notes).Ok?
    ensures var rec := Validate(groupId, currency, now, from, to, amount, notes).value;
      Aggregator.Net(l.(transfers := l.transfers + [TransferOf(rec)]), u)
        == Aggregator.Net(l, u) + (if u == from then rec.amount else 0.0) - (if u == to then rec.amount else 0.0)
  {
    var ts := l.transfers + [TransferOf(Validate(groupId, currency, now, from, to, amount, notes).value)];
    assert ts[..|ts| - 1] == l.transfers;
  }
}
