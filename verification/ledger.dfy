/**
 * The ledger records the settlement engine consumes and produces
 * (src/types/expense.ts, src/types/settlement.ts and the rows read by
 * supabase/functions/calculate-settlements/index.ts).
 *
 * Ledger rows carry exact decimal amounts (`real`); balances and settlement
 * plan entries carry whole cents (`int`), because the engine rounds every
 * balance to two decimal places before it optimizes.
 */
module Ledger {

  type UserId = string

  datatype SplitMethod = Equal | Percentage | Custom

  /** The text stored in `split_method`: each method has its own name. */
  function SplitMethodName(m: SplitMethod): (name: string)
    ensures name in {"equal", "percentage", "custom"}
    ensures (name == "equal") == (m == Equal)
    ensures (name == "percentage") == (m == Percentage)
    ensures (name == "custom") == (m == Custom)
  {
    match m
    case Equal => "equal"
    case Percentage => "percentage"
    case Custom => "custom"
  }

  /**
   * A row of `expenses` as the client screens write and read it. The split
   * method is kept as the text stored in the row: the CSV import copies it
   * from the file unchecked.
   */
  datatype Expense = Expense(
    id: string, amount: real, description: string, category: string,
    expenseDate: string, paidBy: UserId, groupId: string, splitMethod: string)

  /** A row of `expenses` as the engine reads it: id, amount, paid_by. */
  datatype ExpenseRow = ExpenseRow(id: string, amount: real, paidBy: UserId)

  /** A row of `expense_participants`: expense_id, user_id, amount_owed. */
  datatype ShareRow = ShareRow(expenseId: string, userId: UserId, amountOwed: real)

  /** A `settlements` row with status 'settled': from_user_id, to_user_id, amount. */
  datatype TransferRow = TransferRow(fromUser: UserId, toUser: UserId, amount: real)

  /** The three collections read for one group. */
  datatype Snapshot = Snapshot(expenses: seq<ExpenseRow>, shares: seq<ShareRow>, transfers: seq<TransferRow>)

  /** A net balance in cents: positive means the group owes this user. */
  datatype Balance = Balance(userId: UserId, amount: int)

  /** One entry of a settlement plan, in cents. */
  datatype Settlement = Settlement(from: UserId, to: UserId, amount: int)

  function Min(a: int, b: int): (m: int)
    ensures m <= a && m <= b && (m == a || m == b)
  {
    if a < b then a else b
  }

  function Abs(x: int): (r: int)
    ensures r >= 0 && (r == x || r == -x)
  {
    if x < 0 then -x else x
  }

  /** Sum of the amounts of `bs`. */
  function Total(bs: seq<Balance>): int
  {
    if bs == [] then 0 else Total(bs[..|bs| - 1]) + bs[|bs| - 1].amount
  }

  /** Sum of the amounts that `bs` records for user `u`. */
  function AmountOf(bs: seq<Balance>, u: UserId): int
  {
    if bs == [] then 0
    else AmountOf(bs[..|bs| - 1], u) + (if bs[|bs| - 1].userId == u then bs[|bs| - 1].amount else 0)
  }

  /** The users that appear in `bs`. */
  function Ids(bs: seq<Balance>): set<UserId>
  {
    set b | b in bs :: b.userId
  }

  /** Distinct user ids: at most one entry per user. */
  predicate DistinctIds(bs: seq<Balance>)
  {
    forall i, j :: 0 <= i < j < |bs| ==> bs[i].userId != bs[j].userId
  }

  /** Appending one entry adds its amount to the total. */
  lemma TotalSnoc(a: seq<Balance>, b: Balance)
    ensures Total(a + [b]) == Total(a) + b.amount
  {
    assert (a + [b])[..|a|] == a;
  }

  /** Appending one entry adds its amount to its user's sum. */
  lemma AmountOfSnoc(a: seq<Balance>, b: Balance, u: UserId)
    ensures AmountOf(a + [b], u) == AmountOf(a, u) + (if b.userId == u then b.amount else 0)
  {
    assert (a + [b])[..|a|] == a;
  }

  lemma {:induction false} TotalAppend(a: seq<Balance>, b: seq<Balance>)
    ensures Total(a + b) == Total(a) + Total(b)
    decreases |b|
  {
    if b == [] {
      assert a + b == a;
    } else {
      assert (a + b)[..|a + b| - 1] == a + b[..|b| - 1];
      TotalAppend(a, b[..|b| - 1]);
    }
  }

  lemma {:induction false} AmountOfAppend(a: seq<Balance>, b: seq<Balance>, u: UserId)
    ensures AmountOf(a + b, u) == AmountOf(a, u) + AmountOf(b, u)
    decreases |b|
  {
    if b == [] {
      assert a + b == a;
    } else {
      assert (a + b)[..|a + b| - 1] == a + b[..|b| - 1];
      AmountOfAppend(a, b[..|b| - 1], u);
    }
  }

  /** With one entry per user, the per-user total is that entry's amount. */
  lemma {:induction false} AmountOfDistinct(bs: seq<Balance>, k: nat)
    requires DistinctIds(bs) && k < |bs|
    ensures AmountOf(bs, bs[k].userId) == bs[k].amount
  {
    var n := |bs| - 1;
    if k == n {
      AmountOfAbsent(bs[..n], bs[k].userId);
    } else {
      AmountOfDistinct(bs[..n], k);
    }
  }

  /** A user with no entry has a zero total. */
  lemma {:induction false} AmountOfAbsent(bs: seq<Balance>, u: UserId)
    requires forall k :: 0 <= k < |bs| ==> bs[k].userId != u
    ensures AmountOf(bs, u) == 0
  {
    if bs != [] {
      AmountOfAbsent(bs[..|bs| - 1], u);
    }
  }
}
