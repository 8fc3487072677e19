/**
 * The three summary cards of src/components/settlements/BalanceSummary.tsx
 * over the balances the settlement engine returns (amounts in cents): the
 * "Your Balance" card shows the first non-zero balance, the two other cards
 * the total owed by the debtors and to the creditors, and how many of each
 * there are.
 */
module BalanceSummary {
  import opened Wrappers
  import opened Ledger
  import opened Optimizer

  /** `balances.find(b => b.amount !== 0)` */
  function UserBalance(bs: seq<Balance>): Option<Balance>
  {
    if bs == [] then None
    else if bs[0].amount != 0 then Some(bs[0])
    else UserBalance(bs[1..])
  }

  /** Sum of the absolute values of the amounts. */
  function SumAbs(bs: seq<Balance>): int
  {
    if bs == [] then 0 else SumAbs(bs[..|bs| - 1]) + Abs(bs[|bs| - 1].amount)
  }

  /** `balances.filter(b => b.amount < 0).reduce((sum, b) => sum + Math.abs(b.amount), 0)` */
  function TotalOwed(bs: seq<Balance>): int
  {
    SumAbs(Debtors(bs))
  }

  /** `balances.filter(b => b.amount > 0).reduce((sum, b) => sum + b.amount, 0)` */
  function TotalOwedTo(bs: seq<Balance>): int
  {
    Total(Creditors(bs))
  }

  /** The badge under "Your Balance". */
  function Badge(bs: seq<Balance>): string
  {
    match UserBalance(bs)
    case Some(b) => if b.amount < 0 then "You Owe" else if b.amount > 0 then "You Are Owed" else "Settled Up"
    case None => "Settled Up"
  }

  /** `Math.abs(userBalance?.amount || 0)`, the figure on the "Your Balance" card. */
  function ShownAmount(bs: seq<Balance>): int
  {
    match UserBalance(bs)
    case Some(b) => Abs(b.amount)
    case None => 0
  }

  /** "To N": the number of creditors, shown on the "Total You Owe" card. */
  function ToCount(bs: seq<Balance>): nat
  {
    |Creditors(bs)|
  }

  /** "From N": the number of debtors, shown on the "Total You're Owed" card. */
  function FromCount(bs: seq<Balance>): nat
  {
    |Debtors(bs)|
  }

  /** `n === 1 ? 'person' : 'people'` */
  function PeopleWord(n: nat): (w: string)
    ensures w == "person" <==> n == 1
    ensures w == "person" || w == "people"
  {
    if n == 1 then "person" else "people"
  }

  /**
   * The card's balance is the first balance that is not zero: it is absent
   * exactly when every balance is zero.
   */
  lemma {:induction false} UserBalanceSpec(bs: seq<Balance>)
    ensures UserBalance(bs).None? <==> forall k :: 0 <= k < |bs| ==> bs[k].amount == 0
    ensures UserBalance(bs).Some? ==>
      (exists k :: 0 <= k < |bs| && bs[k] == UserBalance(bs).value
         && forall j :: 0 <= j < k ==> bs[j].amount == 0)
    ensures UserBalance(bs).Some? ==> UserBalance(bs).value.amount != 0
  {
    if bs != [] && bs[0].amount == 0 {
      UserBalanceSpec(bs[1..]);
      forall k | 0 < k < |bs| ensures bs[k] == bs[1..][k - 1] {
      }
      if UserBalance(bs).Some? {
        var k :| 0 <= k < |bs[1..]| && bs[1..][k] == UserBalance(bs).value
          && forall j :: 0 <= j < k ==> bs[1..][j].amount == 0;
        assert bs[k + 1] == UserBalance(bs).value;
        forall j | 0 <= j < k + 1 ensures bs[j].amount == 0 {
          if j > 0 {
            assert bs[j] == bs[1..][j - 1];
          }
        }
      }
    }
  }

  /**
   * The badge reads "You Owe" when the first non-zero balance is negative,
   * "You Are Owed" when it is positive, and "Settled Up" exactly when every
   * balance is zero; the figure shown is zero exactly in the last case.
   */
  lemma BadgeSpec(bs: seq<Balance>)
    ensures Badge(bs) == "Settled Up" <==> forall k :: 0 <= k < |bs| ==> bs[k].amount == 0
    ensures Badge(bs) == "You Owe" <==> UserBalance(bs).Some? && UserBalance(bs).value.amount < 0
    ensures Badge(bs) == "You Are Owed" <==> UserBalance(bs).Some? && UserBalance(bs).value.amount > 0
    ensures ShownAmount(bs) == 0 <==> Badge(bs) == "Settled Up"
  {
    UserBalanceSpec(bs);
  }

  /** A sum of absolute values is the negated total when every amount is negative. */
  lemma {:induction false} SumAbsOfDebtors(ds: seq<Balance>)
    requires AllDebtors(ds)
    ensures SumAbs(ds) == -Total(ds)
  {
    if ds != [] {
      SumAbsOfDebtors(ds[..|ds| - 1]);
    }
  }

  /** The debtors are all negative and the creditors all positive. */
  lemma SidesSigns(bs: seq<Balance>)
    ensures AllDebtors(Debtors(bs)) && AllCreditors(Creditors(bs))
  {
    DebtorsMembers(bs);
    forall k | 0 <= k < |Debtors(bs)| ensures Debtors(bs)[k].amount < 0 {
      assert Debtors(bs)[k] in Debtors(bs);
    }
    forall k | 0 <= k < |Creditors(bs)| ensures Creditors(bs)[k].amount > 0 {
      assert Creditors(bs)[k] in Creditors(bs);
    }
  }

  /**
   * Both totals are non-negative and zero exactly when their count is zero;
   * their difference is the sum of all balances, so on balances that sum to
   * zero what the debtors owe is what the creditors are owed.
   */
  lemma OwedTotals(bs: seq<Balance>)
    ensures TotalOwed(bs) >= 0 && TotalOwedTo(bs) >= 0
    ensures TotalOwed(bs) == 0 <==> FromCount(bs) == 0
    ensures TotalOwedTo(bs) == 0 <==> ToCount(bs) == 0
    ensures TotalOwedTo(bs) - TotalOwed(bs) == Total(bs)
    ensures Total(bs) == 0 ==> TotalOwedTo(bs) == TotalOwed(bs)
  {
    SidesSigns(bs);
    SumAbsOfDebtors(Debtors(bs));
    DebtorSigns(Debtors(bs), "");
    CreditorSigns(Creditors(bs), "");
    DebtorsSums(bs, "");
  }

  /**
   * Every balance is counted at most once: a debtor, a creditor, or neither
   * when it is zero; the debtors are exactly the negative entries and the
   * creditors the positive ones.
   */
  lemma CountsSpec(bs: seq<Balance>)
    ensures ToCount(bs) + FromCount(bs) <= |bs|
    ensures forall b :: b in Debtors(bs) <==> b in bs && b.amount < 0
    ensures forall b :: b in Creditors(bs) <==> b in bs && b.amount > 0
    ensures (forall k :: 0 <= k < |bs| ==> bs[k].amount == 0) ==> ToCount(bs) == 0 && FromCount(bs) == 0
  {
    DebtorsSums(bs, "");
    DebtorsMembers(bs);
  }
}
