/**
 * The submit handler of the add-expense dialog
 * (src/components/expenses/AddExpenseDialog.tsx, lines 64-100 and 114-166):
 * the required-field and participant checks, the expense row, the
 * per-participant shares for the three split methods, and the form reset.
 *
 * The amount box is a number input, so its text is either empty or a
 * number: `None` or `Some(v)`. The custom-amount and percentage boxes are
 * maps from user to entered number; a user with no entry counts as 0, as
 * `parseFloat(x || '0')` does.
 */
module ExpenseDialog {
  import opened Wrappers
  import opened Ledger
  import Aggregator
  import opened GroupBy

  /**
   * The `participants` record (line 42): whether each user's box is checked,
   * and the order in which its keys were first set, which is the order
   * `Object.keys` lists them in.
   */
  datatype Picks = Picks(checked: map<UserId, bool>, order: seq<UserId>)

  /** A record lists each of its keys once, and lists exactly its keys. */
  predicate WellFormed(p: Picks)
  {
    && Distinct(p.order)
    && (forall u :: u in p.checked ==> u in p.order)
    && (forall k :: 0 <= k < |p.order| ==> p.order[k] in p.checked)
  }

  /** `participants[u]` is true. */
  predicate IsChecked(p: Picks, u: UserId)
  {
    u in p.checked && p.checked[u]
  }

  /** `{ ...prev, [userId]: checked }` (lines 319-322): a key already set keeps its place, a new one goes last. */
  function SetPick(p: Picks, u: UserId, checked: bool): Picks
  {
    Picks(p.checked[u := checked], if u in p.checked then p.order else p.order + [u])
  }

  /** The values the form holds when it is submitted. */
  datatype Draft = Draft(
    amount: Option<real>, description: string, category: string, date: string,
    paidBy: UserId, splitMethod: SplitMethod, participants: Picks,
    customAmounts: map<UserId, real>, percentages: map<UserId, real>)

  /** What a submission does: one of the two rejections, or the rows it inserts. */
  datatype Outcome =
    | MissingFields
    | NoParticipants
    | Added(expense: Expense, shares: seq<ShareRow>)

  /** The form after `resetForm` (lines 64-75); `today` stands for `new Date()`. */
  function EmptyDraft(today: string): Draft
  {
    Draft(None, "", "food", today, "", Equal, Picks(map[], []), map[], map[])
  }

  /** `Object.keys(participants).filter(id => participants[id])` (line 90). */
  function Selected(p: Picks): seq<UserId>
  {
    CheckedAmong(p, p.order)
  }

  /** The keys of `ks` whose box is checked, in the order of `ks`. */
  function CheckedAmong(p: Picks, ks: seq<UserId>): seq<UserId>
  {
    if ks == [] then []
    else CheckedAmong(p, ks[..|ks| - 1]) + (if IsChecked(p, ks[|ks| - 1]) then [ks[|ks| - 1]] else [])
  }

  /** An entered number, or 0 when the box is empty. */
  function Entered(m: map<UserId, real>, u: UserId): real
  {
    if u in m then m[u] else 0.0
  }

  /** `amountOwed` for `userId` (lines 135-144). */
  function ShareOf(split: SplitMethod, total: real, n: nat, custom: map<UserId, real>, pct: map<UserId, real>, u: UserId): real
    requires n > 0
  {
    match split
    case Equal => total / (n as real)
    case Custom => Entered(custom, u)
    case Percentage => total * Entered(pct, u) / 100.0
  }

  /** `participantData` (lines 134-151): one share per selected user, in order. */
  function ComputeShares(expenseId: string, total: real, split: SplitMethod, selected: seq<UserId>,
                         custom: map<UserId, real>, pct: map<UserId, real>): seq<ShareRow>
    requires selected != []
  {
    seq(|selected|, k requires 0 <= k < |selected| =>
      ShareRow(expenseId, selected[k], ShareOf(split, total, |selected|, custom, pct, selected[k])))
  }

  /**
   * `handleSubmit`: the checks of lines 79-100, then the expense row of
   * lines 117-126 and its shares. `expenseId` is the id the database gives
   * the new row and `groupId` the dialog's group.
   */
  function Submitted(d: Draft, groupId: string, expenseId: string): Outcome
  {
    if d.amount.None? || d.description == "" || d.paidBy == "" then MissingFields
    else if Selected(d.participants) == [] then NoParticipants
    else
      var total := d.amount.value;
      Added(
        Expense(expenseId, total, d.description, d.category, d.date, d.paidBy, groupId, SplitMethodName(d.splitMethod)),
        ComputeShares(expenseId, total, d.splitMethod, Selected(d.participants), d.customAmounts, d.percentages))
  }

  /** The dialog's state. */
  class ExpenseForm {
    var amount: Option<real>
    var description: string
    var category: string
    var date: string
    var paidBy: UserId
    var splitMethod: SplitMethod
    var participants: Picks
    var customAmounts: map<UserId, real>
    var percentages: map<UserId, real>
    var open: bool

    /** The record of checked boxes is well formed. */
    predicate Valid()
      reads this
    {
      WellFormed(participants)
    }

    function Current(): Draft
      reads this
    {
      Draft(amount, description, category, date, paidBy, splitMethod, participants, customAmounts, percentages)
    }

    /** The initial `useState` values (lines 33-44). */
    constructor (today: string)
      ensures Valid() && Current() == EmptyDraft(today) && !open
    {
      amount, description, category, date, paidBy := None, "", "food", today, "";
      splitMethod, participants, customAmounts, percentages := Equal, Picks(map[], []), map[], map[];
      open := false;
    }

    /** A participant checkbox changes (lines 318-322); nothing else does. */
    method SetParticipant(u: UserId, checked: bool)
      requires Valid()
      modifies this
      ensures Valid()
      ensures Current() == old(Current()).(participants := SetPick(old(participants), u, checked))
      ensures open == old(open)
    {
      SetPickSpec(participants, u, checked);
      participants := SetPick(participants, u, checked);
    }

    /**
     * Submit the form. A rejection leaves the form as it was; a success
     * resets every field and closes the dialog.
     */
    method Submit(groupId: string, expenseId: string, today: string) returns (outcome: Outcome)
      requires Valid()
      modifies this
      ensures Valid()
      ensures outcome == Submitted(old(Current()), groupId, expenseId)
      ensures outcome.Added? ==> Current() == EmptyDraft(today) && !open
      ensures !outcome.Added? ==> Current() == old(Current()) && open == old(open)
    {
      ghost var d := Current();
      if amount.None? || description == "" || paidBy == "" {
        return MissingFields;
      }
      var selectedParticipants := Selected(participants);
      assert selectedParticipants == Selected(d.participants);
      if selectedParticipants == [] {
        return NoParticipants;
      }
      var totalAmount := amount.value;
      var expense := Expense(expenseId, totalAmount, description, category, date, paidBy, groupId,
                             SplitMethodName(splitMethod));
      var participantData := ComputeShares(expenseId, totalAmount, splitMethod, selectedParticipants,
                                           customAmounts, percentages);
      outcome := Added(expense, participantData);
      assert outcome == Submitted(d, groupId, expenseId);
      ResetForm(today);
      open := false;
    }

    /** `resetForm` (lines 64-75): every field back to its initial value; the dialog stays as it is. */
    method ResetForm(today: string)
      modifies this
      ensures Valid() && Current() == EmptyDraft(today) && open == old(open)
    {
      amount, description, category, date, paidBy := None, "", "food", today, "";
      splitMethod, participants, customAmounts, percentages := Equal, Picks(map[], []), map[], map[];
    }
  }

  /** Sum of the amounts owed over the selected users, as percentages. */
  function SumEntered(m: map<UserId, real>, us: seq<UserId>): real
  {
    if us == [] then 0.0 else SumEntered(m, us[..|us| - 1]) + Entered(m, us[|us| - 1])
  }

  /**
   * Exactly the checked users are selected, each once, in the order their
   * keys were first set.
   */
  lemma SelectedSpec(p: Picks)
    requires WellFormed(p)
    ensures forall u :: u in Selected(p) <==> IsChecked(p, u)
    ensures Distinct(Selected(p))
    ensures |Selected(p)| <= |p.order|
  {
    CheckedAmongSpec(p, p.order);
  }

  /** The checked keys among `ks`: each of them once when `ks` lists none twice. */
  lemma {:induction false} CheckedAmongSpec(p: Picks, ks: seq<UserId>)
    ensures forall u :: u in CheckedAmong(p, ks) <==> u in ks && IsChecked(p, u)
    ensures Distinct(ks) ==> Distinct(CheckedAmong(p, ks))
    ensures |CheckedAmong(p, ks)| <= |ks|
  {
    if ks != [] {
      var init, last := ks[..|ks| - 1], ks[|ks| - 1];
      CheckedAmongSpec(p, init);
      assert ks == init + [last];
      if Distinct(ks) {
        assert Distinct(init) by {
          forall i, j | 0 <= i < j < |init| ensures init[i] != init[j] {
            assert init[i] == ks[i] && init[j] == ks[j];
          }
        }
        assert last !in init by {
          forall i | 0 <= i < |init| ensures init[i] != last {
            assert init[i] == ks[i];
          }
        }
        var s := CheckedAmong(p, init);
        forall i, j | 0 <= i < j < |CheckedAmong(p, ks)| ensures CheckedAmong(p, ks)[i] != CheckedAmong(p, ks)[j] {
          if j == |s| {
            assert CheckedAmong(p, ks)[i] == s[i] && s[i] in s;
          }
        }
      }
    }
  }

  /**
   * Setting one box keeps the record well formed and keeps the place of
   * every key already set; afterwards that user is selected exactly when
   * the box was checked, and every other user exactly as before.
   */
  lemma SetPickSpec(p: Picks, u: UserId, checked: bool)
    requires WellFormed(p)
    ensures WellFormed(SetPick(p, u, checked))
    ensures |p.order| <= |SetPick(p, u, checked).order|
    ensures forall k :: 0 <= k < |p.order| ==> SetPick(p, u, checked).order[k] == p.order[k]
    ensures forall v :: v in Selected(SetPick(p, u, checked)) <==> if v == u then checked else v in Selected(p)
  {
    SetPickKeys(p, u, checked);
    SetPickSelected(p, SetPick(p, u, checked), u, checked);
  }

  /** The selection after one box is set, from the checked boxes before and after. */
  lemma SetPickSelected(p: Picks, q: Picks, u: UserId, checked: bool)
    requires WellFormed(p) && WellFormed(q)
    requires forall v :: IsChecked(q, v) == if v == u then checked else IsChecked(p, v)
    ensures forall v :: v in Selected(q) <==> if v == u then checked else v in Selected(p)
  {
    SelectedSpec(p);
    SelectedSpec(q);
  }

  /** Setting one box keeps the record well formed and the keys already set in place. */
  lemma SetPickKeys(p: Picks, u: UserId, checked: bool)
    requires WellFormed(p)
    ensures WellFormed(SetPick(p, u, checked))
    ensures |p.order| <= |SetPick(p, u, checked).order|
    ensures forall k :: 0 <= k < |p.order| ==> SetPick(p, u, checked).order[k] == p.order[k]
  {
    var q := SetPick(p, u, checked);
    if u !in p.checked {
      assert u !in p.order;
      forall i, j | 0 <= i < j < |q.order| ensures q.order[i] != q.order[j] {
        if j == |p.order| {
          assert q.order[i] == p.order[i] && p.order[i] in p.order;
        }
      }
    }
  }

  /**
   * The submission is rejected with `MissingFields` exactly when the amount,
   * the description or the payer is empty, and with `NoParticipants`
   * exactly when the fields are filled but no box is checked; otherwise it
   * inserts one expense row carrying the form's values.
   */
  lemma SubmitChecks(d: Draft, groupId: string, expenseId: string)
    requires WellFormed(d.participants)
    ensures Submitted(d, groupId, expenseId).MissingFields?
        <==> d.amount.None? || d.description == "" || d.paidBy == ""
    ensures Submitted(d, groupId, expenseId).NoParticipants?
        <==> d.amount.Some? && d.description != "" && d.paidBy != ""
             && forall u :: !IsChecked(d.participants, u)
    ensures Submitted(d, groupId, expenseId).Added? ==>
      var e := Submitted(d, groupId, expenseId).expense;
      e.id == expenseId && Some(e.amount) == d.amount && e.description == d.description
      && e.paidBy == d.paidBy && e.groupId == groupId && e.category == d.category
  {
    SelectedSpec(d.participants);
    if Selected(d.participants) != [] {
      assert Selected(d.participants)[0] in Selected(d.participants);
    }
  }

  /**
   * One share per selected participant, in order, each for the new expense.
   */
  lemma SharesShape(expenseId: string, total: real, split: SplitMethod, selected: seq<UserId>,
                    custom: map<UserId, real>, pct: map<UserId, real>)
    requires selected != []
    ensures |ComputeShares(expenseId, total, split, selected, custom, pct)| == |selected|
    ensures forall k :: 0 <= k < |selected| ==>
      ComputeShares(expenseId, total, split, selected, custom, pct)[k].expenseId == expenseId
      && ComputeShares(expenseId, total, split, selected, custom, pct)[k].userId == selected[k]
  {
  }

  lemma {:induction false} EqualPrefixSum(expenseId: string, total: real, selected: seq<UserId>, n: nat)
    requires n <= |selected| && selected != []
    ensures Aggregator.TotalOwed(ComputeShares(expenseId, total, Equal, selected, map[], map[])[..n])
         == (n as real) * (total / (|selected| as real))
  {
    var ss := ComputeShares(expenseId, total, Equal, selected, map[], map[]);
    if n > 0 {
      EqualPrefixSum(expenseId, total, selected, n - 1);
      assert ss[..n][..n - 1] == ss[..n - 1];
    }
  }

  /** Equal split: every share is total/n, and the shares add up to the total. */
  lemma EqualSplit(expenseId: string, total: real, selected: seq<UserId>, custom: map<UserId, real>, pct: map<UserId, real>)
    requires selected != []
    ensures forall k :: 0 <= k < |selected| ==>
      ComputeShares(expenseId, total, Equal, selected, custom, pct)[k].amountOwed == total / (|selected| as real)
    ensures Aggregator.TotalOwed(ComputeShares(expenseId, total, Equal, selected, custom, pct)) == total
  {
    var ss := ComputeShares(expenseId, total, Equal, selected, custom, pct);
    assert ss == ComputeShares(expenseId, total, Equal, selected, map[], map[]);
    EqualPrefixSum(expenseId, total, selected, |selected|);
    assert ss[..|selected|] == ss;
    var n := |selected| as real;
    assert n * (total / n) == total;
  }

  /** Shares of total·p/100 each add up to total·Σp/100. */
  lemma {:induction false} ScaledSum(ss: seq<ShareRow>, us: seq<UserId>, total: real, pct: map<UserId, real>)
    requires |ss| == |us|
    requires forall k :: 0 <= k < |ss| ==> ss[k].amountOwed == total * Entered(pct, us[k]) / 100.0
    ensures Aggregator.TotalOwed(ss) == total * SumEntered(pct, us) / 100.0
  {
    if ss != [] {
      var n := |ss|;
      var init, before := ss[..n - 1], us[..n - 1];
      forall k | 0 <= k < n - 1
        ensures init[k].amountOwed == total * Entered(pct, before[k]) / 100.0
      {
        assert init[k] == ss[k] && before[k] == us[k];
      }
      ScaledSum(init, before, total, pct);
      var a, b := SumEntered(pct, before), Entered(pct, us[n - 1]);
      calc {
        Aggregator.TotalOwed(ss);
        Aggregator.TotalOwed(init) + ss[n - 1].amountOwed;
        total * a / 100.0 + total * b / 100.0;
        { Distribute(total, a, b, total * a / 100.0); }
        total * (a + b) / 100.0;
        total * SumEntered(pct, us) / 100.0;
      }
    }
  }

  /** Percentage split: each share is total·p/100, with a missing entry counted as 0. */
  lemma PercentageShares(expenseId: string, total: real, selected: seq<UserId>, custom: map<UserId, real>, pct: map<UserId, real>)
    requires selected != []
    ensures forall k :: 0 <= k < |selected| ==>
      ComputeShares(expenseId, total, Percentage, selected, custom, pct)[k].amountOwed
        == total * Entered(pct, selected[k]) / 100.0
  {
  }

  /** The percentage shares add up to total·Σp/100. */
  lemma PercentageTotal(expenseId: string, total: real, selected: seq<UserId>, custom: map<UserId, real>, pct: map<UserId, real>)
    requires selected != []
    ensures Aggregator.TotalOwed(ComputeShares(expenseId, total, Percentage, selected, custom, pct))
         == total * SumEntered(pct, selected) / 100.0
  {
    PercentageShares(expenseId, total, selected, custom, pct);
    ScaledSum(ComputeShares(expenseId, total, Percentage, selected, custom, pct), selected, total, pct);
  }

  /**
   * For a nonzero total, the percentage shares add up to the total exactly
   * when the entered percentages of the selected users add up to 100.
   */
  lemma PercentageAddsUp(expenseId: string, total: real, selected: seq<UserId>, custom: map<UserId, real>, pct: map<UserId, real>)
    requires selected != [] && total != 0.0
    ensures Aggregator.TotalOwed(ComputeShares(expenseId, total, Percentage, selected, custom, pct)) == total
        <==> SumEntered(pct, selected) == 100.0
  {
    PercentageTotal(expenseId, total, selected, custom, pct);
    var owed, p := Aggregator.TotalOwed(ComputeShares(expenseId, total, Percentage, selected, custom, pct)), SumEntered(pct, selected);
    WholeShare(total, p, owed);
  }

  lemma Distribute(t: real, a: real, b: real, sum: real)
    requires sum == t * a / 100.0
    ensures sum + t * b / 100.0 == t * (a + b) / 100.0
  {
  }

  lemma WholeShare(t: real, p: real, owed: real)
    requires t != 0.0 && owed == t * p / 100.0
    ensures owed == t <==> p == 100.0
  {
    if owed == t {
      assert t * p == t * 100.0;
      assert t * (p - 100.0) == 0.0;
    }
  }

  /**
   * Custom split: each share is the entered amount (0 when none), whatever
   * the total; nothing checks that the shares add up to the total.
   */
  lemma CustomSplit(expenseId: string, total: real, selected: seq<UserId>, custom: map<UserId, real>, pct: map<UserId, real>)
    requires selected != []
    ensures forall k :: 0 <= k < |selected| ==>
      ComputeShares(expenseId, total, Custom, selected, custom, pct)[k].amountOwed == Entered(custom, selected[k])
    ensures ComputeShares(expenseId, total, Custom, selected, custom, pct)
         == ComputeShares(expenseId, total + 1.0, Custom, selected, custom, pct)
  {
  }
}
