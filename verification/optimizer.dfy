/**
 * `optimizeSettlements` of supabase/functions/calculate-settlements/index.ts
 * (lines 21-54): the greedy two-cursor netting of debtors against creditors.
 *
 * Amounts are whole cents, so the source's `Math.abs(x) < 0.01` test is
 * `Abs(x) < EpsilonCents`, which holds exactly when `x == 0`, and `min` and
 * the subtractions are exact.
 * The source computes on doubles, where a remainder of one cent can come
 * out just under 0.01 and close a side early; exact cents never do that.
 *
 * `Greedy` is the loop as a function of what is left on both sides; `PlanFor`
 * is the whole optimizer; `OptimizeSettlements` is the imperative code,
 * proved to return `PlanFor` of its input. The lemmas state what the plan
 * guarantees.
 */
module Optimizer {
  import opened Ledger
  import opened Sorting

  /** 0.01 currency units, in cents. */
  const EpsilonCents: int := 1

  /** `debtors.sort((a, b) => a.amount - b.amount)`: most negative first. */
  function DebtorKey(b: Balance): real
  {
    b.amount as real
  }

  /** `creditors.sort((a, b) => b.amount - a.amount)`: largest first. */
  function CreditorKey(b: Balance): real
  {
    -(b.amount as real)
  }

  /** `balances.filter(b => b.amount < 0)` */
  function Debtors(bs: seq<Balance>): seq<Balance>
  {
    if bs == [] then []
    else Debtors(bs[..|bs| - 1]) + (if bs[|bs| - 1].amount < 0 then [bs[|bs| - 1]] else [])
  }

  /** `balances.filter(b => b.amount > 0)` */
  function Creditors(bs: seq<Balance>): seq<Balance>
  {
    if bs == [] then []
    else Creditors(bs[..|bs| - 1]) + (if bs[|bs| - 1].amount > 0 then [bs[|bs| - 1]] else [])
  }

  predicate AllDebtors(ds: seq<Balance>)
  {
    forall k :: 0 <= k < |ds| ==> ds[k].amount < 0
  }

  predicate AllCreditors(cs: seq<Balance>)
  {
    forall k :: 0 <= k < |cs| ==> cs[k].amount > 0
  }

  /**
   * The side whose head now holds `rest`: the cursor moves past the head
   * once it is within epsilon of zero (lines 49-50).
   */
  function Advance(s: seq<Balance>, rest: int): seq<Balance>
    requires s != []
  {
    if Abs(rest) < EpsilonCents then s[1..] else [s[0].(amount := rest)] + s[1..]
  }

  /**
   * The transfers the loop of lines 34-51 emits from the point where `ds`
   * and `cs` are the debtors and creditors still to be visited (the heads
   * carrying what they have left).
   */
  function Greedy(ds: seq<Balance>, cs: seq<Balance>): seq<Settlement>
    requires AllDebtors(ds) && AllCreditors(cs)
    decreases |ds| + |cs|
  {
    if ds == [] || cs == [] then []
    else
      StepSigns(ds, cs);
      [Settlement(ds[0].userId, cs[0].userId, Matched(ds, cs))]
        + Greedy(NextDebtors(ds, cs), NextCreditors(ds, cs))
  }

  /** `settleAmount = Math.min(debt, credit)` for the two heads. */
  function Matched(ds: seq<Balance>, cs: seq<Balance>): int
    requires ds != [] && cs != []
  {
    Min(Abs(ds[0].amount), cs[0].amount)
  }

  /** The debtors still to visit after one turn of the loop. */
  function NextDebtors(ds: seq<Balance>, cs: seq<Balance>): seq<Balance>
    requires ds != [] && cs != []
  {
    Advance(ds, ds[0].amount + Matched(ds, cs))
  }

  /** The creditors still to visit after one turn of the loop. */
  function NextCreditors(ds: seq<Balance>, cs: seq<Balance>): seq<Balance>
    requires ds != [] && cs != []
  {
    Advance(cs, cs[0].amount - Matched(ds, cs))
  }

  /** One turn keeps every remaining debtor negative and every creditor positive, and makes progress. */
  lemma StepSigns(ds: seq<Balance>, cs: seq<Balance>)
    requires AllDebtors(ds) && AllCreditors(cs) && ds != [] && cs != []
    ensures AllDebtors(NextDebtors(ds, cs)) && AllCreditors(NextCreditors(ds, cs))
    ensures |NextDebtors(ds, cs)| + |NextCreditors(ds, cs)| < |ds| + |cs|
  {
  }

  function SortedDebtors(bs: seq<Balance>): seq<Balance>
  {
    SortBy(Debtors(bs), DebtorKey)
  }

  function SortedCreditors(bs: seq<Balance>): seq<Balance>
  {
    SortBy(Creditors(bs), CreditorKey)
  }

  /** The plan `optimizeSettlements(bs)` returns. */
  function PlanFor(bs: seq<Balance>): seq<Settlement>
  {
    SortedSidesKeepSigns(bs);
    Greedy(SortedDebtors(bs), SortedCreditors(bs))
  }

  /** `[...].map(b => ({ ...b }))`: a fresh array holding `s`. */
  method CopyToArray(s: seq<Balance>) returns (a: array<Balance>)
    ensures fresh(a) && a[..] == s
  {
    a := new Balance[|s|](k requires 0 <= k < |s| => s[k]);
  }

  /**
   * The source function. It reads `balances` and works on copies of the
   * debtor and creditor entries: `balances` has no `modifies` clause here.
   */
  method OptimizeSettlements(balances: array<Balance>) returns (plan: seq<Settlement>)
    ensures plan == PlanFor(balances[..])
  {
    ghost var bs := balances[..];
    var debtors := CopyToArray(Debtors(balances[..]));
    var creditors := CopyToArray(Creditors(balances[..]));
    SortInPlace(debtors, DebtorKey);
    SortInPlace(creditors, CreditorKey);
    assert debtors[..] == SortedDebtors(bs) && creditors[..] == SortedCreditors(bs);
    SortedSidesKeepSigns(bs);
    ghost var whole := Greedy(debtors[..], creditors[..]);
    assert whole == PlanFor(bs);
    assert debtors[0..] == debtors[..] && creditors[0..] == creditors[..];

    plan := [];
    var i, j := 0, 0;
    while i < debtors.Length && j < creditors.Length
      invariant 0 <= i <= debtors.Length && 0 <= j <= creditors.Length
      invariant AllDebtors(debtors[i..]) && AllCreditors(creditors[j..])
      invariant plan + Greedy(debtors[i..], creditors[j..]) == whole
      decreases debtors.Length - i + creditors.Length - j
    {
      ghost var planBefore := plan;
      var entry, i', j' := SettleStep(debtors, creditors, i, j);
      plan := plan + [entry];
      i, j := i', j';
      Regroup(planBefore, entry, Greedy(debtors[i..], creditors[j..]), whole);
    }
    assert debtors[i..] == [] || creditors[j..] == [];
    assert plan + [] == whole;
  }

  /**
   * The body of the loop: settle the debtor at `i` against the creditor at
   * `j`, write back what each has left, and move each cursor whose entry
   * reached zero.
   */
  method SettleStep(debtors: array<Balance>, creditors: array<Balance>, i: nat, j: nat)
    returns (entry: Settlement, i': nat, j': nat)
    requires debtors != creditors && i < debtors.Length && j < creditors.Length
    requires AllDebtors(debtors[i..]) && AllCreditors(creditors[j..])
    modifies debtors, creditors
    ensures i <= i' <= debtors.Length && j <= j' <= creditors.Length && i + j < i' + j'
    ensures AllDebtors(debtors[i'..]) && AllCreditors(creditors[j'..])
    ensures [entry] + Greedy(debtors[i'..], creditors[j'..]) == old(Greedy(debtors[i..], creditors[j..]))
  {
    ghost var ds, cs := debtors[i..], creditors[j..];
    assert ds[0] == debtors[i] && cs[0] == creditors[j];
    var settleAmount := Min(Abs(debtors[i].amount), creditors[j].amount);
    assert settleAmount == Matched(ds, cs);
    entry := Settlement(debtors[i].userId, creditors[j].userId, settleAmount);
    GreedyUnfold(ds, cs);
    i' := WriteBack(debtors, i, debtors[i].amount + settleAmount);
    assert debtors[i'..] == NextDebtors(ds, cs);
    j' := WriteBack(creditors, j, creditors[j].amount - settleAmount);
    assert creditors[j'..] == NextCreditors(ds, cs);
  }

  /**
   * `a[k].amount = rest`, then the cursor moves on when the entry is within
   * epsilon of zero.
   */
  method WriteBack(a: array<Balance>, k: nat, rest: int) returns (k': nat)
    requires k < a.Length
    modifies a
    ensures k' == (if Abs(rest) < EpsilonCents then k + 1 else k)
    ensures a[k'..] == Advance(old(a[k..]), rest)
  {
    ghost var before := a[..];
    a[k] := a[k].(amount := rest);
    assert a[..] == before[k := before[k].(amount := rest)];
    AdvanceSlice(before, k, rest, a[..]);
    k' := if Abs(a[k].amount) < EpsilonCents then k + 1 else k;
  }

  lemma Regroup(p: seq<Settlement>, x: Settlement, rest: seq<Settlement>, whole: seq<Settlement>)
    requires p + ([x] + rest) == whole
    ensures (p + [x]) + rest == whole
  {
    assert (p + [x]) + rest == p + ([x] + rest);
  }

  /** One turn of the loop, as one unfolding of `Greedy`. */
  lemma GreedyUnfold(ds: seq<Balance>, cs: seq<Balance>)
    requires AllDebtors(ds) && AllCreditors(cs) && ds != [] && cs != []
    ensures AllDebtors(NextDebtors(ds, cs)) && AllCreditors(NextCreditors(ds, cs))
    ensures Greedy(ds, cs)
      == [Settlement(ds[0].userId, cs[0].userId, Matched(ds, cs))] + Greedy(NextDebtors(ds, cs), NextCreditors(ds, cs))
  {
    StepSigns(ds, cs);
  }

  /** Overwriting the amount at the cursor and then maybe stepping past it is `Advance`. */
  lemma AdvanceSlice(a: seq<Balance>, i: int, rest: int, a': seq<Balance>)
    requires 0 <= i < |a| && a' == a[i := a[i].(amount := rest)]
    ensures (if Abs(rest) < EpsilonCents then a'[i + 1..] else a'[i..]) == Advance(a[i..], rest)
  {
    if Abs(rest) < EpsilonCents {
      assert a'[i + 1..] == a[i..][1..];
    } else {
      assert a'[i..] == [a[i..][0].(amount := rest)] + a[i..][1..];
    }
  }

  lemma {:induction false} DebtorsMembers(bs: seq<Balance>)
    ensures forall b :: b in Debtors(bs) <==> b in bs && b.amount < 0
    ensures forall b :: b in Creditors(bs) <==> b in bs && b.amount > 0
  {
    if bs != [] {
      var init, b := bs[..|bs| - 1], bs[|bs| - 1];
      DebtorsMembers(init);
      assert bs == init + [b];
    }
  }

  /** Splitting off the zero entries keeps every user's amount and the total. */
  lemma {:induction false} DebtorsSums(bs: seq<Balance>, u: UserId)
    ensures AmountOf(Debtors(bs), u) + AmountOf(Creditors(bs), u) == AmountOf(bs, u)
    ensures Total(Debtors(bs)) + Total(Creditors(bs)) == Total(bs)
    ensures |Debtors(bs)| + |Creditors(bs)| <= |bs|
  {
    if bs != [] {
      var init, b := bs[..|bs| - 1], bs[|bs| - 1];
      DebtorsSums(init, u);
      assert bs == init + [b];
      var dt := if b.amount < 0 then [b] else [];
      var ct := if b.amount > 0 then [b] else [];
      AmountOfAppend(Debtors(init), dt, u);
      AmountOfAppend(Creditors(init), ct, u);
      AmountOfAppend(init, [b], u);
      TotalAppend(Debtors(init), dt);
      TotalAppend(Creditors(init), ct);
      TotalAppend(init, [b]);
    }
  }

  /** Inserting an entry adds its amount to its user's sum. */
  lemma {:induction false} InsertPreservesAmount(s: seq<Balance>, x: Balance, key: Balance -> real, u: UserId)
    ensures AmountOf(Insert(s, x, key), u) == AmountOf(s, u) + (if x.userId == u then x.amount else 0)
  {
    if s == [] {
      AmountOfSnoc(s, x, u);
    } else {
      var init, last := s[..|s| - 1], s[|s| - 1];
      assert s == init + [last];
      AmountOfSnoc(init, last, u);
      if key(last) > key(x) {
        var r := Insert(init, x, key);
        assert Insert(s, x, key) == r + [last];
        InsertPreservesAmount(init, x, key, u);
        AmountOfSnoc(r, last, u);
      } else {
        AmountOfSnoc(s, x, u);
      }
    }
  }

  /** Inserting an entry adds its amount to the total. */
  lemma {:induction false} InsertPreservesTotal(s: seq<Balance>, x: Balance, key: Balance -> real)
    ensures Total(Insert(s, x, key)) == Total(s) + x.amount
  {
    if s == [] {
      TotalSnoc(s, x);
    } else {
      var init, last := s[..|s| - 1], s[|s| - 1];
      assert s == init + [last];
      TotalSnoc(init, last);
      if key(last) > key(x) {
        var r := Insert(init, x, key);
        assert Insert(s, x, key) == r + [last];
        InsertPreservesTotal(init, x, key);
        TotalSnoc(r, last);
      } else {
        TotalSnoc(s, x);
      }
    }
  }

  /** Sorting changes no user's sum. */
  lemma {:induction false} SortPreservesAmount(s: seq<Balance>, key: Balance -> real, u: UserId)
    ensures AmountOf(SortBy(s, key), u) == AmountOf(s, u)
  {
    if s != [] {
      var init, last := s[..|s| - 1], s[|s| - 1];
      assert SortBy(s, key) == Insert(SortBy(init, key), last, key);
      SortPreservesAmount(init, key, u);
      InsertPreservesAmount(SortBy(init, key), last, key, u);
      assert s == init + [last];
      AmountOfSnoc(init, last, u);
    }
  }

  /** Sorting changes no total. */
  lemma {:induction false} SortPreservesTotal(s: seq<Balance>, key: Balance -> real)
    ensures Total(SortBy(s, key)) == Total(s)
  {
    if s != [] {
      var init, last := s[..|s| - 1], s[|s| - 1];
      assert SortBy(s, key) == Insert(SortBy(init, key), last, key);
      SortPreservesTotal(init, key);
      InsertPreservesTotal(SortBy(init, key), last, key);
    }
  }

  /** After sorting, the debtors are still all negative and the creditors all positive. */
  lemma SortedSidesKeepSigns(bs: seq<Balance>)
    ensures AllDebtors(SortedDebtors(bs)) && AllCreditors(SortedCreditors(bs))
  {
    DebtorsMembers(bs);
    SortByPermutes(Debtors(bs), DebtorKey);
    SortByPermutes(Creditors(bs), CreditorKey);
    forall k | 0 <= k < |SortedDebtors(bs)| ensures SortedDebtors(bs)[k].amount < 0 {
      assert SortedDebtors(bs)[k] in Debtors(bs);
    }
    forall k | 0 <= k < |SortedCreditors(bs)| ensures SortedCreditors(bs)[k].amount > 0 {
      assert SortedCreditors(bs)[k] in Creditors(bs);
    }
  }

  /** What user `u` pays across the plan. */
  function PaidBy(p: seq<Settlement>, u: UserId): int
  {
    if p == [] then 0 else (if p[0].from == u then p[0].amount else 0) + PaidBy(p[1..], u)
  }

  /** What user `u` receives across the plan. */
  function ReceivedBy(p: seq<Settlement>, u: UserId): int
  {
    if p == [] then 0 else (if p[0].to == u then p[0].amount else 0) + ReceivedBy(p[1..], u)
  }

  /** Sum of all plan amounts. */
  function PlanTotal(p: seq<Settlement>): int
  {
    if p == [] then 0 else p[0].amount + PlanTotal(p[1..])
  }

  lemma {:induction false} DebtorSigns(ds: seq<Balance>, u: UserId)
    requires AllDebtors(ds)
    ensures AmountOf(ds, u) <= 0 && Total(ds) <= 0
    ensures ds != [] ==> Total(ds) < 0
  {
    if ds != [] {
      DebtorSigns(ds[..|ds| - 1], u);
    }
  }

  lemma {:induction false} CreditorSigns(cs: seq<Balance>, u: UserId)
    requires AllCreditors(cs)
    ensures AmountOf(cs, u) >= 0 && Total(cs) >= 0
    ensures cs != [] ==> Total(cs) > 0
  {
    if cs != [] {
      CreditorSigns(cs[..|cs| - 1], u);
    }
  }

  /** `Advance` replaces the head's amount by `rest`, dropping the head when that is zero. */
  lemma AdvanceSums(s: seq<Balance>, rest: int, u: UserId)
    requires s != []
    ensures AmountOf(Advance(s, rest), u) == AmountOf(s, u) + (if s[0].userId == u then rest - s[0].amount else 0)
    ensures Total(Advance(s, rest)) == Total(s) + rest - s[0].amount
    ensures Ids(Advance(s, rest)) <= Ids(s)
    ensures |Advance(s, rest)| <= |s| && (Abs(rest) < EpsilonCents ==> |Advance(s, rest)| < |s|)
  {
    var head, tail := s[0], s[1..];
    assert s == [head] + tail;
    assert [head][..0] == [] && [head.(amount := rest)][..0] == [];
    AmountOfAppend([head], tail, u);
    TotalAppend([head], tail);
    if Abs(rest) >= EpsilonCents {
      AmountOfAppend([head.(amount := rest)], tail, u);
      TotalAppend([head.(amount := rest)], tail);
      assert Advance(s, rest) == [head.(amount := rest)] + tail;
    }
  }

  /** One turn moves `Matched` from the head debtor and from the head creditor. */
  lemma StepSides(ds: seq<Balance>, cs: seq<Balance>, u: UserId)
    requires AllDebtors(ds) && AllCreditors(cs) && ds != [] && cs != []
    ensures AllDebtors(NextDebtors(ds, cs)) && AllCreditors(NextCreditors(ds, cs))
    ensures Matched(ds, cs) > 0
    ensures AmountOf(NextDebtors(ds, cs), u) == AmountOf(ds, u) + (if ds[0].userId == u then Matched(ds, cs) else 0)
    ensures AmountOf(NextCreditors(ds, cs), u) == AmountOf(cs, u) - (if cs[0].userId == u then Matched(ds, cs) else 0)
    ensures Total(NextDebtors(ds, cs)) == Total(ds) + Matched(ds, cs)
    ensures Total(NextCreditors(ds, cs)) == Total(cs) - Matched(ds, cs)
    ensures Ids(NextDebtors(ds, cs)) <= Ids(ds) && Ids(NextCreditors(ds, cs)) <= Ids(cs)
    ensures ds[0].userId in Ids(ds) && cs[0].userId in Ids(cs)
    ensures |NextDebtors(ds, cs)| + |NextCreditors(ds, cs)| < |ds| + |cs|
  {
    StepSigns(ds, cs);
    AdvanceSums(ds, ds[0].amount + Matched(ds, cs), u);
    AdvanceSums(cs, cs[0].amount - Matched(ds, cs), u);
    assert ds[0] in ds && cs[0] in cs;
  }

  /** One turn emits one transfer of `Matched` from the head debtor to the head creditor. */
  lemma StepPlan(ds: seq<Balance>, cs: seq<Balance>, u: UserId)
    requires AllDebtors(ds) && AllCreditors(cs) && ds != [] && cs != []
    ensures AllDebtors(NextDebtors(ds, cs)) && AllCreditors(NextCreditors(ds, cs))
    ensures PaidBy(Greedy(ds, cs), u)
      == (if ds[0].userId == u then Matched(ds, cs) else 0) + PaidBy(Greedy(NextDebtors(ds, cs), NextCreditors(ds, cs)), u)
    ensures ReceivedBy(Greedy(ds, cs), u)
      == (if cs[0].userId == u then Matched(ds, cs) else 0) + ReceivedBy(Greedy(NextDebtors(ds, cs), NextCreditors(ds, cs)), u)
    ensures PlanTotal(Greedy(ds, cs)) == Matched(ds, cs) + PlanTotal(Greedy(NextDebtors(ds, cs), NextCreditors(ds, cs)))
    ensures |Greedy(ds, cs)| == 1 + |Greedy(NextDebtors(ds, cs), NextCreditors(ds, cs))|
  {
    GreedyUnfold(ds, cs);
    var rest := Greedy(NextDebtors(ds, cs), NextCreditors(ds, cs));
    assert Greedy(ds, cs)[1..] == rest;
  }

  /** Every transfer is positive and goes from one of `ds` to one of `cs`. */
  lemma {:induction false} GreedyEntries(ds: seq<Balance>, cs: seq<Balance>)
    requires AllDebtors(ds) && AllCreditors(cs)
    ensures forall k :: 0 <= k < |Greedy(ds, cs)| ==>
      Greedy(ds, cs)[k].amount > 0 && Greedy(ds, cs)[k].from in Ids(ds) && Greedy(ds, cs)[k].to in Ids(cs)
    decreases |ds| + |cs|
  {
    if ds != [] && cs != [] {
      StepSides(ds, cs, "");
      StepPlan(ds, cs, "");
      GreedyEntries(NextDebtors(ds, cs), NextCreditors(ds, cs));
      GreedyUnfold(ds, cs);
    }
  }

  /**
   * Nobody pays more than they owe or receives more than they are owed;
   * when debts and credits cancel out, everybody is paid exactly.
   */
  lemma {:induction false} GreedyPerUser(ds: seq<Balance>, cs: seq<Balance>, u: UserId)
    requires AllDebtors(ds) && AllCreditors(cs)
    ensures 0 <= PaidBy(Greedy(ds, cs), u) <= -AmountOf(ds, u)
    ensures 0 <= ReceivedBy(Greedy(ds, cs), u) <= AmountOf(cs, u)
    ensures Total(ds) + Total(cs) == 0 ==>
      PaidBy(Greedy(ds, cs), u) == -AmountOf(ds, u) && ReceivedBy(Greedy(ds, cs), u) == AmountOf(cs, u)
    decreases |ds| + |cs|
  {
    DebtorSigns(ds, u);
    CreditorSigns(cs, u);
    if ds != [] && cs != [] {
      StepSides(ds, cs, u);
      StepPlan(ds, cs, u);
      GreedyPerUser(NextDebtors(ds, cs), NextCreditors(ds, cs), u);
    }
  }

  /** The plan has fewer entries than there are debtors and creditors together. */
  lemma {:induction false} GreedyLength(ds: seq<Balance>, cs: seq<Balance>)
    requires AllDebtors(ds) && AllCreditors(cs)
    ensures ds == [] || cs == [] ==> Greedy(ds, cs) == []
    ensures ds != [] && cs != [] ==> 1 <= |Greedy(ds, cs)| <= |ds| + |cs| - 1
    decreases |ds| + |cs|
  {
    if ds != [] && cs != [] {
      StepSides(ds, cs, "");
      StepPlan(ds, cs, "");
      GreedyLength(NextDebtors(ds, cs), NextCreditors(ds, cs));
    }
  }

  /** The plan moves the smaller of the total debt and the total credit; the rest is dropped. */
  lemma {:induction false} GreedyTotal(ds: seq<Balance>, cs: seq<Balance>)
    requires AllDebtors(ds) && AllCreditors(cs)
    ensures PlanTotal(Greedy(ds, cs)) == Min(-Total(ds), Total(cs))
    decreases |ds| + |cs|
  {
    DebtorSigns(ds, "");
    CreditorSigns(cs, "");
    if ds != [] && cs != [] {
      StepSides(ds, cs, "");
      StepPlan(ds, cs, "");
      GreedyTotal(NextDebtors(ds, cs), NextCreditors(ds, cs));
    }
  }

  /** The sorted sides hold the same amounts per user as the unsorted ones. */
  lemma SortedSidesSums(bs: seq<Balance>, u: UserId)
    ensures AmountOf(SortedDebtors(bs), u) == AmountOf(Debtors(bs), u)
    ensures AmountOf(SortedCreditors(bs), u) == AmountOf(Creditors(bs), u)
    ensures Total(SortedDebtors(bs)) == Total(Debtors(bs))
    ensures Total(SortedCreditors(bs)) == Total(Creditors(bs))
    ensures |SortedDebtors(bs)| == |Debtors(bs)| && |SortedCreditors(bs)| == |Creditors(bs)|
  {
    SortPreservesAmount(Debtors(bs), DebtorKey, u);
    SortPreservesAmount(Creditors(bs), CreditorKey, u);
    SortedTotals(bs);
    SortByPermutes(Debtors(bs), DebtorKey);
    SortByPermutes(Creditors(bs), CreditorKey);
  }

  /**
   * Every planned transfer is positive, is paid by a user whose balance is
   * negative and goes to a user whose balance is positive.
   */
  lemma PlanTransfersValid(bs: seq<Balance>)
    ensures forall k :: 0 <= k < |PlanFor(bs)| ==> PlanFor(bs)[k].amount > 0
    ensures forall k :: 0 <= k < |PlanFor(bs)| ==>
      exists b :: b in bs && b.userId == PlanFor(bs)[k].from && b.amount < 0
    ensures forall k :: 0 <= k < |PlanFor(bs)| ==>
      exists b :: b in bs && b.userId == PlanFor(bs)[k].to && b.amount > 0
  {
    var plan := PlanFor(bs);
    SortedSidesKeepSigns(bs);
    GreedyEntries(SortedDebtors(bs), SortedCreditors(bs));
    SortedSidesMembers(bs);
    forall k | 0 <= k < |plan|
      ensures exists b :: b in bs && b.userId == plan[k].from && b.amount < 0
      ensures exists b :: b in bs && b.userId == plan[k].to && b.amount > 0
    {
      var d :| d in SortedDebtors(bs) && d.userId == plan[k].from;
      var c :| c in SortedCreditors(bs) && c.userId == plan[k].to;
      assert d in bs && d.amount < 0 && c in bs && c.amount > 0;
    }
  }

  /** The sorted debtors are negative entries of `bs`, the sorted creditors positive ones. */
  lemma SortedSidesMembers(bs: seq<Balance>)
    ensures forall b :: b in SortedDebtors(bs) ==> b in bs && b.amount < 0
    ensures forall b :: b in SortedCreditors(bs) ==> b in bs && b.amount > 0
  {
    DebtorsMembers(bs);
    SortByPermutes(Debtors(bs), DebtorKey);
    SortByPermutes(Creditors(bs), CreditorKey);
  }

  /**
   * Nobody pays more than their debts add up to or receives more than their
   * credits add up to.
   */
  lemma PlanNoOverpayment(bs: seq<Balance>, u: UserId)
    ensures 0 <= PaidBy(PlanFor(bs), u) <= -AmountOf(Debtors(bs), u)
    ensures 0 <= ReceivedBy(PlanFor(bs), u) <= AmountOf(Creditors(bs), u)
  {
    SortedSidesKeepSigns(bs);
    SortedSidesSums(bs, u);
    GreedyPerUser(SortedDebtors(bs), SortedCreditors(bs), u);
  }

  /** A user with at most one balance entry never both pays and receives. */
  lemma PlanPaysOrReceives(bs: seq<Balance>, u: UserId)
    requires DistinctIds(bs)
    ensures PaidBy(PlanFor(bs), u) == 0 || ReceivedBy(PlanFor(bs), u) == 0
  {
    PlanNoOverpayment(bs, u);
    if PaidBy(PlanFor(bs), u) != 0 && ReceivedBy(PlanFor(bs), u) != 0 {
      var i := AmountOfPresent(Debtors(bs), u);
      var j := AmountOfPresent(Creditors(bs), u);
      DebtorsMembers(bs);
      assert false;
    }
  }

  /** A nonzero per-user sum has an entry for that user. */
  lemma {:induction false} AmountOfPresent(bs: seq<Balance>, u: UserId) returns (k: nat)
    requires AmountOf(bs, u) != 0
    ensures k < |bs| && bs[k].userId == u
  {
    if bs[|bs| - 1].userId == u {
      k := |bs| - 1;
    } else {
      k := AmountOfPresent(bs[..|bs| - 1], u);
    }
  }

  /**
   * When the balances sum to zero, carrying out the plan brings every
   * user's balance to exactly zero.
   */
  lemma PlanSettlesEveryone(bs: seq<Balance>, u: UserId)
    requires Total(bs) == 0
    ensures AmountOf(bs, u) + PaidBy(PlanFor(bs), u) - ReceivedBy(PlanFor(bs), u) == 0
  {
    SortedSidesKeepSigns(bs);
    SortedSidesSums(bs, u);
    DebtorsSums(bs, u);
    GreedyPerUser(SortedDebtors(bs), SortedCreditors(bs), u);
  }

  /**
   * The plan is empty when nobody owes or nobody is owed, and otherwise has
   * fewer entries than there are nonzero balances.
   */
  lemma PlanLength(bs: seq<Balance>)
    ensures Debtors(bs) == [] || Creditors(bs) == [] ==> PlanFor(bs) == []
    ensures Debtors(bs) != [] && Creditors(bs) != [] ==>
      |PlanFor(bs)| <= |Debtors(bs)| + |Creditors(bs)| - 1
    ensures |Debtors(bs)| + |Creditors(bs)| <= |bs|
  {
    SortedSidesKeepSigns(bs);
    SortedSidesSums(bs, "");
    DebtorsSums(bs, "");
    GreedyLength(SortedDebtors(bs), SortedCreditors(bs));
  }

  /**
   * The plan moves the smaller of what is owed and what is owed to: when the
   * balances do not sum to zero the difference is left unassigned.
   */
  lemma PlanVolume(bs: seq<Balance>)
    ensures PlanTotal(PlanFor(bs)) == Min(-Total(Debtors(bs)), Total(Creditors(bs)))
    ensures Total(bs) == 0 ==> PlanTotal(PlanFor(bs)) == Total(Creditors(bs))
  {
    var owed, owedTo := Total(Debtors(bs)), Total(Creditors(bs));
    SidesVolume(bs);
    DebtorsSums(bs, "");
    assert Total(bs) == owed + owedTo;
  }

  /** The plan moves the smaller of what the debtors owe and what the creditors are owed. */
  lemma SidesVolume(bs: seq<Balance>)
    ensures PlanTotal(PlanFor(bs)) == Min(-Total(Debtors(bs)), Total(Creditors(bs)))
  {
    calc {
      PlanTotal(PlanFor(bs));
    == { SortedVolume(bs); }
      Min(-Total(SortedDebtors(bs)), Total(SortedCreditors(bs)));
    == { SortedTotals(bs); }
      Min(-Total(Debtors(bs)), Total(Creditors(bs)));
    }
  }

  /** The plan moves the smaller of the sorted debt and the sorted credit. */
  lemma SortedVolume(bs: seq<Balance>)
    ensures PlanTotal(PlanFor(bs)) == Min(-Total(SortedDebtors(bs)), Total(SortedCreditors(bs)))
  {
    SortedSidesKeepSigns(bs);
    GreedyTotal(SortedDebtors(bs), SortedCreditors(bs));
  }

  /** Sorting the two sides changes neither total. */
  lemma SortedTotals(bs: seq<Balance>)
    ensures Total(SortedDebtors(bs)) == Total(Debtors(bs))
    ensures Total(SortedCreditors(bs)) == Total(Creditors(bs))
  {
    SortPreservesTotal(Debtors(bs), DebtorKey);
    SortPreservesTotal(Creditors(bs), CreditorKey);
  }

  /**
   * The first transfer pays the most negative balance towards the largest
   * positive one, for as much as the smaller of the two allows.
   */
  lemma PlanStartsWithExtremes(bs: seq<Balance>)
    ensures PlanFor(bs) != [] ==>
      (exists d, c :: d in bs && c in bs
         && PlanFor(bs)[0] == Settlement(d.userId, c.userId, Min(-d.amount, c.amount))
         && (forall b :: b in bs ==> d.amount <= b.amount <= c.amount))
  {
    if PlanFor(bs) != [] {
      PlanHead(bs);
      SortedHeadsAreExtreme(bs);
      var d, c := SortedDebtors(bs)[0], SortedCreditors(bs)[0];
      assert d in bs && c in bs
        && PlanFor(bs)[0] == Settlement(d.userId, c.userId, Min(-d.amount, c.amount))
        && (forall b :: b in bs ==> d.amount <= b.amount <= c.amount);
    }
  }

  /** A plan that is not empty starts with a transfer between the heads of the two sorted sides. */
  lemma PlanHead(bs: seq<Balance>)
    requires PlanFor(bs) != []
    ensures SortedDebtors(bs) != [] && SortedCreditors(bs) != []
    ensures PlanFor(bs)[0] == Settlement(SortedDebtors(bs)[0].userId, SortedCreditors(bs)[0].userId,
                                         Min(-SortedDebtors(bs)[0].amount, SortedCreditors(bs)[0].amount))
  {
    SortedSidesKeepSigns(bs);
    var sd, sc := SortedDebtors(bs), SortedCreditors(bs);
    GreedyUnfold(sd, sc);
  }

  /** The head of the sorted debtors is the smallest balance, the head of the sorted creditors the largest. */
  lemma SortedHeadsAreExtreme(bs: seq<Balance>)
    ensures SortedDebtors(bs) != [] ==>
      (SortedDebtors(bs)[0] in bs && forall b :: b in bs ==> SortedDebtors(bs)[0].amount <= b.amount)
    ensures SortedCreditors(bs) != [] ==>
      (SortedCreditors(bs)[0] in bs && forall b :: b in bs ==> b.amount <= SortedCreditors(bs)[0].amount)
  {
    DebtorHeadIsSmallest(bs);
    CreditorHeadIsLargest(bs);
  }

  lemma DebtorHeadIsSmallest(bs: seq<Balance>)
    ensures SortedDebtors(bs) != [] ==>
      (SortedDebtors(bs)[0] in bs && forall b :: b in bs ==> SortedDebtors(bs)[0].amount <= b.amount)
  {
    var sd := SortedDebtors(bs);
    if sd != [] {
      DebtorsMembers(bs);
      SortByOrdered(Debtors(bs), DebtorKey);
      SortByPermutes(Debtors(bs), DebtorKey);
      assert sd[0] in sd;
      forall b | b in bs ensures sd[0].amount <= b.amount {
        if b.amount < 0 {
          assert b in sd;
          var k :| 0 <= k < |sd| && sd[k] == b;
          assert k == 0 || DebtorKey(sd[0]) <= DebtorKey(sd[k]);
        }
      }
    }
  }

  lemma CreditorHeadIsLargest(bs: seq<Balance>)
    ensures SortedCreditors(bs) != [] ==>
      (SortedCreditors(bs)[0] in bs && forall b :: b in bs ==> b.amount <= SortedCreditors(bs)[0].amount)
  {
    var sc := SortedCreditors(bs);
    if sc != [] {
      DebtorsMembers(bs);
      SortByOrdered(Creditors(bs), CreditorKey);
      SortByPermutes(Creditors(bs), CreditorKey);
      assert sc[0] in sc;
      forall b | b in bs ensures b.amount <= sc[0].amount {
        if b.amount > 0 {
          assert b in sc;
          var k :| 0 <= k < |sc| && sc[k] == b;
          assert k == 0 || CreditorKey(sc[0]) <= CreditorKey(sc[k]);
        }
      }
    }
  }

}
