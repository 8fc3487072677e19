/**
 * The `calculate-settlements` request handler
 * (supabase/functions/calculate-settlements/index.ts, lines 56-155) over an
 * in-memory snapshot of the group's rows: reject a missing group id, fold
 * the rows into balances, plan the settlements, and answer with both.
 *
 * The closing theorems tie the two halves together: recording the plan as
 * settled transfers (what the settle-up dialog inserts) and aggregating again
 * leaves every balance within a cent of zero, and exactly at zero when the
 * group's expenses are fully split in whole cents, so a second request plans
 * nothing. Both hold in exact arithmetic; the source's doubles can leave a
 * cent for the second request (see `Optimizer`).
 */
module SettlementEngine {
  import opened Wrappers
  import opened Ledger
  import opened Aggregator
  import opened Optimizer

  /** The JSON body of a successful answer: `{ balances, settlements }`. */
  datatype Response = Response(balances: seq<Balance>, settlements: seq<Settlement>)

  const MissingGroupId := "Group ID is required"

  /** What the handler answers for `groupId` when the group's rows are `l`. */
  function Respond(groupId: string, l: Snapshot): Result<Response, string>
  {
    if groupId == "" then Err(MissingGroupId)
    else Ok(Response(BalancesOf(l), PlanFor(BalancesOf(l))))
  }

  /**
   * The handler: the guard of line 68, the aggregation of lines 99-129 and
   * the call of line 132. The balances it answers with are the array it
   * handed to the optimizer, read back afterwards.
   */
  method CalculateSettlements(groupId: string, l: Snapshot) returns (r: Result<Response, string>)
    ensures r == Respond(groupId, l)
  {
    if groupId == "" {
      return Err(MissingGroupId);
    }
    var balances := AggregateBalances(l);
    var balanceArray := CopyToArray(balances);
    var plan := OptimizeSettlements(balanceArray);
    r := Ok(Response(balanceArray[..], plan));
  }

  /** A plan entry recorded as a settled transfer, cents back to currency units. */
  function TransferOf(s: Settlement): TransferRow
  {
    TransferRow(s.from, s.to, s.amount as real / 100.0)
  }

  function TransfersOf(p: seq<Settlement>): seq<TransferRow>
  {
    if p == [] then [] else [TransferOf(p[0])] + TransfersOf(p[1..])
  }

  /** The group's rows once every entry of `p` has been settled. */
  function Settled(l: Snapshot, p: seq<Settlement>): Snapshot
  {
    l.(transfers := l.transfers + TransfersOf(p))
  }

  lemma {:induction false} SentAppend(a: seq<TransferRow>, b: seq<TransferRow>, u: UserId)
    ensures Sent(a + b, u) == Sent(a, u) + Sent(b, u)
    ensures Received(a + b, u) == Received(a, u) + Received(b, u)
    decreases |b|
  {
    if b == [] {
      assert a + b == a;
    } else {
      assert (a + b)[..|a + b| - 1] == a + b[..|b| - 1];
      SentAppend(a, b[..|b| - 1], u);
    }
  }

  /** Recorded plan entries move exactly what the plan says each user pays and receives. */
  lemma {:induction false} TransfersOfSums(p: seq<Settlement>, u: UserId)
    ensures Sent(TransfersOf(p), u) == PaidBy(p, u) as real / 100.0
    ensures Received(TransfersOf(p), u) == ReceivedBy(p, u) as real / 100.0
  {
    if p != [] {
      TransfersOfSums(p[1..], u);
      SentAppend([TransferOf(p[0])], TransfersOf(p[1..]), u);
      assert [TransferOf(p[0])][..0] == [];
    }
  }

  /** Settling `p` moves each user's exact position by what they pay minus what they receive. */
  lemma SettledNet(l: Snapshot, p: seq<Settlement>, u: UserId)
    ensures Net(Settled(l, p), u) == Net(l, u) + (PaidBy(p, u) - ReceivedBy(p, u)) as real / 100.0
  {
    SentAppend(l.transfers, TransfersOf(p), u);
    TransfersOfSums(p, u);
  }

  /**
   * When the rounded balances sum to zero, settling the planned transfers
   * and aggregating again leaves each user with at most the rounding error:
   * their exact position is the part below a cent that the first rounding
   * cut off, and their new balance is -1, 0 or 1 cent.
   */
  lemma SettlingClearsBalances(groupId: string, l: Snapshot, u: UserId)
    requires groupId != "" && Total(BalancesOf(l)) == 0
    ensures Net(Settled(l, Respond(groupId, l).value.settlements), u) * 100.0
         == Net(l, u) * 100.0 - RoundCents(Net(l, u)) as real
    ensures -1 <= AmountOf(BalancesOf(Settled(l, Respond(groupId, l).value.settlements)), u) <= 1
  {
    var bs := BalancesOf(l);
    var plan := PlanFor(bs);
    var l' := Settled(l, plan);
    BalancesOfSpec(l);
    PlanSettlesEveryone(bs, u);
    SettledNet(l, plan, u);
    BalancesOfSpec(l');
    var x := Net(l', u);
    assert x * 100.0 == Net(l, u) * 100.0 - RoundCents(Net(l, u)) as real;
    assert -0.5 <= x * 100.0 <= 0.5;
  }

  /** A position that is a whole number of cents. */
  predicate WholeCents(x: real)
  {
    (x * 100.0).Floor as real == x * 100.0
  }

  /** Every user's exact position is a whole number of cents. */
  ghost predicate AllWholeCents(l: Snapshot)
  {
    forall u :: WholeCents(Net(l, u))
  }

  lemma RoundExact(x: real)
    requires WholeCents(x)
    ensures RoundCents(x) as real == x * 100.0
  {
    var n := (x * 100.0).Floor;
    var y := x * 100.0;
    assert y == n as real;
    if x >= 0.0 {
      assert x * 100.0 + 0.5 == n as real + 0.5;
      assert (n as real + 0.5).Floor == n;
    } else {
      assert (-x) * 100.0 + 0.5 == (-n) as real + 0.5;
      assert ((-n) as real + 0.5).Floor == -n;
    }
  }

  /** The balances of a list of users, rounded, in that order. */
  lemma {:induction false} RoundedTotal(l: Snapshot, us: seq<UserId>)
    requires AllWholeCents(l)
    ensures Total(seq(|us|, k requires 0 <= k < |us| => Balance(us[k], RoundCents(Net(l, us[k])))))
         as real == 100.0 * SumNets(l, us)
  {
    var bs := seq(|us|, k requires 0 <= k < |us| => Balance(us[k], RoundCents(Net(l, us[k]))));
    if us != [] {
      var init := us[..|us| - 1];
      RoundedTotal(l, init);
      assert bs[..|bs| - 1] == seq(|init|, k requires 0 <= k < |init| => Balance(init[k], RoundCents(Net(l, init[k]))));
      RoundExact(Net(l, us[|us| - 1]));
    }
  }

  /**
   * When every expense is split in full and every position is whole cents,
   * the rounded balances sum to zero.
   */
  lemma BalancedGroupTotal(l: Snapshot)
    requires TotalSpent(l.expenses) == TotalOwed(l.shares) && AllWholeCents(l)
    ensures Total(BalancesOf(l)) == 0
  {
    RoundedTotal(l, UsersSeen(l));
    Conservation(l);
  }

  /**
   * Idempotence of settling up: when every expense is split in full and in
   * whole cents, recording the plan as settled transfers brings every
   * balance to exactly zero, and a second request plans no transfer.
   */
  lemma SettlingUpIsFinal(groupId: string, l: Snapshot)
    requires groupId != "" && TotalSpent(l.expenses) == TotalOwed(l.shares) && AllWholeCents(l)
    ensures forall b :: b in BalancesOf(Settled(l, Respond(groupId, l).value.settlements)) ==> b.amount == 0
    ensures Respond(groupId, Settled(l, Respond(groupId, l).value.settlements)).value.settlements == []
  {
    var plan := PlanFor(BalancesOf(l));
    var l' := Settled(l, plan);
    var bs' := BalancesOf(l');
    BalancedGroupTotal(l);
    BalancesOfSpec(l');
    forall u ensures AmountOf(bs', u) == 0 {
      SettlingClearsBalances(groupId, l, u);
      RoundExact(Net(l, u));
      SettledNet(l, plan, u);
      assert Net(l', u) == 0.0;
    }
    forall b | b in bs' ensures b.amount == 0 {
      var k :| 0 <= k < |bs'| && bs'[k] == b;
      AmountOfDistinct(bs', k);
    }
    NoDebtorsNoPlan(bs');
  }

  /** All-zero balances give nobody to pay and nobody to be paid. */
  lemma NoDebtorsNoPlan(bs: seq<Balance>)
    requires forall b :: b in bs ==> b.amount == 0
    ensures PlanFor(bs) == []
  {
    DebtorsMembers(bs);
    PlanLength(bs);
  }

  /**
   * A successful answer carries the aggregated balances, untouched by the
   * optimizer, and a plan whose transfers each go from a negative balance
   * to a positive one; a missing group id is the only failure.
   */
  lemma ResponseShape(groupId: string, l: Snapshot)
    ensures Respond(groupId, l).Err? <==> groupId == ""
    ensures Respond(groupId, l).Err? ==> Respond(groupId, l).error == "Group ID is required"
    ensures Respond(groupId, l).Ok? ==>
      var r := Respond(groupId, l).value;
      && DistinctIds(r.balances)
      && Ids(r.balances) == UsersInvolved(l)
      && (forall u :: AmountOf(r.balances, u) == RoundCents(Net(l, u)))
      && (forall k :: 0 <= k < |r.settlements| ==> r.settlements[k].amount > 0)
  {
    if groupId != "" {
      BalancesOfSpec(l);
      PlanTransfersValid(BalancesOf(l));
    }
  }
}
